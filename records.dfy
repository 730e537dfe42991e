/** The plain records the alert pipelines pass around, one module per namespace of the
    repository, each with the fields its own generation declares or uses. Grid, faction and
    player ids are unbounded integers here; Steam ids are unsigned 64-bit values. Distances are
    reals (the game measures them as doubles). Strings the code tests for null are `Option`s. */

/** The relation the game reports between two factions. Only `Enemies` matters to the
    pipelines; everything else counts as friendly. */
module Factions {
  datatype Relation = Neutral | Enemies | Friends

  /** `GetRelationBetweenFactions`, owned by the game session, is an oracle. */
  type RelationOracle = (int, int) -> Relation
}

/** TorchAlert.Core: `Proximity` (TorchAlert/TorchAlert.Core/Proximity.cs) and the records
    around it. The defender, offender and alert files of this namespace are not part of this
    model; their fields are the ones `ProximityAlertCreator`, `ProximityAlertBuffer` and
    `DiscordAlertClient` read and pass. */
module CoreRecords {
  import opened Wrappers
  import opened Numerics

  datatype DefenderGridInfo = DefenderGridInfo(
    gridId: int, gridName: string, factionId: Option<int>, steamIds: seq<ULong>)

  datatype OffenderGridInfo = OffenderGridInfo(
    gridId: int, gridName: string, ownerName: Option<string>, factionId: Option<int>,
    factionName: Option<string>, factionTag: Option<string>)

  datatype Proximity = Proximity(defender: DefenderGridInfo, offender: OffenderGridInfo, distance: real)

  datatype ProximityAlert = ProximityAlert(
    steamId: ULong, gridId: int, gridName: string, distance: real, offender: OffenderGridInfo)
}

/** TorchAlert.Core.Proximity: `ProximityAlert` (a readonly struct, so compared by value) and
    `OffenderProximityInfo`. Its defender and offender files are not part of this model; the
    fields are those the creator, the filter and `AlertDiscordClient` use. */
module CoreProximityRecords {
  import opened Wrappers
  import opened Numerics

  datatype DefenderGridInfo = DefenderGridInfo(
    gridId: int, gridName: string, factionId: Option<int>, steamIds: seq<ULong>)

  datatype OffenderGridInfo = OffenderGridInfo(
    gridId: int, gridName: string, ownerName: Option<string>, factionId: Option<int>,
    factionTag: Option<string>)

  datatype OffenderProximityInfo = OffenderProximityInfo(
    defender: DefenderGridInfo, offender: OffenderGridInfo, distance: real)

  datatype ProximityAlert = ProximityAlert(
    steamId: ULong, defenderGridId: int, defenderGridName: string, offender: OffenderGridInfo,
    distance: real)
}

/** TorchAlert.Proximity: `OffenderGridInfo` and `ProximityAlert`, the records the
    namespace's `ProximityAlertBuffer` stores. Its `DefenderGridInfo` is read by no operation
    of this model and is left out. */
module ProximityRecords {
  import opened Numerics

  datatype OffenderGridInfo = OffenderGridInfo(
    gridId: int, gridName: string, ownerName: string, factionId: int, factionTag: string)

  datatype ProximityAlert = ProximityAlert(
    steamId: ULong, gridId: int, gridName: string, offender: OffenderGridInfo, distance: real)
}

/** TorchAlarm.Core: `OffenderGridInfo` and `ProximityAlarm`. Its `Proximity` and defender
    files are not part of this model; their fields are those `ProximityAlarmCreator` reads. */
module AlarmRecords {
  import opened Wrappers
  import opened Numerics

  datatype OffenderGridInfo = OffenderGridInfo(
    gridId: int, gridName: string, ownerName: Option<string>, factionId: Option<int>,
    factionTag: Option<string>, factionName: Option<string>)

  datatype DefenderGridInfo = DefenderGridInfo(
    gridId: int, gridName: string, factionId: Option<int>, steamIds: seq<ULong>)

  datatype Proximity = Proximity(defender: DefenderGridInfo, offender: OffenderGridInfo, distance: real)

  datatype ProximityAlarm = ProximityAlarm(
    steamId: ULong, gridId: int, gridName: string, distance: real, offender: OffenderGridInfo)
}

/** TorchAlarm.Discord's TorchAlarm.Core: `GridInfo`, `Proximity` and `ProximityReport`. */
module ReportRecords {
  import opened Wrappers
  import opened Numerics

  datatype GridInfo = GridInfo(gridId: int, gridName: string, factionId: Option<int>, isStatic: bool)

  datatype Proximity = Proximity(grid0: GridInfo, grid1: GridInfo, distance: real)

  datatype ProximityReport = ProximityReport(
    steamId: ULong, gridId: int, gridName: string, offenderFactionId: Option<int>, distance: real)
}
