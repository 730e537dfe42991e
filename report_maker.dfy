/** TorchAlarm.Discord/TorchAlarm.Core/ProximityReportMaker.cs: decides which grid of a
    proximity defends (static and in a faction), reports to every member of the defender's
    faction, and keeps one report per (steam id, defender grid id), the last one added. */
module ReportMaker {
  import opened Wrappers
  import opened Numerics
  import opened Seqs
  import opened Factions
  import opened ReportRecords
  import opened Collapsing

  /** `TryGetFactionById` followed by the faction's members, as player ids, in the order the
      faction lists them; `None` for a faction the game does not know. */
  type MembersOracle = int -> Option<seq<int>>

  /** `TryGetSteamId`: the player's steam id, 0 when it has none. */
  type SteamIdOracle = int -> ULong

  /** The loop over the members: each member's steam id, in order, when it is positive. */
  function SteamIdsOf(steamIdOf: SteamIdOracle, playerIds: seq<int>): seq<ULong>
    decreases |playerIds|
  {
    if playerIds == [] then []
    else
      var ids := SteamIdsOf(steamIdOf, DropLast(playerIds));
      var steamId := steamIdOf(Last(playerIds));
      if steamId > 0 then ids + [steamId] else ids
  }

  /** The ids kept are exactly the positive steam ids of the players. */
  lemma {:induction false} SteamIdsOfMembers(steamIdOf: SteamIdOracle, playerIds: seq<int>)
    ensures forall s :: s in SteamIdsOf(steamIdOf, playerIds) <==>
              s > 0 && exists p :: p in playerIds && steamIdOf(p) == s
    decreases |playerIds|
  {
    if playerIds != [] {
      var rest, last := DropLast(playerIds), Last(playerIds);
      assert playerIds == rest + [last];
      SteamIdsOfMembers(steamIdOf, rest);
      forall s | s > 0 && exists p :: p in playerIds && steamIdOf(p) == s
        ensures s in SteamIdsOf(steamIdOf, playerIds)
      {
        var p :| p in playerIds && steamIdOf(p) == s;
        if p != last {
          assert p in rest;
        }
      }
    }
  }

  /** `s` is the positive steam id of some member of the faction `factionId`. */
  ghost predicate IsMemberSteamId(members: MembersOracle, steamIdOf: SteamIdOracle, factionId: int, s: ULong) {
    members(factionId).Some? && s > 0 && exists p :: p in members(factionId).value && steamIdOf(p) == s
  }

  /** `GetSteamIdsFromFaction`: the positive steam ids of the faction's members; none for an
      unknown faction. */
  function GetSteamIdsFromFaction(members: MembersOracle, steamIdOf: SteamIdOracle, factionId: int): (r: seq<ULong>)
    ensures members(factionId).None? ==> r == []
    ensures forall s :: s in r <==> IsMemberSteamId(members, steamIdOf, factionId, s)
  {
    match members(factionId)
    case None => []
    case Some(playerIds) =>
      SteamIdsOfMembers(steamIdOf, playerIds);
      SteamIdsOf(steamIdOf, playerIds)
  }

  /** Both grids belong to a faction and the game does not call the two factions enemies. */
  predicate Friendly(relation: RelationOracle, p: Proximity) {
    p.grid0.factionId.Some? && p.grid1.factionId.Some? &&
    relation(p.grid0.factionId.value, p.grid1.factionId.value) != Enemies
  }

  /** A grid can defend when it belongs to a faction and is static. */
  predicate CanDefend(g: GridInfo) {
    g.factionId.Some? && g.isStatic
  }

  /** The defending grid: `grid0` when it can defend, otherwise `grid1`. */
  function DefenderOf(p: Proximity): GridInfo {
    if CanDefend(p.grid0) then p.grid0 else p.grid1
  }

  function OffenderOf(p: Proximity): GridInfo {
    if CanDefend(p.grid0) then p.grid1 else p.grid0
  }

  function ReportFor(defender: GridInfo, offender: GridInfo, distance: real, steamId: ULong): ProximityReport {
    ProximityReport(steamId, defender.gridId, defender.gridName, offender.factionId, distance)
  }

  /** The `foreach` over the defender's steam ids. */
  function ReportsFor(defender: GridInfo, offender: GridInfo, distance: real, steamIds: seq<ULong>): (r: seq<ProximityReport>)
    ensures |r| == |steamIds|
    ensures forall i :: 0 <= i < |r| ==> r[i] == ReportFor(defender, offender, distance, steamIds[i])
    decreases |steamIds|
  {
    if steamIds == [] then []
    else ReportsFor(defender, offender, distance, DropLast(steamIds)) + [ReportFor(defender, offender, distance, Last(steamIds))]
  }

  /** The second `GetProximityReports` overload: one report per steam id of the defender's
      faction. The caller has checked that the defender has a faction. */
  function DefenderReports(members: MembersOracle, steamIdOf: SteamIdOracle, defender: GridInfo, offender: GridInfo, distance: real): seq<ProximityReport>
    requires defender.factionId.Some?
  {
    ReportsFor(defender, offender, distance, GetSteamIdsFromFaction(members, steamIdOf, defender.factionId.value))
  }

  /** The first `GetProximityReports` overload. */
  function GetProximityReports(relation: RelationOracle, members: MembersOracle, steamIdOf: SteamIdOracle, p: Proximity): (r: seq<ProximityReport>)
    ensures !p.grid0.isStatic && !p.grid1.isStatic ==> r == []
    ensures Friendly(relation, p) ==> r == []
    ensures !CanDefend(p.grid0) && !CanDefend(p.grid1) ==> r == []
    ensures !Friendly(relation, p) && CanDefend(p.grid0) ==>
              r == DefenderReports(members, steamIdOf, p.grid0, p.grid1, p.distance)
    ensures !Friendly(relation, p) && !CanDefend(p.grid0) && CanDefend(p.grid1) ==>
              r == DefenderReports(members, steamIdOf, p.grid1, p.grid0, p.distance)
  {
    var (g0, g1, distance) := (p.grid0, p.grid1, p.distance);
    if !g0.isStatic && !g1.isStatic then []
    else if g0.factionId.Some? && g1.factionId.Some? && relation(g0.factionId.value, g1.factionId.value) != Enemies then []
    else if g0.factionId.Some? && g0.isStatic then DefenderReports(members, steamIdOf, g0, g1, distance)
    else if g1.factionId.Some? && g1.isStatic then DefenderReports(members, steamIdOf, g1, g0, distance)
    else []
  }

  /** A report of a proximity goes to a member of the defender's faction, and is about the
      defender and the offender's faction; and every such member gets one. */
  lemma ReportMembers(relation: RelationOracle, members: MembersOracle, steamIdOf: SteamIdOracle, p: Proximity, report: ProximityReport)
    ensures report in GetProximityReports(relation, members, steamIdOf, p) <==>
              !Friendly(relation, p) && CanDefend(DefenderOf(p)) &&
              IsMemberSteamId(members, steamIdOf, DefenderOf(p).factionId.value, report.steamId) &&
              report == ReportFor(DefenderOf(p), OffenderOf(p), p.distance, report.steamId)
  {
    var r := GetProximityReports(relation, members, steamIdOf, p);
    if !Friendly(relation, p) && CanDefend(DefenderOf(p)) {
      var ids := GetSteamIdsFromFaction(members, steamIdOf, DefenderOf(p).factionId.value);
      assert r == ReportsFor(DefenderOf(p), OffenderOf(p), p.distance, ids);
      if report in r {
        var i :| 0 <= i < |r| && r[i] == report;
        assert ids[i] == report.steamId;
      }
      if IsMemberSteamId(members, steamIdOf, DefenderOf(p).factionId.value, report.steamId) &&
         report == ReportFor(DefenderOf(p), OffenderOf(p), p.distance, report.steamId) {
        var i :| 0 <= i < |ids| && ids[i] == report.steamId;
        assert r[i] == report;
      }
    }
  }

  /** Reports are stored at (steam id, defender grid id). */
  function Key(report: ProximityReport): (ULong, int) {
    (report.steamId, report.gridId)
  }

  function Recipient(report: ProximityReport): ULong {
    report.steamId
  }

  function DefenderColumn(p: Proximity): int {
    DefenderOf(p).gridId
  }

  function Generated(relation: RelationOracle, members: MembersOracle, steamIdOf: SteamIdOracle): Proximity -> seq<ProximityReport> {
    p => GetProximityReports(relation, members, steamIdOf, p)
  }

  lemma GeneratedKeys(relation: RelationOracle, members: MembersOracle, steamIdOf: SteamIdOracle)
    ensures forall p, r :: r in Generated(relation, members, steamIdOf)(p) ==> Key(r) == (Recipient(r), DefenderColumn(p))
  {
    forall p, r | r in Generated(relation, members, steamIdOf)(p)
      ensures Key(r) == (Recipient(r), DefenderColumn(p))
    {
      ReportMembers(relation, members, steamIdOf, p, r);
    }
  }

  /** The reports kept after `Clear` and `AddRange(proximities)`. */
  function Collapsed(relation: RelationOracle, members: MembersOracle, steamIdOf: SteamIdOracle, proximities: seq<Proximity>): Table<ProximityReport> {
    Collapse(Generated(relation, members, steamIdOf), Recipient, DefenderColumn, proximities)
  }

  class ProximityReportMaker {
    const relation: RelationOracle
    const members: MembersOracle
    const steamIdOf: SteamIdOracle
    var reports: Table<ProximityReport>

    /** Every report sits at its own (steam id, grid id). */
    ghost predicate Valid()
      reads this
    {
      Consistent(reports, Key)
    }

    constructor (relation: RelationOracle, members: MembersOracle, steamIdOf: SteamIdOracle)
      ensures this.relation == relation && this.members == members && this.steamIdOf == steamIdOf
      ensures reports == map[] && Valid()
    {
      this.relation := relation;
      this.members := members;
      this.steamIdOf := steamIdOf;
      reports := map[];
    }

    /** `GetReports`, enumerated to the end: every stored report once. */
    method GetReports() returns (all: seq<ProximityReport>)
      requires Valid()
      ensures ListsCells(reports, all, Key)
    {
      all := Enumerate(reports, Key);
    }

    method Clear()
      modifies this
      ensures reports == map[] && Valid()
    {
      reports := map[];
    }

    /** `Add`: each report of the proximity replaces whatever is stored at its (steam id,
        defender grid id). */
    method Add(proximity: Proximity)
      requires Valid()
      modifies this
      ensures Valid()
      ensures reports == FillFrom(old(reports), EntriesOf(Recipient, DefenderColumn(proximity),
                                  GetProximityReports(relation, members, steamIdOf, proximity)))
    {
      var generated := GetProximityReports(relation, members, steamIdOf, proximity);
      ghost var before := reports;
      ghost var entries := EntriesOf(Recipient, DefenderColumn(proximity), generated);
      assert |entries| == |generated|;
      for j := 0 to |generated|
        invariant Valid()
        invariant reports == FillFrom(before, entries[..j])
      {
        var report := generated[j];
        ReportMembers(relation, members, steamIdOf, proximity, report);
        PutConsistent(reports, Key, report.steamId, report.gridId, report);
        reports := Store(reports, report.steamId, report.gridId, report);
        TakeNext(entries, j);
        FillFromAppend(before, entries[..j], entries[j]);
      }
      assert entries[..|generated|] == entries;
    }

    /** `AddRange`: `Add` for each proximity in order. */
    method AddRange(proximities: seq<Proximity>)
      requires Valid()
      modifies this
      ensures Valid()
      ensures reports == FillFrom(old(reports), Entries(Generated(relation, members, steamIdOf), Recipient, DefenderColumn, proximities))
    {
      ghost var gen := Generated(relation, members, steamIdOf);
      ghost var start := reports;
      for i := 0 to |proximities|
        invariant Valid()
        invariant reports == FillFrom(start, Entries(gen, Recipient, DefenderColumn, proximities[..i]))
      {
        FillFromEntriesStep(gen, Recipient, DefenderColumn, start, proximities, i);
        Add(proximities[i]);
      }
      assert proximities[..|proximities|] == proximities;
    }
  }

  /** Every kept report is the report of some hostile proximity with a defending grid, for a
      member of that grid's faction. */
  lemma KeptReportOrigin(relation: RelationOracle, members: MembersOracle, steamIdOf: SteamIdOracle, proximities: seq<Proximity>, steamId: ULong, gridId: int)
    requires Has(Collapsed(relation, members, steamIdOf, proximities), steamId, gridId)
    ensures exists i :: 0 <= i < |proximities| && !Friendly(relation, proximities[i]) &&
              CanDefend(DefenderOf(proximities[i])) && DefenderOf(proximities[i]).gridId == gridId &&
              IsMemberSteamId(members, steamIdOf, DefenderOf(proximities[i]).factionId.value, steamId) &&
              Collapsed(relation, members, steamIdOf, proximities)[steamId][gridId] ==
                ReportFor(DefenderOf(proximities[i]), OffenderOf(proximities[i]), proximities[i].distance, steamId)
  {
    var gen := Generated(relation, members, steamIdOf);
    CollapseOrigin(gen, Recipient, DefenderColumn, proximities, steamId, gridId);
    var r := Collapsed(relation, members, steamIdOf, proximities)[steamId][gridId];
    var i :| 0 <= i < |proximities| && DefenderColumn(proximities[i]) == gridId && r in gen(proximities[i]) && Recipient(r) == steamId;
    ReportMembers(relation, members, steamIdOf, proximities[i], r);
  }

  /** Several offenders near one defender collapse to the last: the last hostile proximity that
      reports a steam id about a defender grid decides that report. */
  lemma LastProximityWins(relation: RelationOracle, members: MembersOracle, steamIdOf: SteamIdOracle, proximities: seq<Proximity>, i: int, steamId: ULong)
    requires 0 <= i < |proximities| && !Friendly(relation, proximities[i]) && CanDefend(DefenderOf(proximities[i]))
    requires IsMemberSteamId(members, steamIdOf, DefenderOf(proximities[i]).factionId.value, steamId)
    requires forall j :: (i < j < |proximities| && !Friendly(relation, proximities[j]) &&
                          CanDefend(DefenderOf(proximities[j])) &&
                          IsMemberSteamId(members, steamIdOf, DefenderOf(proximities[j]).factionId.value, steamId)) ==>
                         DefenderOf(proximities[j]).gridId != DefenderOf(proximities[i]).gridId
    ensures var t := Collapsed(relation, members, steamIdOf, proximities);
      var p := proximities[i];
      Has(t, steamId, DefenderOf(p).gridId) &&
      t[steamId][DefenderOf(p).gridId] == ReportFor(DefenderOf(p), OffenderOf(p), p.distance, steamId)
  {
    var gen := Generated(relation, members, steamIdOf);
    var p := proximities[i];
    var report := ReportFor(DefenderOf(p), OffenderOf(p), p.distance, steamId);
    ReportMembers(relation, members, steamIdOf, p, report);
    forall w | w in gen(p) && Recipient(w) == Recipient(report)
      ensures w == report
    {
      ReportMembers(relation, members, steamIdOf, p, w);
    }
    forall j, w | i < j < |proximities| && w in gen(proximities[j]) && Recipient(w) == Recipient(report)
      ensures DefenderColumn(proximities[j]) != DefenderColumn(p)
    {
      ReportMembers(relation, members, steamIdOf, proximities[j], w);
    }
    CollapseLastWins(gen, Recipient, DefenderColumn, proximities, i, report);
  }
}
