/** TorchAlert/TorchAlert.Core/ProximityAlertCreator.cs: one alert per recipient of each hostile
    proximity, collapsed so that a (steam id, offender grid id) pair keeps the alert of the last
    proximity naming it. */
module CoreAlertCreator {
  import opened Numerics
  import opened Seqs
  import opened Factions
  import opened CoreRecords
  import opened Collapsing

  /** Both grids belong to a faction and the game does not call the two factions enemies:
      a friendly pair, which yields nothing. */
  predicate Friendly(relation: RelationOracle, p: Proximity) {
    p.defender.factionId.Some? && p.offender.factionId.Some? &&
    relation(p.defender.factionId.value, p.offender.factionId.value) != Enemies
  }

  /** The alert `p` yields for recipient `steamId`. */
  function AlertFor(p: Proximity, steamId: ULong): ProximityAlert {
    ProximityAlert(steamId, p.defender.gridId, p.defender.gridName, p.distance, p.offender)
  }

  /** The `foreach` over the defender's steam ids. */
  function AlertsFor(p: Proximity, steamIds: seq<ULong>): (r: seq<ProximityAlert>)
    ensures |r| == |steamIds|
    ensures forall i :: 0 <= i < |r| ==> r[i] == AlertFor(p, steamIds[i])
    decreases |steamIds|
  {
    if steamIds == [] then []
    else AlertsFor(p, DropLast(steamIds)) + [AlertFor(p, Last(steamIds))]
  }

  /** `GetProximityAlerts`: nothing for a friendly pair, otherwise one alert per defender steam
      id, in order. */
  function GetProximityAlerts(relation: RelationOracle, p: Proximity): (r: seq<ProximityAlert>)
    ensures Friendly(relation, p) ==> r == []
    ensures !Friendly(relation, p) ==> |r| == |p.defender.steamIds|
    ensures forall i :: 0 <= i < |r| ==> r[i] == AlertFor(p, p.defender.steamIds[i])
  {
    if p.defender.factionId.Some? && p.offender.factionId.Some? then
      var relationship := relation(p.defender.factionId.value, p.offender.factionId.value);
      if relationship != Enemies then [] else AlertsFor(p, p.defender.steamIds)
    else AlertsFor(p, p.defender.steamIds)
  }

  /** An alert comes out of `p` exactly when the pair is hostile and the alert is `p`'s alert
      for one of the defender's steam ids. */
  lemma GeneratedMembers(relation: RelationOracle, p: Proximity, a: ProximityAlert)
    ensures a in GetProximityAlerts(relation, p) <==>
      !Friendly(relation, p) && a.steamId in p.defender.steamIds && a == AlertFor(p, a.steamId)
  {
    var r := GetProximityAlerts(relation, p);
    if !Friendly(relation, p) && a.steamId in p.defender.steamIds && a == AlertFor(p, a.steamId) {
      var i :| 0 <= i < |p.defender.steamIds| && p.defender.steamIds[i] == a.steamId;
      assert r[i] == a;
    }
  }

  /** The dictionary keys of the collapse: recipient row, offender grid column. */
  function Key(a: ProximityAlert): (ULong, int) {
    (a.steamId, a.offender.gridId)
  }

  function Recipient(a: ProximityAlert): ULong {
    a.steamId
  }

  function OffenderColumn(p: Proximity): int {
    p.offender.gridId
  }

  function Generated(relation: RelationOracle): Proximity -> seq<ProximityAlert> {
    p => GetProximityAlerts(relation, p)
  }

  /** The nested dictionary `CreateAlerts` fills from `proximities`. */
  function Collapsed(relation: RelationOracle, proximities: seq<Proximity>): Table<ProximityAlert> {
    Collapse(Generated(relation), Recipient, OffenderColumn, proximities)
  }

  lemma GeneratedKeys(relation: RelationOracle)
    ensures forall p, a :: a in Generated(relation)(p) ==> Key(a) == (Recipient(a), OffenderColumn(p))
  {
    forall p, a | a in Generated(relation)(p)
      ensures Key(a) == (Recipient(a), OffenderColumn(p))
    {
      GeneratedMembers(relation, p, a);
    }
  }

  /** The inner `foreach`: every alert generated for `proximity`, into the row of its recipient at
      the proximity's offender grid id, later ones replacing earlier ones. */
  method Collect(allAlerts: Table<ProximityAlert>, proximity: Proximity, generated: seq<ProximityAlert>) returns (t: Table<ProximityAlert>)
    ensures t == FillFrom(allAlerts, EntriesOf(Recipient, proximity.offender.gridId, generated))
  {
    t := allAlerts;
    for j := 0 to |generated|
      invariant t == FillFrom(allAlerts, EntriesOf(Recipient, proximity.offender.gridId, generated[..j]))
    {
      var alert := generated[j];
      t := Store(t, alert.steamId, proximity.offender.gridId, alert);
      assert generated[..j + 1] == generated[..j] + [alert];
      EntriesOfAppend(Recipient, proximity.offender.gridId, generated[..j], alert);
      FillFromAppend(allAlerts, EntriesOf(Recipient, proximity.offender.gridId, generated[..j]), (alert.steamId, proximity.offender.gridId, alert));
    }
    assert generated[..|generated|] == generated;
  }

  /** `CreateAlerts`, enumerated to the end: every cell of the collapsed dictionary once, so at
      most one alert per (steam id, offender grid id). */
  method CreateAlerts(relation: RelationOracle, proximities: seq<Proximity>) returns (created: seq<ProximityAlert>)
    ensures ListsCells(Collapsed(relation, proximities), created, Key)
  {
    var allAlerts: Table<ProximityAlert> := map[];
    ghost var gen := Generated(relation);
    for i := 0 to |proximities|
      invariant allAlerts == FillFrom(map[], Entries(gen, Recipient, OffenderColumn, proximities[..i]))
    {
      var proximity := proximities[i];
      var generated := GetProximityAlerts(relation, proximity);
      FillFromEntriesStep(gen, Recipient, OffenderColumn, map[], proximities, i);
      allAlerts := Collect(allAlerts, proximity, generated);
    }
    assert proximities[..|proximities|] == proximities;
    GeneratedKeys(relation);
    CollapseConsistent(gen, Recipient, OffenderColumn, Key, proximities);
    created := Enumerate(allAlerts, Key);
  }

  /** Every created alert is the alert of some hostile proximity whose offender is the alert's
      offender, for one of that proximity's defender steam ids. */
  lemma CreatedAlertOrigin(relation: RelationOracle, proximities: seq<Proximity>, steamId: ULong, gridId: int)
    requires Has(Collapsed(relation, proximities), steamId, gridId)
    ensures exists i :: 0 <= i < |proximities| && proximities[i].offender.gridId == gridId &&
               !Friendly(relation, proximities[i]) && steamId in proximities[i].defender.steamIds &&
               Collapsed(relation, proximities)[steamId][gridId] == AlertFor(proximities[i], steamId)
  {
    CollapseOrigin(Generated(relation), Recipient, OffenderColumn, proximities, steamId, gridId);
    var a := Collapsed(relation, proximities)[steamId][gridId];
    var i :| 0 <= i < |proximities| && OffenderColumn(proximities[i]) == gridId &&
      a in Generated(relation)(proximities[i]) && Recipient(a) == steamId;
    GeneratedMembers(relation, proximities[i], a);
  }

  /** Among the hostile proximities that name a (steam id, offender grid id) pair, the last one
      decides the alert. */
  lemma LastProximityWins(relation: RelationOracle, proximities: seq<Proximity>, i: int, steamId: ULong)
    requires 0 <= i < |proximities| && !Friendly(relation, proximities[i])
    requires steamId in proximities[i].defender.steamIds
    requires forall j :: (i < j < |proximities| && !Friendly(relation, proximities[j]) &&
                          steamId in proximities[j].defender.steamIds) ==>
                         proximities[j].offender.gridId != proximities[i].offender.gridId
    ensures var t := Collapsed(relation, proximities);
      Has(t, steamId, proximities[i].offender.gridId) &&
      t[steamId][proximities[i].offender.gridId] == AlertFor(proximities[i], steamId)
  {
    var gen := Generated(relation);
    var a := AlertFor(proximities[i], steamId);
    GeneratedMembers(relation, proximities[i], a);
    forall w | w in gen(proximities[i]) && Recipient(w) == Recipient(a)
      ensures w == a
    {
      GeneratedMembers(relation, proximities[i], w);
    }
    forall j, w | i < j < |proximities| && w in gen(proximities[j]) && Recipient(w) == Recipient(a)
      ensures OffenderColumn(proximities[j]) != OffenderColumn(proximities[i])
    {
      GeneratedMembers(relation, proximities[j], w);
    }
    CollapseLastWins(gen, Recipient, OffenderColumn, proximities, i, a);
  }
}

/** TorchAlert/TorchAlert.Core.Proximity/ProximityAlertCreator.cs: as in TorchAlert.Core, but a
    pair in the same faction is friendly without asking the game, and the nested dictionary is
    filled with `AddOrReplace`. */
module CoreProximityAlertCreator {
  import opened Numerics
  import opened Seqs
  import opened Factions
  import opened CoreProximityRecords
  import opened Collapsing

  /** Both grids belong to a faction, and either it is the same faction or the game does not
      call the two factions enemies. */
  predicate Friendly(relation: RelationOracle, p: OffenderProximityInfo) {
    p.defender.factionId.Some? && p.offender.factionId.Some? &&
    (p.defender.factionId.value == p.offender.factionId.value ||
     relation(p.defender.factionId.value, p.offender.factionId.value) != Enemies)
  }

  function AlertFor(p: OffenderProximityInfo, steamId: ULong): ProximityAlert {
    ProximityAlert(steamId, p.defender.gridId, p.defender.gridName, p.offender, p.distance)
  }

  function AlertsFor(p: OffenderProximityInfo, steamIds: seq<ULong>): (r: seq<ProximityAlert>)
    ensures |r| == |steamIds|
    ensures forall i :: 0 <= i < |r| ==> r[i] == AlertFor(p, steamIds[i])
    decreases |steamIds|
  {
    if steamIds == [] then []
    else AlertsFor(p, DropLast(steamIds)) + [AlertFor(p, Last(steamIds))]
  }

  /** `GetProximityAlerts`: the same-faction test comes before the relation is asked for. */
  function GetProximityAlerts(relation: RelationOracle, p: OffenderProximityInfo): (r: seq<ProximityAlert>)
    ensures Friendly(relation, p) ==> r == []
    ensures !Friendly(relation, p) ==> |r| == |p.defender.steamIds|
    ensures forall i :: 0 <= i < |r| ==> r[i] == AlertFor(p, p.defender.steamIds[i])
  {
    if p.defender.factionId.Some? && p.offender.factionId.Some? then
      if p.defender.factionId.value == p.offender.factionId.value then []
      else
        var relationship := relation(p.defender.factionId.value, p.offender.factionId.value);
        if relationship != Enemies then [] else AlertsFor(p, p.defender.steamIds)
    else AlertsFor(p, p.defender.steamIds)
  }

  /** Two grids of one faction yield nothing whatever the game would say about the relation. */
  lemma SameFactionIgnoresRelation(relation: RelationOracle, other: RelationOracle, p: OffenderProximityInfo)
    requires p.defender.factionId.Some? && p.defender.factionId == p.offender.factionId
    ensures GetProximityAlerts(relation, p) == GetProximityAlerts(other, p) == []
  {
  }

  lemma GeneratedMembers(relation: RelationOracle, p: OffenderProximityInfo, a: ProximityAlert)
    ensures a in GetProximityAlerts(relation, p) <==>
      !Friendly(relation, p) && a.steamId in p.defender.steamIds && a == AlertFor(p, a.steamId)
  {
    var r := GetProximityAlerts(relation, p);
    if !Friendly(relation, p) && a.steamId in p.defender.steamIds && a == AlertFor(p, a.steamId) {
      var i :| 0 <= i < |p.defender.steamIds| && p.defender.steamIds[i] == a.steamId;
      assert r[i] == a;
    }
  }

  function Key(a: ProximityAlert): (ULong, int) {
    (a.steamId, a.offender.gridId)
  }

  function Recipient(a: ProximityAlert): ULong {
    a.steamId
  }

  function OffenderColumn(p: OffenderProximityInfo): int {
    p.offender.gridId
  }

  function Generated(relation: RelationOracle): OffenderProximityInfo -> seq<ProximityAlert> {
    p => GetProximityAlerts(relation, p)
  }

  function Collapsed(relation: RelationOracle, proximities: seq<OffenderProximityInfo>): Table<ProximityAlert> {
    Collapse(Generated(relation), Recipient, OffenderColumn, proximities)
  }

  lemma GeneratedKeys(relation: RelationOracle)
    ensures forall p, a :: a in Generated(relation)(p) ==> Key(a) == (Recipient(a), OffenderColumn(p))
  {
    forall p, a | a in Generated(relation)(p)
      ensures Key(a) == (Recipient(a), OffenderColumn(p))
    {
      GeneratedMembers(relation, p, a);
    }
  }

  /** The inner `foreach`: every alert generated for `proximity`, into the row of its recipient at
      the proximity's offender grid id, later ones replacing earlier ones. */
  method Collect(allAlerts: Table<ProximityAlert>, proximity: OffenderProximityInfo, generated: seq<ProximityAlert>) returns (t: Table<ProximityAlert>)
    ensures t == FillFrom(allAlerts, EntriesOf(Recipient, proximity.offender.gridId, generated))
  {
    t := allAlerts;
    for j := 0 to |generated|
      invariant t == FillFrom(allAlerts, EntriesOf(Recipient, proximity.offender.gridId, generated[..j]))
    {
      var alert := generated[j];
      t := Put(t, alert.steamId, proximity.offender.gridId, alert);
      assert generated[..j + 1] == generated[..j] + [alert];
      EntriesOfAppend(Recipient, proximity.offender.gridId, generated[..j], alert);
      FillFromAppend(allAlerts, EntriesOf(Recipient, proximity.offender.gridId, generated[..j]), (alert.steamId, proximity.offender.gridId, alert));
    }
    assert generated[..|generated|] == generated;
  }

  /** `CreateAlerts`, enumerated to the end. `AddOrReplace` (a collection extension whose source
      is not part of this model) creates the inner dictionary when missing and sets the cell. */
  method CreateAlerts(relation: RelationOracle, proximities: seq<OffenderProximityInfo>) returns (created: seq<ProximityAlert>)
    ensures ListsCells(Collapsed(relation, proximities), created, Key)
  {
    var allAlerts: Table<ProximityAlert> := map[];
    ghost var gen := Generated(relation);
    for i := 0 to |proximities|
      invariant allAlerts == FillFrom(map[], Entries(gen, Recipient, OffenderColumn, proximities[..i]))
    {
      var proximity := proximities[i];
      var generated := GetProximityAlerts(relation, proximity);
      FillFromEntriesStep(gen, Recipient, OffenderColumn, map[], proximities, i);
      allAlerts := Collect(allAlerts, proximity, generated);
    }
    assert proximities[..|proximities|] == proximities;
    GeneratedKeys(relation);
    CollapseConsistent(gen, Recipient, OffenderColumn, Key, proximities);
    created := Enumerate(allAlerts, Key);
  }

  lemma CreatedAlertOrigin(relation: RelationOracle, proximities: seq<OffenderProximityInfo>, steamId: ULong, gridId: int)
    requires Has(Collapsed(relation, proximities), steamId, gridId)
    ensures exists i :: 0 <= i < |proximities| && proximities[i].offender.gridId == gridId &&
               !Friendly(relation, proximities[i]) && steamId in proximities[i].defender.steamIds &&
               Collapsed(relation, proximities)[steamId][gridId] == AlertFor(proximities[i], steamId)
  {
    CollapseOrigin(Generated(relation), Recipient, OffenderColumn, proximities, steamId, gridId);
    var a := Collapsed(relation, proximities)[steamId][gridId];
    var i :| 0 <= i < |proximities| && OffenderColumn(proximities[i]) == gridId &&
      a in Generated(relation)(proximities[i]) && Recipient(a) == steamId;
    GeneratedMembers(relation, proximities[i], a);
  }

  lemma LastProximityWins(relation: RelationOracle, proximities: seq<OffenderProximityInfo>, i: int, steamId: ULong)
    requires 0 <= i < |proximities| && !Friendly(relation, proximities[i])
    requires steamId in proximities[i].defender.steamIds
    requires forall j :: (i < j < |proximities| && !Friendly(relation, proximities[j]) &&
                          steamId in proximities[j].defender.steamIds) ==>
                         proximities[j].offender.gridId != proximities[i].offender.gridId
    ensures var t := Collapsed(relation, proximities);
      Has(t, steamId, proximities[i].offender.gridId) &&
      t[steamId][proximities[i].offender.gridId] == AlertFor(proximities[i], steamId)
  {
    var gen := Generated(relation);
    var a := AlertFor(proximities[i], steamId);
    GeneratedMembers(relation, proximities[i], a);
    forall w | w in gen(proximities[i]) && Recipient(w) == Recipient(a)
      ensures w == a
    {
      GeneratedMembers(relation, proximities[i], w);
    }
    forall j, w | i < j < |proximities| && w in gen(proximities[j]) && Recipient(w) == Recipient(a)
      ensures OffenderColumn(proximities[j]) != OffenderColumn(proximities[i])
    {
      GeneratedMembers(relation, proximities[j], w);
    }
    CollapseLastWins(gen, Recipient, OffenderColumn, proximities, i, a);
  }
}

/** TorchAlarm/TorchAlarm.Core/ProximityAlarmCreator.cs: the TorchAlert.Core policy for alarms.
    The alarm's grid id is the defender's grid id (the record declares five fields; the call
    that builds it passes four). */
module AlarmCreator {
  import opened Numerics
  import opened Seqs
  import opened Factions
  import opened AlarmRecords
  import opened Collapsing

  predicate Friendly(relation: RelationOracle, p: Proximity) {
    p.defender.factionId.Some? && p.offender.factionId.Some? &&
    relation(p.defender.factionId.value, p.offender.factionId.value) != Enemies
  }

  function AlarmFor(p: Proximity, steamId: ULong): ProximityAlarm {
    ProximityAlarm(steamId, p.defender.gridId, p.defender.gridName, p.distance, p.offender)
  }

  function AlarmsFor(p: Proximity, steamIds: seq<ULong>): (r: seq<ProximityAlarm>)
    ensures |r| == |steamIds|
    ensures forall i :: 0 <= i < |r| ==> r[i] == AlarmFor(p, steamIds[i])
    decreases |steamIds|
  {
    if steamIds == [] then []
    else AlarmsFor(p, DropLast(steamIds)) + [AlarmFor(p, Last(steamIds))]
  }

  /** `GetProximityAlarms`: nothing for a friendly pair, otherwise one alarm per defender steam
      id, in order. */
  function GetProximityAlarms(relation: RelationOracle, p: Proximity): (r: seq<ProximityAlarm>)
    ensures Friendly(relation, p) ==> r == []
    ensures !Friendly(relation, p) ==> |r| == |p.defender.steamIds|
    ensures forall i :: 0 <= i < |r| ==> r[i] == AlarmFor(p, p.defender.steamIds[i])
  {
    if p.defender.factionId.Some? && p.offender.factionId.Some? then
      var relationship := relation(p.defender.factionId.value, p.offender.factionId.value);
      if relationship != Enemies then [] else AlarmsFor(p, p.defender.steamIds)
    else AlarmsFor(p, p.defender.steamIds)
  }

  lemma GeneratedMembers(relation: RelationOracle, p: Proximity, a: ProximityAlarm)
    ensures a in GetProximityAlarms(relation, p) <==>
      !Friendly(relation, p) && a.steamId in p.defender.steamIds && a == AlarmFor(p, a.steamId)
  {
    var r := GetProximityAlarms(relation, p);
    if !Friendly(relation, p) && a.steamId in p.defender.steamIds && a == AlarmFor(p, a.steamId) {
      var i :| 0 <= i < |p.defender.steamIds| && p.defender.steamIds[i] == a.steamId;
      assert r[i] == a;
    }
  }

  function Key(a: ProximityAlarm): (ULong, int) {
    (a.steamId, a.offender.gridId)
  }

  function Recipient(a: ProximityAlarm): ULong {
    a.steamId
  }

  function OffenderColumn(p: Proximity): int {
    p.offender.gridId
  }

  function Generated(relation: RelationOracle): Proximity -> seq<ProximityAlarm> {
    p => GetProximityAlarms(relation, p)
  }

  function Collapsed(relation: RelationOracle, proximities: seq<Proximity>): Table<ProximityAlarm> {
    Collapse(Generated(relation), Recipient, OffenderColumn, proximities)
  }

  lemma GeneratedKeys(relation: RelationOracle)
    ensures forall p, a :: a in Generated(relation)(p) ==> Key(a) == (Recipient(a), OffenderColumn(p))
  {
    forall p, a | a in Generated(relation)(p)
      ensures Key(a) == (Recipient(a), OffenderColumn(p))
    {
      GeneratedMembers(relation, p, a);
    }
  }

  /** The inner `foreach`: every alarm generated for `proximity`, into the row of its recipient at
      the proximity's offender grid id, later ones replacing earlier ones. */
  method Collect(allAlarms: Table<ProximityAlarm>, proximity: Proximity, generated: seq<ProximityAlarm>) returns (t: Table<ProximityAlarm>)
    ensures t == FillFrom(allAlarms, EntriesOf(Recipient, proximity.offender.gridId, generated))
  {
    t := allAlarms;
    for j := 0 to |generated|
      invariant t == FillFrom(allAlarms, EntriesOf(Recipient, proximity.offender.gridId, generated[..j]))
    {
      var alarm := generated[j];
      t := Store(t, alarm.steamId, proximity.offender.gridId, alarm);
      assert generated[..j + 1] == generated[..j] + [alarm];
      EntriesOfAppend(Recipient, proximity.offender.gridId, generated[..j], alarm);
      FillFromAppend(allAlarms, EntriesOf(Recipient, proximity.offender.gridId, generated[..j]), (alarm.steamId, proximity.offender.gridId, alarm));
    }
    assert generated[..|generated|] == generated;
  }

  /** `CreateAlarms`, enumerated to the end. */
  method CreateAlarms(relation: RelationOracle, proximities: seq<Proximity>) returns (created: seq<ProximityAlarm>)
    ensures ListsCells(Collapsed(relation, proximities), created, Key)
  {
    var allAlarms: Table<ProximityAlarm> := map[];
    ghost var gen := Generated(relation);
    for i := 0 to |proximities|
      invariant allAlarms == FillFrom(map[], Entries(gen, Recipient, OffenderColumn, proximities[..i]))
    {
      var proximity := proximities[i];
      var generated := GetProximityAlarms(relation, proximity);
      FillFromEntriesStep(gen, Recipient, OffenderColumn, map[], proximities, i);
      allAlarms := Collect(allAlarms, proximity, generated);
    }
    assert proximities[..|proximities|] == proximities;
    GeneratedKeys(relation);
    CollapseConsistent(gen, Recipient, OffenderColumn, Key, proximities);
    created := Enumerate(allAlarms, Key);
  }

  lemma CreatedAlarmOrigin(relation: RelationOracle, proximities: seq<Proximity>, steamId: ULong, gridId: int)
    requires Has(Collapsed(relation, proximities), steamId, gridId)
    ensures exists i :: 0 <= i < |proximities| && proximities[i].offender.gridId == gridId &&
               !Friendly(relation, proximities[i]) && steamId in proximities[i].defender.steamIds &&
               Collapsed(relation, proximities)[steamId][gridId] == AlarmFor(proximities[i], steamId)
  {
    CollapseOrigin(Generated(relation), Recipient, OffenderColumn, proximities, steamId, gridId);
    var a := Collapsed(relation, proximities)[steamId][gridId];
    var i :| 0 <= i < |proximities| && OffenderColumn(proximities[i]) == gridId &&
      a in Generated(relation)(proximities[i]) && Recipient(a) == steamId;
    GeneratedMembers(relation, proximities[i], a);
  }

  lemma LastProximityWins(relation: RelationOracle, proximities: seq<Proximity>, i: int, steamId: ULong)
    requires 0 <= i < |proximities| && !Friendly(relation, proximities[i])
    requires steamId in proximities[i].defender.steamIds
    requires forall j :: (i < j < |proximities| && !Friendly(relation, proximities[j]) &&
                          steamId in proximities[j].defender.steamIds) ==>
                         proximities[j].offender.gridId != proximities[i].offender.gridId
    ensures var t := Collapsed(relation, proximities);
      Has(t, steamId, proximities[i].offender.gridId) &&
      t[steamId][proximities[i].offender.gridId] == AlarmFor(proximities[i], steamId)
  {
    var gen := Generated(relation);
    var a := AlarmFor(proximities[i], steamId);
    GeneratedMembers(relation, proximities[i], a);
    forall w | w in gen(proximities[i]) && Recipient(w) == Recipient(a)
      ensures w == a
    {
      GeneratedMembers(relation, proximities[i], w);
    }
    forall j, w | i < j < |proximities| && w in gen(proximities[j]) && Recipient(w) == Recipient(a)
      ensures OffenderColumn(proximities[j]) != OffenderColumn(proximities[i])
    {
      GeneratedMembers(relation, proximities[j], w);
    }
    CollapseLastWins(gen, Recipient, OffenderColumn, proximities, i, a);
  }
}
