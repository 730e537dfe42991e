/** TorchAlarm/TorchAlarm.Discord/DiscordAlarmClient.cs, `SendAlarmsAsync`,
    `GetDiscordMemberAsync`, `Dispose` and `MakeAlarmMessage`: alarms regrouped by the
    Discord account the identity linker links their player to, one line per alarm, guild
    members fetched once and cached, and no error handling around the sends, so the first
    failed message ends the whole call. The guild's members and `{Distance:0}` formatting
    are oracles. */
module DiscordAlarmClient {
  import opened Numerics
  import opened Wrappers
  import opened Seqs
  import opened Text
  import opened AlarmRecords
  import opened Templates
  import opened Grouping
  import opened Sending
  import opened AlarmIdentityLinker

  const ALARM_NAME: string := "{alarm_name}"
  const DISTANCE: string := "{distance}"
  const GRID_NAME: string := "{grid_name}"
  const OWNER_NAME: string := "{owner_name}"
  const FACTION_NAME: string := "{faction_name}"
  const FACTION_TAG: string := "{faction_tag}"
  const NONE: string := "<none>"

  /** The `DiscordMember` the guild returns for a Discord id. */
  datatype DiscordMember = DiscordMember(id: ULong, displayName: string)

  /** The line for one alarm: the six placeholders replaced one after the other, absent
      names shown as `<none>`. */
  function Line(format: string, showDistance: real -> string, alarm: ProximityAlarm): string {
    var withAlarmName := Replace(format, ALARM_NAME, alarm.gridName);
    var withDistance := Replace(withAlarmName, DISTANCE, showDistance(alarm.distance));
    var withGridName := Replace(withDistance, GRID_NAME, alarm.offender.gridName);
    var withOwner := Replace(withGridName, OWNER_NAME, alarm.offender.ownerName.GetOr(NONE));
    var withFactionName := Replace(withOwner, FACTION_NAME, alarm.offender.factionName.GetOr(NONE));
    Replace(withFactionName, FACTION_TAG, alarm.offender.factionTag.GetOr(NONE))
  }

  function Lines(format: string, showDistance: real -> string, alarms: seq<ProximityAlarm>): (r: seq<string>)
    ensures |r| == |alarms|
    ensures forall i :: 0 <= i < |r| ==> r[i] == Line(format, showDistance, alarms[i])
  {
    seq(|alarms|, i requires 0 <= i < |alarms| => Line(format, showDistance, alarms[i]))
  }

  /** One more alarm adds its line. */
  lemma LinesNext(format: string, showDistance: real -> string, alarms: seq<ProximityAlarm>, i: nat)
    requires i < |alarms|
    ensures Lines(format, showDistance, alarms[..i + 1]) ==
      Lines(format, showDistance, alarms[..i]) + [Line(format, showDistance, alarms[i])]
  {
  }

  /** The message one Discord user gets: one line per alarm, duplicates kept, in input
      order. */
  function Message(format: string, showDistance: real -> string, alarms: seq<ProximityAlarm>): string {
    AppendLines(Lines(format, showDistance, alarms))
  }

  /** The `(discordId, alarm)` entries the grouping loop adds, `links` being the linker's
      steam-to-discord links: alarms whose player has no link are skipped. */
  function LinkedEntries(alarms: seq<ProximityAlarm>, links: map<ULong, ULong>): seq<(ULong, ProximityAlarm)>
    decreases |alarms|
  {
    if alarms == [] then []
    else
      var init := LinkedEntries(DropLast(alarms), links);
      var alarm := Last(alarms);
      if alarm.steamId in links then init + [(links[alarm.steamId], alarm)] else init
  }

  /** The entries pair exactly the alarms of linked players with the Discord id they are
      linked to. */
  lemma {:induction false} LinkedEntriesLinked(alarms: seq<ProximityAlarm>, links: map<ULong, ULong>)
    ensures var r := LinkedEntries(alarms, links);
      (forall e :: e in r ==> e.1 in alarms && e.1.steamId in links && e.0 == links[e.1.steamId]) &&
      (forall a :: a in alarms && a.steamId in links ==> (links[a.steamId], a) in r)
    decreases |alarms|
  {
    if alarms != [] {
      LinkedEntriesLinked(DropLast(alarms), links);
      assert alarms == DropLast(alarms) + [Last(alarms)];
    }
  }

  /** One attempt per linked Discord user, as if none failed. */
  function AllSends(format: string, showDistance: real -> string, alarms: seq<ProximityAlarm>,
                    links: map<ULong, ULong>, fails: ULong -> bool): seq<Send>
  {
    var g := GroupAll(LinkedEntries(alarms, links));
    GroupAllKeys(LinkedEntries(alarms, links));
    assert forall k :: k in g.order ==> k in g.lists;
    Attempts(g.order, g.lists, (group: seq<ProximityAlarm>) => Message(format, showDistance, group), fails)
  }

  /** The messages `SendAlarmsAsync` attempts: the first failure propagates and ends the
      call. */
  function Sends(format: string, showDistance: real -> string, alarms: seq<ProximityAlarm>,
                 links: map<ULong, ULong>, fails: ULong -> bool): seq<Send>
  {
    UntilFailure(AllSends(format, showDistance, alarms, links, fails))
  }

  /** Each linked Discord user is attempted once, in the order the grouping first met
      them. */
  lemma OneSendPerUser(format: string, showDistance: real -> string, alarms: seq<ProximityAlarm>,
                       links: map<ULong, ULong>, fails: ULong -> bool)
    ensures var all := AllSends(format, showDistance, alarms, links, fails);
      var g := GroupAll(LinkedEntries(alarms, links));
      |all| == |g.order| && (forall j :: 0 <= j < |all| ==> all[j].recipient == g.order[j]) &&
      forall a, b :: 0 <= a < b < |all| ==> all[a].recipient != all[b].recipient
  {
    var g := GroupAll(LinkedEntries(alarms, links));
    GroupAllKeys(LinkedEntries(alarms, links));
    assert NoDuplicates(g.order);
  }

  /** The `i`th attempt is the message built from the `i`th user's list. */
  lemma SendAt(format: string, showDistance: real -> string, alarms: seq<ProximityAlarm>,
               links: map<ULong, ULong>, fails: ULong -> bool, i: nat)
    requires i < |AllSends(format, showDistance, alarms, links, fails)|
    ensures var g := GroupAll(LinkedEntries(alarms, links));
      i < |g.order| && g.order[i] in g.lists &&
      AllSends(format, showDistance, alarms, links, fails)[i] ==
        Send(g.order[i], Message(format, showDistance, g.lists[g.order[i]]), !fails(g.order[i]))
  {
    var g := GroupAll(LinkedEntries(alarms, links));
    GroupAllKeys(LinkedEntries(alarms, links));
    AttemptsAt(g.order, g.lists, (group: seq<ProximityAlarm>) => Message(format, showDistance, group), fails, i);
  }

  /** A failed message stops the sends: the users after it get nothing, and only when every
      message goes through does every linked user get one. */
  lemma FirstFailureStops(format: string, showDistance: real -> string, alarms: seq<ProximityAlarm>,
                          links: map<ULong, ULong>, fails: ULong -> bool, i: nat)
    requires var all := AllSends(format, showDistance, alarms, links, fails);
      i < |all| && !all[i].delivered
    ensures |Sends(format, showDistance, alarms, links, fails)| <= i + 1
    ensures var all := AllSends(format, showDistance, alarms, links, fails);
      forall j, s :: i < j < |all| && s in Sends(format, showDistance, alarms, links, fails) ==>
        s.recipient != all[j].recipient
  {
    OneSendPerUser(format, showDistance, alarms, links, fails);
    FailureStops(AllSends(format, showDistance, alarms, links, fails), i);
  }

  /** The users the alarms are regrouped under are the ones the alarmed players are linked
      to, and each user's list holds exactly the alarms of the players linked to that user. */
  lemma GroupsFollowLinks(alarms: seq<ProximityAlarm>, links: map<ULong, ULong>)
    ensures var g := GroupAll(LinkedEntries(alarms, links));
      (forall k :: k in g.lists ==> forall a :: a in g.lists[k] ==>
        a in alarms && a.steamId in links && links[a.steamId] == k) &&
      (forall a :: a in alarms && a.steamId in links ==>
        links[a.steamId] in g.lists && a in g.lists[links[a.steamId]])
  {
    var entries := LinkedEntries(alarms, links);
    var g := GroupAll(entries);
    LinkedEntriesLinked(alarms, links);
    GroupAllKeys(entries);
    GroupAllLists(entries);
    forall a | a in alarms && a.steamId in links
      ensures links[a.steamId] in g.lists && a in g.lists[links[a.steamId]]
    {
      var e := (links[a.steamId], a);
      assert e in entries;
      var j :| 0 <= j < |entries| && entries[j] == e;
      assert Keys(entries)[j] == e.0;
    }
  }

  /** A format without `{` is the line for every alarm. */
  lemma LineWithoutPlaceholders(format: string, showDistance: real -> string, alarm: ProximityAlarm)
    requires '{' !in format
    ensures Line(format, showDistance, alarm) == format
  {
    ReplaceWithoutFirstChar(format, ALARM_NAME, alarm.gridName);
    ReplaceWithoutFirstChar(format, DISTANCE, showDistance(alarm.distance));
    ReplaceWithoutFirstChar(format, GRID_NAME, alarm.offender.gridName);
    ReplaceWithoutFirstChar(format, OWNER_NAME, alarm.offender.ownerName.GetOr(NONE));
    ReplaceWithoutFirstChar(format, FACTION_NAME, alarm.offender.factionName.GetOr(NONE));
    ReplaceWithoutFirstChar(format, FACTION_TAG, alarm.offender.factionTag.GetOr(NONE));
  }

  /** `{faction_tag}` alone becomes the offender's faction tag, and `<none>` when there is
      none. */
  lemma FactionTagPlaceholder(showDistance: real -> string, alarm: ProximityAlarm)
    ensures Line(FACTION_TAG, showDistance, alarm) == alarm.offender.factionTag.GetOr(NONE)
    ensures alarm.offender.factionTag == None ==> Line(FACTION_TAG, showDistance, alarm) == NONE
  {
    var q := FACTION_TAG;
    assert q[1..] == "faction_tag}";
    assert q[..|ALARM_NAME|][1] != ALARM_NAME[1];
    OtherPlaceholderKept(q, ALARM_NAME, alarm.gridName);
    assert q[..|DISTANCE|][1] != DISTANCE[1];
    OtherPlaceholderKept(q, DISTANCE, showDistance(alarm.distance));
    assert q[..|GRID_NAME|][1] != GRID_NAME[1];
    OtherPlaceholderKept(q, GRID_NAME, alarm.offender.gridName);
    assert q[..|OWNER_NAME|][1] != OWNER_NAME[1];
    OtherPlaceholderKept(q, OWNER_NAME, alarm.offender.ownerName.GetOr(NONE));
    assert |q| < |FACTION_NAME|;
    OtherPlaceholderKept(q, FACTION_NAME, alarm.offender.factionName.GetOr(NONE));
    ReplaceFillsHole([], [], q, alarm.offender.factionTag.GetOr(NONE));
    assert [] + q + [] == q;
    assert [] + alarm.offender.factionTag.GetOr(NONE) + [] == alarm.offender.factionTag.GetOr(NONE);
  }

  /** `DiscordAlarmClient.IConfig`: the configured `AlarmFormat`, a settable property of the
      plugin's configuration that the client reads on every call. */
  class Config {
    var alarmFormat: string

    constructor (alarmFormat: string)
      ensures this.alarmFormat == alarmFormat
    {
      this.alarmFormat := alarmFormat;
    }
  }

  class DiscordAlarmClient {
    const config: Config
    const showDistance: real -> string
    const identityLinker: DiscordIdentityLinker
    /** `_guild.GetMemberAsync`. */
    const guild: ULong -> DiscordMember
    /** `_discordMembers`. */
    var members: map<ULong, DiscordMember>
    /** How many times the guild has been asked for a member since the cache was last
        cleared. */
    ghost var fetches: nat

    /** The cache holds members as the guild gave them, one guild request for each: no id
        was fetched twice. */
    ghost predicate Valid()
      reads this
    {
      fetches == |members| &&
      forall k :: k in members ==> members[k] == guild(k)
    }

    constructor (config: Config, showDistance: real -> string, identityLinker: DiscordIdentityLinker,
                 guild: ULong -> DiscordMember)
      ensures this.config == config && this.showDistance == showDistance
      ensures this.identityLinker == identityLinker && this.guild == guild
      ensures members == map[] && fetches == 0
      ensures Valid()
    {
      this.config := config;
      this.showDistance := showDistance;
      this.identityLinker := identityLinker;
      this.guild := guild;
      members := map[];
      fetches := 0;
    }

    /** `Dispose`: the member cache is cleared. */
    method Dispose()
      modifies this`members, this`fetches
      ensures members == map[] && fetches == 0
      ensures Valid()
    {
      members := map[];
      fetches := 0;
    }

    /** `GetDiscordMemberAsync`: a cached member is returned as it is, without asking the
        guild; otherwise the guild is asked once and its answer cached. */
    method GetDiscordMember(discordId: ULong) returns (member: DiscordMember)
      requires Valid()
      modifies this`members, this`fetches
      ensures Valid()
      ensures member == guild(discordId)
      ensures members == old(members)[discordId := member]
      ensures fetches == old(fetches) + if discordId in old(members) then 0 else 1
    {
      if discordId in members {
        member := members[discordId];
      } else {
        member := guild(discordId);
        members := members[discordId := member];
        fetches := fetches + 1;
      }
    }

    /** `SendAlarmsAsync`: nothing for no alarms; otherwise the linked users' messages are
        sent in turn until one fails (`fails`), which ends the call. Every user attempted is
        fetched into the cache, each at most once. */
    method SendAlarms(allAlarms: seq<ProximityAlarm>, fails: ULong -> bool) returns (sends: seq<Send>)
      requires Valid()
      modifies this`members, this`fetches
      ensures Valid()
      ensures allAlarms == [] ==> sends == []
      ensures sends == Sends(config.alarmFormat, showDistance, allAlarms, identityLinker.db.bySteam, fails)
      ensures old(members).Keys <= members.Keys
      ensures forall s :: s in sends ==> s.recipient in members
    {
      ghost var links := identityLinker.db.bySteam;
      ghost var format := config.alarmFormat;
      if allAlarms == [] {
        assert LinkedEntries(allAlarms, links) == [];
        return [];
      }
      var linkedAlarms := GroupByDiscordId(allAlarms);
      ghost var all := AllSends(format, showDistance, allAlarms, links, fails);
      assert |all| == |linkedAlarms.order|;
      forall i | 0 <= i < |all|
        ensures linkedAlarms.order[i] in linkedAlarms.lists
        ensures all[i] == Send(linkedAlarms.order[i],
          Message(format, showDistance, linkedAlarms.lists[linkedAlarms.order[i]]), !fails(linkedAlarms.order[i]))
      {
        SendAt(format, showDistance, allAlarms, links, fails, i);
      }
      sends := SendInTurn(linkedAlarms, all, fails);
    }

    /** The sending loop of `SendAlarmsAsync`: each user in turn is fetched through the
        cache and sent the message made with the format configured right now; the first
        failure ends the call. */
    method SendInTurn(linkedAlarms: Groups<ULong, ProximityAlarm>, ghost all: seq<Send>, fails: ULong -> bool)
      returns (sends: seq<Send>)
      requires Valid()
      requires |all| == |linkedAlarms.order|
      requires forall i :: 0 <= i < |all| ==> linkedAlarms.order[i] in linkedAlarms.lists
      requires forall i :: 0 <= i < |all| ==> all[i] == Send(linkedAlarms.order[i],
        Message(config.alarmFormat, showDistance, linkedAlarms.lists[linkedAlarms.order[i]]),
        !fails(linkedAlarms.order[i]))
      modifies this`members, this`fetches
      ensures Valid()
      ensures sends == UntilFailure(all)
      ensures old(members).Keys <= members.Keys
      ensures forall s :: s in sends ==> s.recipient in members
    {
      sends := [];
      var i := 0;
      while i < |linkedAlarms.order|
        invariant 0 <= i <= |linkedAlarms.order|
        invariant Valid()
        invariant sends + UntilFailure(all[i..]) == UntilFailure(all)
        invariant old(members).Keys <= members.Keys
        invariant forall s :: s in sends ==> s.recipient in members
      {
        var discordId := linkedAlarms.order[i];
        UntilFailureFrom(sends, all, i);
        var member := GetDiscordMember(discordId);
        var message := MakeAlarmMessage(linkedAlarms.lists[discordId]);
        sends := sends + [Send(discordId, message, !fails(discordId))];
        if fails(discordId) {
          return;
        }
        i := i + 1;
      }
      assert all[i..] == [];
    }

    /** The loop that asks the identity linker for each alarm's Discord id and fills the
        dictionary of per-user lists. */
    method GroupByDiscordId(allAlarms: seq<ProximityAlarm>) returns (linkedAlarms: Groups<ULong, ProximityAlarm>)
      ensures linkedAlarms == GroupAll(LinkedEntries(allAlarms, identityLinker.db.bySteam))
    {
      ghost var links := identityLinker.db.bySteam;
      linkedAlarms := Groups([], map[]);
      var i := 0;
      while i < |allAlarms|
        invariant 0 <= i <= |allAlarms|
        invariant linkedAlarms == GroupAll(LinkedEntries(allAlarms[..i], links))
      {
        var alarm := allAlarms[i];
        assert DropLast(allAlarms[..i + 1]) == allAlarms[..i];
        var (linked, discordId) := identityLinker.TryGetLinkedDiscordId(alarm.steamId);
        if linked {
          linkedAlarms := AddTo(linkedAlarms, discordId, alarm);
        }
        i := i + 1;
      }
      assert allAlarms[..i] == allAlarms;
    }

    /** `MakeAlarmMessage`: one `AppendLine` per alarm. */
    method MakeAlarmMessage(alarms: seq<ProximityAlarm>) returns (message: string)
      ensures message == Message(config.alarmFormat, showDistance, alarms)
    {
      message := [];
      var i := 0;
      while i < |alarms|
        invariant 0 <= i <= |alarms|
        invariant message == AppendLines(Lines(config.alarmFormat, showDistance, alarms[..i]))
      {
        var line := Line(config.alarmFormat, showDistance, alarms[i]);
        LinesNext(config.alarmFormat, showDistance, alarms, i);
        AppendLinesSnoc(Lines(config.alarmFormat, showDistance, alarms[..i]), line);
        message := message + (line + NEWLINE);
        i := i + 1;
      }
      assert alarms[..i] == alarms;
    }
  }
}
