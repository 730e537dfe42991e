/** TorchAlert/TorchAlert.Discord/DiscordAlertClient.cs, `SendAlertAsync` and
    `MakeAlertMessage`: alerts regrouped by the Discord account their player linked, unlinked
    players dropped, one line per alert, and a failed message that does not keep the others
    from being sent. The identity linker's steam-to-discord links are the map `links` (its
    link db is not part of this model); `{Distance:0}` formatting is the oracle
    `showDistance`. */
module DiscordAlertClient {
  import opened Numerics
  import opened Wrappers
  import opened Seqs
  import opened Text
  import opened CoreRecords
  import opened Templates
  import opened Grouping
  import opened Sending

  const ALERT_NAME: string := "{alert_name}"
  const DISTANCE: string := "{distance}"
  const GRID_NAME: string := "{grid_name}"
  const OWNER_NAME: string := "{owner_name}"
  const FACTION_NAME: string := "{faction_name}"
  const FACTION_TAG: string := "{faction_tag}"
  const NONE: string := "<none>"

  /** The line for one alert: the six placeholders replaced one after the other, absent
      names shown as `<none>`. */
  function Line(format: string, showDistance: real -> string, alert: ProximityAlert): string {
    var withAlertName := Replace(format, ALERT_NAME, alert.gridName);
    var withDistance := Replace(withAlertName, DISTANCE, showDistance(alert.distance));
    var withGridName := Replace(withDistance, GRID_NAME, alert.offender.gridName);
    var withOwner := Replace(withGridName, OWNER_NAME, alert.offender.ownerName.GetOr(NONE));
    var withFactionName := Replace(withOwner, FACTION_NAME, alert.offender.factionName.GetOr(NONE));
    Replace(withFactionName, FACTION_TAG, alert.offender.factionTag.GetOr(NONE))
  }

  function Lines(format: string, showDistance: real -> string, alerts: seq<ProximityAlert>): (r: seq<string>)
    ensures |r| == |alerts|
    ensures forall i :: 0 <= i < |r| ==> r[i] == Line(format, showDistance, alerts[i])
  {
    seq(|alerts|, i requires 0 <= i < |alerts| => Line(format, showDistance, alerts[i]))
  }

  /** One more alert adds its line. */
  lemma LinesNext(format: string, showDistance: real -> string, alerts: seq<ProximityAlert>, i: nat)
    requires i < |alerts|
    ensures Lines(format, showDistance, alerts[..i + 1]) ==
      Lines(format, showDistance, alerts[..i]) + [Line(format, showDistance, alerts[i])]
  {
  }

  /** The message one Discord user gets: one line per alert, duplicates kept, in input
      order. */
  function Message(format: string, showDistance: real -> string, alerts: seq<ProximityAlert>): string {
    AppendLines(Lines(format, showDistance, alerts))
  }

  /** The `(discordId, alert)` entries the grouping loop adds: alerts whose player has no
      link are skipped. */
  function LinkedEntries(alerts: seq<ProximityAlert>, links: map<ULong, ULong>): (r: seq<(ULong, ProximityAlert)>)
    ensures forall e :: e in r ==> e.1 in alerts && e.1.steamId in links && e.0 == links[e.1.steamId]
    ensures forall a :: a in alerts && a.steamId in links ==> (links[a.steamId], a) in r
    decreases |alerts|
  {
    if alerts == [] then []
    else
      var init := LinkedEntries(DropLast(alerts), links);
      var alert := Last(alerts);
      assert alerts == DropLast(alerts) + [alert];
      if alert.steamId in links then init + [(links[alert.steamId], alert)] else init
  }

  /** The direct messages `SendAlertAsync` attempts: one per linked Discord user, all of
      them. */
  function AllSends(format: string, showDistance: real -> string, alerts: seq<ProximityAlert>,
                    links: map<ULong, ULong>, fails: ULong -> bool): seq<Send>
  {
    var g := GroupAll(LinkedEntries(alerts, links));
    GroupAllKeys(LinkedEntries(alerts, links));
    assert forall k :: k in g.order ==> k in g.lists;
    Attempts(g.order, g.lists, (group: seq<ProximityAlert>) => Message(format, showDistance, group), fails)
  }

  /** The `i`th attempt is the message built from the `i`th user's list. */
  lemma SendAt(format: string, showDistance: real -> string, alerts: seq<ProximityAlert>,
               links: map<ULong, ULong>, fails: ULong -> bool, i: nat)
    requires i < |AllSends(format, showDistance, alerts, links, fails)|
    ensures var g := GroupAll(LinkedEntries(alerts, links));
      i < |g.order| && g.order[i] in g.lists &&
      AllSends(format, showDistance, alerts, links, fails)[i] ==
        Send(g.order[i], Message(format, showDistance, g.lists[g.order[i]]), !fails(g.order[i]))
  {
    var g := GroupAll(LinkedEntries(alerts, links));
    GroupAllKeys(LinkedEntries(alerts, links));
    AttemptsAt(g.order, g.lists, (group: seq<ProximityAlert>) => Message(format, showDistance, group), fails, i);
  }

  /** Each message goes to a Discord user some alerted player linked, and is built only from
      alerts of players linked to that user; every alert of a linked player is in the message
      to the user it is linked to; and whether a message went through depends on its
      recipient alone. */
  lemma MessagesFollowLinks(format: string, showDistance: real -> string, alerts: seq<ProximityAlert>,
                            links: map<ULong, ULong>, fails: ULong -> bool)
    ensures var g := GroupAll(LinkedEntries(alerts, links));
      var sends := AllSends(format, showDistance, alerts, links, fails);
      |sends| == |g.order| && NoDuplicates(g.order) &&
      (forall i :: 0 <= i < |sends| ==>
        sends[i].recipient == g.order[i] && g.order[i] in g.lists &&
        sends[i].message == Message(format, showDistance, g.lists[g.order[i]]) &&
        sends[i].delivered == !fails(g.order[i]) &&
        (forall a :: a in g.lists[g.order[i]] ==>
          a in alerts && a.steamId in links && links[a.steamId] == g.order[i])) &&
      (forall a :: a in alerts && a.steamId in links ==>
        links[a.steamId] in g.lists && a in g.lists[links[a.steamId]])
  {
    var entries := LinkedEntries(alerts, links);
    var g := GroupAll(entries);
    GroupAllKeys(entries);
    GroupAllLists(entries);
    forall i | 0 <= i < |g.order| {
      SendAt(format, showDistance, alerts, links, fails, i);
    }
    forall a | a in alerts && a.steamId in links
      ensures links[a.steamId] in g.lists && a in g.lists[links[a.steamId]]
    {
      var e := (links[a.steamId], a);
      assert e in entries;
      var j :| 0 <= j < |entries| && entries[j] == e;
      assert Keys(entries)[j] == e.0;
    }
  }

  /** An alert whose player has no link reaches no one. */
  lemma UnlinkedDropped(format: string, showDistance: real -> string, alerts: seq<ProximityAlert>,
                        links: map<ULong, ULong>, a: ProximityAlert)
    requires a.steamId !in links
    ensures var g := GroupAll(LinkedEntries(alerts, links));
      forall k :: k in g.lists ==> a !in g.lists[k]
  {
    GroupAllLists(LinkedEntries(alerts, links));
  }

  /** With no alerts there is nothing to send. */
  lemma NoAlertsNoSends(format: string, showDistance: real -> string, links: map<ULong, ULong>,
                        fails: ULong -> bool)
    ensures AllSends(format, showDistance, [], links, fails) == []
  {
  }

  /** A format without `{` is the line for every alert. */
  lemma LineWithoutPlaceholders(format: string, showDistance: real -> string, alert: ProximityAlert)
    requires '{' !in format
    ensures Line(format, showDistance, alert) == format
  {
    ReplaceWithoutFirstChar(format, ALERT_NAME, alert.gridName);
    ReplaceWithoutFirstChar(format, DISTANCE, showDistance(alert.distance));
    ReplaceWithoutFirstChar(format, GRID_NAME, alert.offender.gridName);
    ReplaceWithoutFirstChar(format, OWNER_NAME, alert.offender.ownerName.GetOr(NONE));
    ReplaceWithoutFirstChar(format, FACTION_NAME, alert.offender.factionName.GetOr(NONE));
    ReplaceWithoutFirstChar(format, FACTION_TAG, alert.offender.factionTag.GetOr(NONE));
  }

  /** The replacements run in a fixed order, so a placeholder inside an earlier value is
      replaced too: an alert named `{distance}` shows the distance. */
  lemma EarlierValueRewritten(format: string, showDistance: real -> string, alert: ProximityAlert)
    requires format == ALERT_NAME && alert.gridName == DISTANCE
    requires '{' !in showDistance(alert.distance)
    ensures Line(format, showDistance, alert) == showDistance(alert.distance)
  {
    var d := showDistance(alert.distance);
    ReplaceFillsHole([], [], ALERT_NAME, DISTANCE);
    assert [] + ALERT_NAME + [] == ALERT_NAME;
    assert [] + DISTANCE + [] == DISTANCE;
    ReplaceFillsHole([], [], DISTANCE, d);
    assert [] + d + [] == d;
    ReplaceWithoutFirstChar(d, GRID_NAME, alert.offender.gridName);
    ReplaceWithoutFirstChar(d, OWNER_NAME, alert.offender.ownerName.GetOr(NONE));
    ReplaceWithoutFirstChar(d, FACTION_NAME, alert.offender.factionName.GetOr(NONE));
    ReplaceWithoutFirstChar(d, FACTION_TAG, alert.offender.factionTag.GetOr(NONE));
  }

  /** Split at `'\n'`, the message gives back one line per alert, in input order, each with
      the `'\r'` of its line break. */
  lemma MessageHoldsEveryLine(format: string, showDistance: real -> string, alerts: seq<ProximityAlert>)
    requires forall i :: 0 <= i < |alerts| ==> '\n' !in Line(format, showDistance, alerts[i])
    ensures Split(Message(format, showDistance, alerts), '\n') ==
      Terminated(Lines(format, showDistance, alerts)) + [[]]
  {
    AppendLinesSplit(Lines(format, showDistance, alerts));
  }

  /** `DiscordAlertClient.IConfig`: the configured `AlertFormat`, a settable property of the
      plugin's configuration that the client reads on every call. */
  class Config {
    var alertFormat: string

    constructor (alertFormat: string)
      ensures this.alertFormat == alertFormat
    {
      this.alertFormat := alertFormat;
    }
  }

  class DiscordAlertClient {
    const config: Config
    const showDistance: real -> string

    constructor (config: Config, showDistance: real -> string)
      ensures this.config == config && this.showDistance == showDistance
    {
      this.config := config;
      this.showDistance := showDistance;
    }

    /** `SendAlertAsync`: nothing for no alerts; otherwise every linked user's message is
        attempted, a failure to find the user or to send (`fails`) being caught and the loop
        going on. */
    method SendAlert(allAlerts: seq<ProximityAlert>, links: map<ULong, ULong>, fails: ULong -> bool)
      returns (sends: seq<Send>)
      ensures allAlerts == [] ==> sends == []
      ensures sends == AllSends(config.alertFormat, showDistance, allAlerts, links, fails)
    {
      if allAlerts == [] {
        NoAlertsNoSends(config.alertFormat, showDistance, links, fails);
        return [];
      }
      var linkedAlerts := GroupByDiscordId(allAlerts, links);
      ghost var all := AllSends(config.alertFormat, showDistance, allAlerts, links, fails);
      assert |all| == |linkedAlerts.order|;
      sends := [];
      var i := 0;
      while i < |linkedAlerts.order|
        invariant 0 <= i <= |linkedAlerts.order|
        invariant sends == all[..i]
      {
        var discordId := linkedAlerts.order[i];
        SendAt(config.alertFormat, showDistance, allAlerts, links, fails, i);
        var message := MakeAlertMessage(linkedAlerts.lists[discordId]);
        TakeNext(all, i);
        sends := sends + [Send(discordId, message, !fails(discordId))];
        i := i + 1;
      }
      assert all[..i] == all;
    }

    /** The loop that asks the linker for each alert's Discord id and fills the dictionary
        of per-user lists. */
    method GroupByDiscordId(allAlerts: seq<ProximityAlert>, links: map<ULong, ULong>)
      returns (linkedAlerts: Groups<ULong, ProximityAlert>)
      ensures linkedAlerts == GroupAll(LinkedEntries(allAlerts, links))
    {
      linkedAlerts := Groups([], map[]);
      var i := 0;
      while i < |allAlerts|
        invariant 0 <= i <= |allAlerts|
        invariant linkedAlerts == GroupAll(LinkedEntries(allAlerts[..i], links))
      {
        var alert := allAlerts[i];
        assert DropLast(allAlerts[..i + 1]) == allAlerts[..i];
        if alert.steamId in links {
          linkedAlerts := AddTo(linkedAlerts, links[alert.steamId], alert);
        }
        i := i + 1;
      }
      assert allAlerts[..i] == allAlerts;
    }

    /** `MakeAlertMessage`: one `AppendLine` per alert. */
    method MakeAlertMessage(alerts: seq<ProximityAlert>) returns (message: string)
      ensures message == Message(config.alertFormat, showDistance, alerts)
    {
      message := [];
      var i := 0;
      while i < |alerts|
        invariant 0 <= i <= |alerts|
        invariant message == AppendLines(Lines(config.alertFormat, showDistance, alerts[..i]))
      {
        var line := Line(config.alertFormat, showDistance, alerts[i]);
        LinesNext(config.alertFormat, showDistance, alerts, i);
        AppendLinesSnoc(Lines(config.alertFormat, showDistance, alerts[..i]), line);
        message := message + (line + NEWLINE);
        i := i + 1;
      }
      assert alerts[..i] == alerts;
    }
  }
}
