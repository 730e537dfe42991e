/** TorchAlert/TorchAlert.Core/AlertDiscordClient.cs: proximity alerts grouped by steam id,
    one direct message per player made of the distinct formatted lines, and a failed message
    that does not keep the others from being sent. `{Distance:0}` formatting is the oracle
    `showDistance`. */
module AlertDiscordClient {
  import opened Numerics
  import opened Wrappers
  import opened Seqs
  import opened Text
  import opened CoreProximityRecords
  import opened Templates
  import opened Grouping
  import opened Sending

  const DISTANCE: string := "${distance}"
  const GRID_NAME_OURS: string := "${grid_name_ours}"
  const GRID_NAME_THEIRS: string := "${grid_name_theirs}"
  const OWNER_NAME: string := "${owner_name}"
  const FACTION_TAG: string := "${faction_tag}"
  const NONE: string := "<none>"

  /** What `${owner_name}` stands for. */
  function OwnerText(alert: ProximityAlert): string {
    alert.offender.ownerName.GetOr(NONE)
  }

  /** What `${faction_tag}` stands for. */
  function FactionTagText(alert: ProximityAlert): string {
    alert.offender.factionTag.GetOr(NONE)
  }

  /** The line for one alert: the five placeholders replaced one after the other, each on
      the text the previous replacements left. */
  function Line(format: string, showDistance: real -> string, alert: ProximityAlert): string {
    var withDistance := Replace(format, DISTANCE, showDistance(alert.distance));
    var withOurs := Replace(withDistance, GRID_NAME_OURS, alert.defenderGridName);
    var withTheirs := Replace(withOurs, GRID_NAME_THEIRS, alert.offender.gridName);
    var withOwner := Replace(withTheirs, OWNER_NAME, OwnerText(alert));
    Replace(withOwner, FACTION_TAG, FactionTagText(alert))
  }

  function Lines(format: string, showDistance: real -> string, alerts: seq<ProximityAlert>): (r: seq<string>)
    ensures |r| == |alerts|
    ensures forall i :: 0 <= i < |r| ==> r[i] == Line(format, showDistance, alerts[i])
  {
    seq(|alerts|, i requires 0 <= i < |alerts| => Line(format, showDistance, alerts[i]))
  }

  /** One more alert adds its line. */
  lemma LinesNext(format: string, showDistance: real -> string, alerts: seq<ProximityAlert>, i: nat)
    requires i < |alerts|
    ensures Lines(format, showDistance, alerts[..i + 1]) ==
      Lines(format, showDistance, alerts[..i]) + [Line(format, showDistance, alerts[i])]
  {
  }

  /** The message one player gets: each distinct line once, in order of first appearance
      (the order the `HashSet` enumerates them in, as nothing is removed from it), each
      followed by a line break. */
  function Message(format: string, showDistance: real -> string, alerts: seq<ProximityAlert>): string {
    AppendLines(Dedup(Lines(format, showDistance, alerts)))
  }

  /** The players' alerts as the `(steamId, alert)` entries the grouping loop adds. */
  function Entries(alerts: seq<ProximityAlert>): (r: seq<(ULong, ProximityAlert)>)
    ensures |r| == |alerts|
    ensures forall i :: 0 <= i < |r| ==> r[i] == (alerts[i].steamId, alerts[i])
    decreases |alerts|
  {
    if alerts == [] then []
    else
      Entries(DropLast(alerts)) + [(Last(alerts).steamId, Last(alerts))]
  }

  /** The direct messages `SendProximityAlertAsync` attempts: one per player, all of them. */
  function AllSends(format: string, showDistance: real -> string, alerts: seq<ProximityAlert>,
                    fails: ULong -> bool): seq<Send>
  {
    var g := GroupAll(Entries(alerts));
    GroupAllKeys(Entries(alerts));
    assert forall k :: k in g.order ==> k in g.lists;
    Attempts(g.order, g.lists, (group: seq<ProximityAlert>) => Message(format, showDistance, group), fails)
  }

  /** The `i`th attempt is the message built from the `i`th player's list. */
  lemma SendAt(format: string, showDistance: real -> string, alerts: seq<ProximityAlert>,
               fails: ULong -> bool, i: nat)
    requires i < |AllSends(format, showDistance, alerts, fails)|
    ensures var g := GroupAll(Entries(alerts));
      i < |g.order| && g.order[i] in g.lists &&
      AllSends(format, showDistance, alerts, fails)[i] ==
        Send(g.order[i], Message(format, showDistance, g.lists[g.order[i]]), !fails(g.order[i]))
  {
    var g := GroupAll(Entries(alerts));
    GroupAllKeys(Entries(alerts));
    AttemptsAt(g.order, g.lists, (group: seq<ProximityAlert>) => Message(format, showDistance, group), fails, i);
  }

  /** The alerts grouped under one player are that player's alerts, in input order. */
  lemma {:induction false} GroupOfPlayer(alerts: seq<ProximityAlert>, steamId: ULong)
    ensures ValuesOf(Entries(alerts), steamId) == Keep(alerts, (a: ProximityAlert) => a.steamId == steamId)
    decreases |alerts|
  {
    if alerts != [] {
      var init := DropLast(alerts);
      assert DropLast(Entries(alerts)) == Entries(init);
      GroupOfPlayer(init, steamId);
      assert alerts == init + [Last(alerts)];
      KeepAppend(init, Last(alerts), (a: ProximityAlert) => a.steamId == steamId);
    }
  }

  /** Every player with an alert gets exactly one message, in order of their first alert;
      it is built from exactly that player's alerts; and whether it went through depends on
      that player alone. */
  lemma OneMessagePerPlayer(format: string, showDistance: real -> string, alerts: seq<ProximityAlert>,
                            fails: ULong -> bool)
    ensures var sends := AllSends(format, showDistance, alerts, fails);
      |sends| == |Dedup(Keys(Entries(alerts)))| &&
      (forall i :: 0 <= i < |sends| ==> sends[i].recipient == Dedup(Keys(Entries(alerts)))[i]) &&
      (forall i :: 0 <= i < |sends| ==>
        sends[i].message == Message(format, showDistance,
          Keep(alerts, (a: ProximityAlert) => a.steamId == sends[i].recipient)) &&
        sends[i].delivered == !fails(sends[i].recipient))
  {
    var sends := AllSends(format, showDistance, alerts, fails);
    var g := GroupAll(Entries(alerts));
    GroupAllKeys(Entries(alerts));
    GroupAllLists(Entries(alerts));
    forall i | 0 <= i < |sends|
      ensures sends[i].message == Message(format, showDistance,
        Keep(alerts, (a: ProximityAlert) => a.steamId == sends[i].recipient))
    {
      SendAt(format, showDistance, alerts, fails, i);
      GroupOfPlayer(alerts, g.order[i]);
    }
  }

  /** With no alerts there is nothing to send. */
  lemma NoAlertsNoSends(format: string, showDistance: real -> string, fails: ULong -> bool)
    ensures AllSends(format, showDistance, [], fails) == []
  {
    assert Entries([]) == [];
  }

  /** A format without `$` is the line for every alert. */
  lemma LineWithoutPlaceholders(format: string, showDistance: real -> string, alert: ProximityAlert)
    requires '$' !in format
    ensures Line(format, showDistance, alert) == format
  {
    ReplaceWithoutFirstChar(format, DISTANCE, showDistance(alert.distance));
    ReplaceWithoutFirstChar(format, GRID_NAME_OURS, alert.defenderGridName);
    ReplaceWithoutFirstChar(format, GRID_NAME_THEIRS, alert.offender.gridName);
    ReplaceWithoutFirstChar(format, OWNER_NAME, OwnerText(alert));
    ReplaceWithoutFirstChar(format, FACTION_TAG, FactionTagText(alert));
  }

  /** The last two replacements on the bare owner placeholder give the owner text. */
  lemma OwnerTail(alert: ProximityAlert)
    requires '$' !in OwnerText(alert)
    ensures Replace(Replace(OWNER_NAME, OWNER_NAME, OwnerText(alert)), FACTION_TAG, FactionTagText(alert))
      == OwnerText(alert)
  {
    ReplaceFillsHole([], [], OWNER_NAME, OwnerText(alert));
    assert [] + OWNER_NAME + [] == OWNER_NAME;
    assert [] + OwnerText(alert) + [] == OwnerText(alert);
    ReplaceWithoutFirstChar(OwnerText(alert), FACTION_TAG, FactionTagText(alert));
  }

  /** `${owner_name}` alone becomes the owner's name, and `<none>` when there is none. */
  lemma OwnerPlaceholder(showDistance: real -> string, alert: ProximityAlert)
    requires '$' !in OwnerText(alert)
    ensures Line(OWNER_NAME, showDistance, alert) == OwnerText(alert)
    ensures alert.offender.ownerName == None ==> Line(OWNER_NAME, showDistance, alert) == NONE
  {
    assert OWNER_NAME[1..] == "{owner_name}";
    assert OWNER_NAME[..|DISTANCE|][2] != DISTANCE[2];
    OtherPlaceholderKept(OWNER_NAME, DISTANCE, showDistance(alert.distance));
    OtherPlaceholderKept(OWNER_NAME, GRID_NAME_OURS, alert.defenderGridName);
    OtherPlaceholderKept(OWNER_NAME, GRID_NAME_THEIRS, alert.offender.gridName);
    OwnerTail(alert);
  }

  /** `${distance}` does not touch `${grid_name_ours}`. */
  lemma OursKeptByDistance(d: string)
    ensures Replace(GRID_NAME_OURS, DISTANCE, d) == GRID_NAME_OURS
  {
    assert GRID_NAME_OURS[1..] == "{grid_name_ours}";
    assert GRID_NAME_OURS[..|DISTANCE|][2] != DISTANCE[2];
    OtherPlaceholderKept(GRID_NAME_OURS, DISTANCE, d);
  }

  /** `${grid_name_theirs}` does not touch `${owner_name}`. */
  lemma OwnerKeptByTheirs(v: string)
    ensures Replace(OWNER_NAME, GRID_NAME_THEIRS, v) == OWNER_NAME
  {
    assert OWNER_NAME[1..] == "{owner_name}";
    OtherPlaceholderKept(OWNER_NAME, GRID_NAME_THEIRS, v);
  }

  /** The replacements run in a fixed order, so a placeholder inside an earlier value is
      replaced too: a grid of ours named `${owner_name}` shows the offender's owner. */
  lemma EarlierValueRewritten(format: string, showDistance: real -> string, alert: ProximityAlert)
    requires format == GRID_NAME_OURS && alert.defenderGridName == OWNER_NAME
    requires '$' !in OwnerText(alert)
    ensures Line(format, showDistance, alert) == OwnerText(alert)
  {
    OursKeptByDistance(showDistance(alert.distance));
    assert Replace(GRID_NAME_OURS, GRID_NAME_OURS, OWNER_NAME) == OWNER_NAME by {
      ReplaceFillsHole([], [], GRID_NAME_OURS, OWNER_NAME);
      assert [] + GRID_NAME_OURS + [] == GRID_NAME_OURS;
      assert [] + OWNER_NAME + [] == OWNER_NAME;
    }
    OwnerKeptByTheirs(alert.offender.gridName);
    OwnerTail(alert);
  }

  /** Split at `'\n'`, the message gives back each distinct line once, in order of first
      appearance, each with the `'\r'` of its line break. */
  lemma MessageHoldsDistinctLines(format: string, showDistance: real -> string, alerts: seq<ProximityAlert>)
    requires forall i :: 0 <= i < |alerts| ==> '\n' !in Line(format, showDistance, alerts[i])
    ensures var distinct := Dedup(Lines(format, showDistance, alerts));
      Split(Message(format, showDistance, alerts), '\n') == Terminated(distinct) + [[]] &&
      NoDuplicates(distinct) &&
      (forall i :: 0 <= i < |alerts| ==> Line(format, showDistance, alerts[i]) in distinct)
  {
    var lines := Lines(format, showDistance, alerts);
    var distinct := Dedup(lines);
    forall i | 0 <= i < |distinct| ensures '\n' !in distinct[i] {
      assert distinct[i] in lines;
    }
    AppendLinesSplit(distinct);
    forall i | 0 <= i < |alerts| ensures Line(format, showDistance, alerts[i]) in distinct {
      assert lines[i] in lines;
    }
  }

  /** `AlertDiscordClient.IConfig`: the configured `ProximityAlertFormat`, a settable property of the
      plugin's configuration that the client reads on every call. */
  class Config {
    var proximityAlertFormat: string

    constructor (proximityAlertFormat: string)
      ensures this.proximityAlertFormat == proximityAlertFormat
    {
      this.proximityAlertFormat := proximityAlertFormat;
    }
  }

  class AlertDiscordClient {
    const config: Config
    const showDistance: real -> string

    constructor (config: Config, showDistance: real -> string)
      ensures this.config == config && this.showDistance == showDistance
    {
      this.config := config;
      this.showDistance := showDistance;
    }

    /** `SendProximityAlertAsync`: nothing for no alerts; otherwise every player's message
        is attempted, a failure (`fails`) being caught and the loop going on. */
    method SendProximityAlert(allAlerts: seq<ProximityAlert>, fails: ULong -> bool)
      returns (sends: seq<Send>)
      ensures allAlerts == [] ==> sends == []
      ensures sends == AllSends(config.proximityAlertFormat, showDistance, allAlerts, fails)
    {
      if allAlerts == [] {
        NoAlertsNoSends(config.proximityAlertFormat, showDistance, fails);
        return [];
      }
      var linkedAlerts := GroupBySteamId(allAlerts);
      ghost var all := AllSends(config.proximityAlertFormat, showDistance, allAlerts, fails);
      assert |all| == |linkedAlerts.order|;
      sends := [];
      var i := 0;
      while i < |linkedAlerts.order|
        invariant 0 <= i <= |linkedAlerts.order|
        invariant sends == all[..i]
      {
        var steamId := linkedAlerts.order[i];
        SendAt(config.proximityAlertFormat, showDistance, allAlerts, fails, i);
        var message := MakeProximityAlertMessage(linkedAlerts.lists[steamId]);
        TakeNext(all, i);
        sends := sends + [Send(steamId, message, !fails(steamId))];
        i := i + 1;
      }
      assert all[..i] == all;
    }

    /** The loop that fills the dictionary of per-player lists. */
    method GroupBySteamId(allAlerts: seq<ProximityAlert>) returns (linkedAlerts: Groups<ULong, ProximityAlert>)
      ensures linkedAlerts == GroupAll(Entries(allAlerts))
    {
      linkedAlerts := Groups([], map[]);
      var i := 0;
      while i < |allAlerts|
        invariant 0 <= i <= |allAlerts|
        invariant linkedAlerts == GroupAll(Entries(allAlerts[..i]))
      {
        assert Entries(allAlerts[..i + 1]) == Entries(allAlerts[..i]) + [(allAlerts[i].steamId, allAlerts[i])];
        linkedAlerts := AddTo(linkedAlerts, allAlerts[i].steamId, allAlerts[i]);
        i := i + 1;
      }
      assert allAlerts[..i] == allAlerts;
    }

    /** `MakeProximityAlertMessage`: the lines collected in a `HashSet`, then appended to a
        `StringBuilder` one `AppendLine` at a time. */
    method MakeProximityAlertMessage(alerts: seq<ProximityAlert>) returns (message: string)
      ensures message == Message(config.proximityAlertFormat, showDistance, alerts)
    {
      var messages: seq<string> := [];
      var i := 0;
      while i < |alerts|
        invariant 0 <= i <= |alerts|
        invariant messages == Dedup(Lines(config.proximityAlertFormat, showDistance, alerts[..i]))
      {
        var line := Line(config.proximityAlertFormat, showDistance, alerts[i]);
        LinesNext(config.proximityAlertFormat, showDistance, alerts, i);
        DedupAppend(Lines(config.proximityAlertFormat, showDistance, alerts[..i]), line);
        if line !in messages {
          messages := messages + [line];
        }
        i := i + 1;
      }
      assert alerts[..i] == alerts;
      message := [];
      var j := 0;
      while j < |messages|
        invariant 0 <= j <= |messages|
        invariant message == AppendLines(messages[..j])
      {
        TakeNext(messages, j);
        AppendLinesSnoc(messages[..j], messages[j]);
        message := message + (messages[j] + NEWLINE);
        j := j + 1;
      }
      assert messages[..j] == messages;
    }
  }
}
