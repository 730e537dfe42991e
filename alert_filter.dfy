/** TorchAlert/TorchAlert.Core.Proximity/ProximityAlertFilter.cs: per player, the offender grid
    ids already alerted are remembered; an alert is held back when its offender, or any grid its
    offender split from, is remembered for that player. Ids that a call no longer observes for a
    player are forgotten before that call is judged. */
module CoreProximityAlertFilter {
  import opened Seqs
  import opened Numerics
  import opened Lineage
  import opened CoreProximityRecords

  /** `_lastAlertGridIds`: per steam id, the offender grid ids already alerted. */
  type Memory = map<ULong, set<int>>

  /** The first loop: the players in order of first appearance (the enumeration order of a
      dictionary filled without removals) and, per player, the distinct alerts in order of first
      appearance (a `HashSet` of readonly structs, equal by value). */
  function Group(alerts: seq<ProximityAlert>): (seq<ULong>, map<ULong, seq<ProximityAlert>>)
    decreases |alerts|
  {
    if alerts == [] then ([], map[])
    else
      var (players, per) := Group(DropLast(alerts));
      var a := Last(alerts);
      var s := a.steamId;
      if s !in per then (players + [s], per[s := [a]])
      else if a in per[s] then (players, per)
      else (players, per[s := per[s] + [a]])
  }

  /** The same loop: per player, the offender grid ids of this call. */
  function OffenderIds(alerts: seq<ProximityAlert>): Memory
    decreases |alerts|
  {
    if alerts == [] then map[]
    else
      var ids := OffenderIds(DropLast(alerts));
      var a := Last(alerts);
      var s := a.steamId;
      ids[s := (if s in ids then ids[s] else {}) + {a.offender.gridId}]
  }

  /** `IntersectWith`: a player absent from this call is dropped, and a present player keeps
      only the remembered ids this call observes again. */
  function Forget(memory: Memory, ids: Memory): Memory {
    map s | s in memory && s in ids :: memory[s] * ids[s]
  }

  /** `ContainsAny`: some of `ids` is remembered. */
  predicate ContainsAny(remembered: set<int>, ids: seq<int>) {
    exists p :: p in ids && p in remembered
  }

  /** The inner loop for one player: an alert is held back when its offender grid id or one of
      the grid ids it split from is remembered; otherwise it is emitted and its offender grid id
      remembered, so that it also holds back what follows. */
  function Judge(history: seq<(int, int)>, remembered: set<int>, alerts: seq<ProximityAlert>): (seq<ProximityAlert>, set<int>)
    decreases |alerts|
  {
    if alerts == [] then ([], remembered)
    else
      var (out, r) := Judge(history, remembered, DropLast(alerts));
      var a := Last(alerts);
      var g := a.offender.gridId;
      if g in r || ContainsAny(r, Ancestors(history, g)) then (out, r)
      else (out + [a], r + {g})
  }

  lemma {:induction false} JudgeStep(history: seq<(int, int)>, remembered: set<int>, alerts: seq<ProximityAlert>, a: ProximityAlert)
    ensures var (out, r) := Judge(history, remembered, alerts);
      var g := a.offender.gridId;
      Judge(history, remembered, alerts + [a]) ==
        if g in r || ContainsAny(r, Ancestors(history, g)) then (out, r) else (out + [a], r + {g})
  {
    assert DropLast(alerts + [a]) == alerts;
  }

  /** The memory of player `s` as `GetOrAdd` finds it. */
  function Recall(memory: Memory, s: ULong): set<int> {
    if s in memory then memory[s] else {}
  }

  /** The distinct alerts of player `s`, as the grouping found them. */
  function PerOf(per: map<ULong, seq<ProximityAlert>>, s: ULong): seq<ProximityAlert> {
    if s in per then per[s] else []
  }

  /** The outer loop: each player's alerts judged against that player's memory, in order. */
  function JudgePlayers(history: seq<(int, int)>, memory: Memory, players: seq<ULong>,
                        per: map<ULong, seq<ProximityAlert>>): (seq<ProximityAlert>, Memory)
    decreases |players|
  {
    if players == [] then ([], memory)
    else
      var (out, m) := JudgePlayers(history, memory, DropLast(players), per);
      var s := Last(players);
      var (o, r) := Judge(history, Recall(m, s), PerOf(per, s));
      (out + o, m[s := r])
  }

  /** A whole call of `Filter`, enumerated to the end: the emitted alerts and the new memory. */
  function Filtered(history: seq<(int, int)>, memory: Memory, alerts: seq<ProximityAlert>): (seq<ProximityAlert>, Memory)
  {
    var (players, per) := Group(alerts);
    JudgePlayers(history, Forget(memory, OffenderIds(alerts)), players, per)
  }

  // ---- The grouping ----

  /** The steam ids of some alerts. */
  function SteamIds(alerts: seq<ProximityAlert>): set<ULong> {
    set i | 0 <= i < |alerts| :: alerts[i].steamId
  }

  /** Every player appears once, and exactly the players of the alerts appear. */
  lemma {:induction false} GroupPlayers(alerts: seq<ProximityAlert>)
    ensures var (players, per) := Group(alerts);
      NoDuplicates(players) &&
      (forall s :: s in per <==> s in players) &&
      (forall s :: s in players <==> s in SteamIds(alerts))
    decreases |alerts|
  {
    if alerts != [] {
      var xs, a := DropLast(alerts), Last(alerts);
      assert alerts == xs + [a];
      GroupPlayers(xs);
      assert SteamIds(alerts) == SteamIds(xs) + {a.steamId};
    }
  }

  /** Each player's list holds that player's alerts, each once. */
  lemma {:induction false} GroupMembers(alerts: seq<ProximityAlert>, s: ULong)
    ensures var per := Group(alerts).1;
      s in per ==>
        per[s] != [] && NoDuplicates(per[s]) &&
        forall a :: a in per[s] <==> a in alerts && a.steamId == s
    decreases |alerts|
  {
    if alerts != [] {
      var xs, a := DropLast(alerts), Last(alerts);
      assert alerts == xs + [a];
      GroupMembers(xs, s);
      GroupPlayers(xs);
      if a.steamId == s && s !in Group(xs).1 {
        forall b | b in alerts && b.steamId == s
          ensures b == a
        {
          var i :| 0 <= i < |alerts| && alerts[i] == b;
        }
      }
    }
  }

  /** A player's list starts with that player's first alert. */
  lemma {:induction false} GroupFirst(alerts: seq<ProximityAlert>, i: int)
    requires FirstOfPlayer(alerts, i)
    ensures var per := Group(alerts).1;
      alerts[i].steamId in per && per[alerts[i].steamId] != [] && per[alerts[i].steamId][0] == alerts[i]
    decreases |alerts|
  {
    var xs, a := DropLast(alerts), Last(alerts);
    assert alerts == xs + [a];
    GroupPlayers(xs);
    if i < |xs| {
      assert FirstOfPlayer(xs, i);
      GroupFirst(xs, i);
    }
  }

  /** `i` is the position of the first alert of its player. */
  predicate FirstOfPlayer(alerts: seq<ProximityAlert>, i: int) {
    0 <= i < |alerts| && forall j :: 0 <= j < i ==> alerts[j].steamId != alerts[i].steamId
  }

  /** The offender ids of a player are those of that player's alerts. */
  lemma {:induction false} OffenderIdsMembers(alerts: seq<ProximityAlert>, s: ULong, g: int)
    ensures s in OffenderIds(alerts) <==> s in SteamIds(alerts)
    ensures g in Recall(OffenderIds(alerts), s) <==>
      exists i :: 0 <= i < |alerts| && alerts[i].steamId == s && alerts[i].offender.gridId == g
    decreases |alerts|
  {
    if alerts != [] {
      var xs, a := DropLast(alerts), Last(alerts);
      assert alerts == xs + [a];
      OffenderIdsMembers(xs, s, g);
      assert SteamIds(alerts) == SteamIds(xs) + {a.steamId};
      if exists i :: 0 <= i < |alerts| && alerts[i].steamId == s && alerts[i].offender.gridId == g {
        var i :| 0 <= i < |alerts| && alerts[i].steamId == s && alerts[i].offender.gridId == g;
        if i < |xs| {
          assert xs[i] == alerts[i];
        }
      }
      if exists i :: 0 <= i < |xs| && xs[i].steamId == s && xs[i].offender.gridId == g {
        var i :| 0 <= i < |xs| && xs[i].steamId == s && xs[i].offender.gridId == g;
        assert alerts[i] == xs[i];
      }
    }
  }

  // ---- One player's judgement ----

  /** The offender grid ids of some alerts. */
  function GridIds(alerts: seq<ProximityAlert>): set<int> {
    set i | 0 <= i < |alerts| :: alerts[i].offender.gridId
  }

  lemma GridIdsAppend(alerts: seq<ProximityAlert>, a: ProximityAlert)
    ensures GridIds(alerts + [a]) == GridIds(alerts) + {a.offender.gridId}
  {
    var all := alerts + [a];
    forall g | g in GridIds(all)
      ensures g in GridIds(alerts) + {a.offender.gridId}
    {
      var i :| 0 <= i < |all| && all[i].offender.gridId == g;
      if i < |alerts| {
        assert all[i] == alerts[i];
      }
    }
    forall g | g in GridIds(alerts)
      ensures g in GridIds(all)
    {
      var i :| 0 <= i < |alerts| && alerts[i].offender.gridId == g;
      assert all[i] == alerts[i];
    }
    assert all[|alerts|] == a;
  }

  /** Neither the offender of `a` nor any grid it split from is among `remembered`. */
  predicate Admitted(history: seq<(int, int)>, remembered: set<int>, a: ProximityAlert) {
    a.offender.gridId !in remembered && !ContainsAny(remembered, Ancestors(history, a.offender.gridId))
  }

  /** What one player's judgement does: it emits some of the alerts, each admitted by the
      memory it started from; it emits each offender once and never a grid after a grid it
      split from; and the memory grows by exactly the emitted offenders. */
  lemma {:induction false} JudgeFacts(history: seq<(int, int)>, remembered: set<int>, alerts: seq<ProximityAlert>)
    ensures var (out, r) := Judge(history, remembered, alerts);
      (forall a :: a in out ==> a in alerts) &&
      r == remembered + GridIds(out) &&
      (forall a :: a in out ==> Admitted(history, remembered, a)) &&
      (forall m, n :: 0 <= m < n < |out| ==>
        out[m].offender.gridId != out[n].offender.gridId &&
        out[m].offender.gridId !in Ancestors(history, out[n].offender.gridId))
    decreases |alerts|
  {
    if alerts != [] {
      var xs, a := DropLast(alerts), Last(alerts);
      assert alerts == xs + [a];
      JudgeFacts(history, remembered, xs);
      var (out, r) := Judge(history, remembered, xs);
      var g := a.offender.gridId;
      if !(g in r || ContainsAny(r, Ancestors(history, g))) {
        var out' := out + [a];
        GridIdsAppend(out, a);
        forall m | 0 <= m < |out|
          ensures out[m].offender.gridId != g && out[m].offender.gridId !in Ancestors(history, g)
        {
          assert out[m].offender.gridId in GridIds(out);
        }
        assert Admitted(history, remembered, a);
      }
    }
  }

  /** The first alert of a player is emitted when the memory admits it. */
  lemma {:induction false} JudgeFirst(history: seq<(int, int)>, remembered: set<int>, alerts: seq<ProximityAlert>)
    requires alerts != [] && Admitted(history, remembered, alerts[0])
    ensures var out := Judge(history, remembered, alerts).0;
      out != [] && out[0] == alerts[0]
    decreases |alerts|
  {
    var xs := DropLast(alerts);
    if xs != [] {
      assert xs[0] == alerts[0];
      JudgeFirst(history, remembered, xs);
    }
  }

  // ---- All players ----

  /** Every alert listed for a player carries that player's steam id. */
  predicate Grouped(per: map<ULong, seq<ProximityAlert>>) {
    forall s, a :: s in per && a in per[s] ==> a.steamId == s
  }

  /** The judgement of player `s` against the memory `memory` (from `GetOrAdd` on). */
  function JudgeOf(history: seq<(int, int)>, memory: Memory, s: ULong,
                   per: map<ULong, seq<ProximityAlert>>): (seq<ProximityAlert>, set<int>) {
    Judge(history, Recall(memory, s), PerOf(per, s))
  }

  /** Judging other players leaves the memory of `s` alone. */
  lemma {:induction false} JudgePlayersRecall(history: seq<(int, int)>, memory: Memory, players: seq<ULong>,
                                              per: map<ULong, seq<ProximityAlert>>, s: ULong)
    requires s !in players
    ensures Recall(JudgePlayers(history, memory, players, per).1, s) == Recall(memory, s)
    decreases |players|
  {
    if players != [] {
      assert players == DropLast(players) + [Last(players)];
      JudgePlayersRecall(history, memory, DropLast(players), per, s);
    }
  }

  /** Each player judged is judged against the memory as it was before the loop, because every
      player comes once; the new memory holds what that judgement leaves, and nothing else
      changes. */
  lemma {:induction false} JudgePlayersState(history: seq<(int, int)>, memory: Memory, players: seq<ULong>,
                                             per: map<ULong, seq<ProximityAlert>>)
    requires NoDuplicates(players)
    ensures var m := JudgePlayers(history, memory, players, per).1;
      (forall s :: s in m <==> s in memory || s in players) &&
      (forall s :: s in players ==> m[s] == JudgeOf(history, memory, s, per).1) &&
      (forall s :: s in memory && s !in players ==> m[s] == memory[s])
    decreases |players|
  {
    if players != [] {
      var qs, t := DropLast(players), Last(players);
      assert players == qs + [t];
      assert NoDuplicates(qs) && t !in qs by {
        forall i | 0 <= i < |qs| ensures qs[i] != t {
          assert players[i] == qs[i];
        }
      }
      JudgePlayersState(history, memory, qs, per);
      JudgePlayersRecall(history, memory, qs, per, t);
    }
  }

  /** The emitted alerts are exactly the alerts the players' judgements emit. */
  lemma {:induction false} JudgePlayersOut(history: seq<(int, int)>, memory: Memory, players: seq<ULong>,
                                           per: map<ULong, seq<ProximityAlert>>)
    requires NoDuplicates(players) && Grouped(per)
    ensures var out := JudgePlayers(history, memory, players, per).0;
      (forall a :: a in out ==> a.steamId in players && a in JudgeOf(history, memory, a.steamId, per).0) &&
      (forall s, a :: s in players && a in JudgeOf(history, memory, s, per).0 ==> a in out)
    decreases |players|
  {
    if players != [] {
      var qs, t := DropLast(players), Last(players);
      assert players == qs + [t];
      assert NoDuplicates(qs) && t !in qs by {
        forall i | 0 <= i < |qs| ensures qs[i] != t {
          assert players[i] == qs[i];
        }
      }
      JudgePlayersOut(history, memory, qs, per);
      JudgePlayersRecall(history, memory, qs, per, t);
      JudgeFacts(history, Recall(memory, t), PerOf(per, t));
    }
  }

  /** No (player, offender) pair occurs twice in `out`, and for one player no grid comes after
      a grid it split from. */
  predicate AlertedOnce(history: seq<(int, int)>, out: seq<ProximityAlert>) {
    forall m, n :: 0 <= m < n < |out| ==>
      (out[m].steamId, out[m].offender.gridId) != (out[n].steamId, out[n].offender.gridId) &&
      (out[m].steamId == out[n].steamId ==>
        out[m].offender.gridId !in Ancestors(history, out[n].offender.gridId))
  }

  /** No (player, offender) pair is emitted twice, and for one player no grid is emitted after
      a grid it split from. */
  lemma {:induction false} JudgePlayersDistinct(history: seq<(int, int)>, memory: Memory, players: seq<ULong>,
                                                per: map<ULong, seq<ProximityAlert>>)
    requires NoDuplicates(players) && Grouped(per)
    ensures AlertedOnce(history, JudgePlayers(history, memory, players, per).0)
    decreases |players|
  {
    if players != [] {
      var qs, t := DropLast(players), Last(players);
      assert players == qs + [t];
      assert NoDuplicates(qs) && t !in qs by {
        forall i | 0 <= i < |qs| ensures qs[i] != t {
          assert players[i] == qs[i];
        }
      }
      JudgePlayersDistinct(history, memory, qs, per);
      JudgePlayersOut(history, memory, qs, per);
      var (out, m) := JudgePlayers(history, memory, qs, per);
      var o := Judge(history, Recall(m, t), PerOf(per, t)).0;
      JudgeFacts(history, Recall(m, t), PerOf(per, t));
      var all := out + o;
      forall i, j | 0 <= i < j < |all|
        ensures (all[i].steamId, all[i].offender.gridId) != (all[j].steamId, all[j].offender.gridId) &&
          (all[i].steamId == all[j].steamId ==>
            all[i].offender.gridId !in Ancestors(history, all[j].offender.gridId))
      {
        if j < |out| {
          assert all[i] == out[i] && all[j] == out[j];
        } else if i >= |out| {
          assert all[i] == o[i - |out|] && all[j] == o[j - |out|];
        } else {
          assert all[i] == out[i] && all[j] == o[j - |out|];
          assert all[i].steamId in qs;
          assert all[j] in PerOf(per, t);
        }
      }
    }
  }

  // ---- A whole call ----

  lemma GroupWellFormed(alerts: seq<ProximityAlert>)
    ensures var (players, per) := Group(alerts);
      NoDuplicates(players) && Grouped(per)
  {
    GroupPlayers(alerts);
    var per := Group(alerts).1;
    forall s: ULong, a: ProximityAlert | s in per && a in per[s]
      ensures a.steamId == s
    {
      GroupMembers(alerts, s);
    }
  }

  /** The judgement of player `s` inside `Filtered`: that player's distinct alerts against what
      is left of that player's memory once this call's forgetting is done. */
  function PlayerJudgement(history: seq<(int, int)>, memory: Memory, alerts: seq<ProximityAlert>, s: ULong): (seq<ProximityAlert>, set<int>)
  {
    Judge(history, Recall(Forget(memory, OffenderIds(alerts)), s), PerOf(Group(alerts).1, s))
  }

  lemma RecallForget(memory: Memory, ids: Memory, s: ULong)
    ensures Recall(Forget(memory, ids), s) == Recall(memory, s) * Recall(ids, s)
  {
  }

  /** A smaller memory admits whatever a larger one admits. */
  lemma AdmittedByLess(history: seq<(int, int)>, less: set<int>, more: set<int>, a: ProximityAlert)
    requires less <= more && Admitted(history, more, a)
    ensures Admitted(history, less, a)
  {
  }

  /** An emitted alert comes from its own player's judgement, and is one of the inputs. */
  lemma FilteredSource(history: seq<(int, int)>, memory: Memory, alerts: seq<ProximityAlert>, a: ProximityAlert)
    requires a in Filtered(history, memory, alerts).0
    ensures a in PlayerJudgement(history, memory, alerts, a.steamId).0
    ensures a in alerts
  {
    var (players, per) := Group(alerts);
    var forgotten := Forget(memory, OffenderIds(alerts));
    GroupWellFormed(alerts);
    JudgePlayersOut(history, forgotten, players, per);
    JudgeFacts(history, Recall(forgotten, a.steamId), PerOf(per, a.steamId));
    GroupMembers(alerts, a.steamId);
  }

  /** What a player's judgement emits, the call emits. */
  lemma FilteredEmits(history: seq<(int, int)>, memory: Memory, alerts: seq<ProximityAlert>, s: ULong, a: ProximityAlert)
    requires s in SteamIds(alerts) && a in PlayerJudgement(history, memory, alerts, s).0
    ensures a in Filtered(history, memory, alerts).0
  {
    var (players, per) := Group(alerts);
    var forgotten := Forget(memory, OffenderIds(alerts));
    GroupWellFormed(alerts);
    GroupPlayers(alerts);
    assert s in players;
    assert a in JudgeOf(history, forgotten, s, per).0;
    JudgePlayersOut(history, forgotten, players, per);
  }

  /** The players of the call keep what their judgements leave; the others are dropped. */
  lemma FilteredMemoryAt(history: seq<(int, int)>, memory: Memory, alerts: seq<ProximityAlert>, s: ULong)
    ensures var m := Filtered(history, memory, alerts).1;
      (s in m <==> s in SteamIds(alerts)) &&
      (s in m ==> m[s] == PlayerJudgement(history, memory, alerts, s).1)
  {
    var (players, per) := Group(alerts);
    var forgotten := Forget(memory, OffenderIds(alerts));
    GroupPlayers(alerts);
    JudgePlayersState(history, forgotten, players, per);
    OffenderIdsMembers(alerts, s, 0);
  }

  /** Every emitted alert is one of the input alerts. */
  lemma FilterEmitsInputs(history: seq<(int, int)>, memory: Memory, alerts: seq<ProximityAlert>)
    ensures forall a :: a in Filtered(history, memory, alerts).0 ==> a in alerts
  {
    forall a | a in Filtered(history, memory, alerts).0
      ensures a in alerts
    {
      FilteredSource(history, memory, alerts, a);
    }
  }

  /** Within one call, at most one alert per (steam id, offender grid id) is emitted, and a
      player is never alerted to a grid after being alerted to a grid it split from. */
  lemma FilterAlertsOnce(history: seq<(int, int)>, memory: Memory, alerts: seq<ProximityAlert>)
    ensures AlertedOnce(history, Filtered(history, memory, alerts).0)
  {
    var (players, per) := Group(alerts);
    GroupWellFormed(alerts);
    JudgePlayersDistinct(history, Forget(memory, OffenderIds(alerts)), players, per);
  }

  /** An emitted alert's offender was not remembered for its player, and neither was any grid
      it split from that this call observes again for that player. */
  lemma FilterHoldsBackRemembered(history: seq<(int, int)>, memory: Memory, alerts: seq<ProximityAlert>)
    ensures var out := Filtered(history, memory, alerts).0;
      forall a :: a in out ==>
        a.offender.gridId !in Recall(memory, a.steamId) &&
        forall p :: p in Ancestors(history, a.offender.gridId) && p in Recall(memory, a.steamId) ==>
          p !in Recall(OffenderIds(alerts), a.steamId)
  {
    var ids := OffenderIds(alerts);
    forall a | a in Filtered(history, memory, alerts).0
      ensures a.offender.gridId !in Recall(memory, a.steamId)
      ensures forall p :: p in Ancestors(history, a.offender.gridId) && p in Recall(memory, a.steamId) ==>
        p !in Recall(ids, a.steamId)
    {
      var s, g := a.steamId, a.offender.gridId;
      FilteredSource(history, memory, alerts, a);
      var remembered := Recall(Forget(memory, ids), s);
      JudgeFacts(history, remembered, PerOf(Group(alerts).1, s));
      assert Admitted(history, remembered, a);
      RecallForget(memory, ids, s);
      var i :| 0 <= i < |alerts| && alerts[i] == a;
      OffenderIdsMembers(alerts, s, g);
    }
  }

  /** The memory afterwards: a player is remembered exactly when this call has alerts for
      them, and remembers the ids it remembered before and observes again, plus the offenders
      of the alerts emitted to it now. */
  lemma FilterMemory(history: seq<(int, int)>, memory: Memory, alerts: seq<ProximityAlert>)
    ensures var (out, m) := Filtered(history, memory, alerts);
      var ids := OffenderIds(alerts);
      (forall s :: s in m <==> s in SteamIds(alerts)) &&
      (forall s, g :: s in m ==>
        (g in m[s] <==>
          (g in Recall(memory, s) && g in Recall(ids, s)) ||
          exists a :: a in out && a.steamId == s && a.offender.gridId == g))
  {
    var (out, m) := Filtered(history, memory, alerts);
    var ids := OffenderIds(alerts);
    forall s
      ensures s in m <==> s in SteamIds(alerts)
    {
      FilteredMemoryAt(history, memory, alerts, s);
    }
    forall s, g | s in m
      ensures g in m[s] <==>
        (g in Recall(memory, s) && g in Recall(ids, s)) ||
        exists a :: a in out && a.steamId == s && a.offender.gridId == g
    {
      FilteredMemoryAt(history, memory, alerts, s);
      var remembered := Recall(Forget(memory, ids), s);
      var per := Group(alerts).1;
      var o := PlayerJudgement(history, memory, alerts, s).0;
      JudgeFacts(history, remembered, PerOf(per, s));
      assert m[s] == remembered + GridIds(o);
      RecallForget(memory, ids, s);
      if g in GridIds(o) {
        var i :| 0 <= i < |o| && o[i].offender.gridId == g;
        GroupWellFormed(alerts);
        assert o[i] in PerOf(per, s);
        FilteredEmits(history, memory, alerts, s, o[i]);
      }
      if exists a :: a in out && a.steamId == s && a.offender.gridId == g {
        var a :| a in out && a.steamId == s && a.offender.gridId == g;
        FilteredSource(history, memory, alerts, a);
        var i :| 0 <= i < |o| && o[i] == a;
      }
    }
  }

  /** Only ids this call observes are remembered for a player afterwards. */
  lemma FilterRemembersOnlyObserved(history: seq<(int, int)>, memory: Memory, alerts: seq<ProximityAlert>)
    ensures var m := Filtered(history, memory, alerts).1;
      forall s :: s in m ==> m[s] <= Recall(OffenderIds(alerts), s)
  {
    var (out, m) := Filtered(history, memory, alerts);
    FilterMemory(history, memory, alerts);
    forall s, g | s in m && g in m[s]
      ensures g in Recall(OffenderIds(alerts), s)
    {
      if exists a :: a in out && a.steamId == s && a.offender.gridId == g {
        var a :| a in out && a.steamId == s && a.offender.gridId == g;
        FilteredSource(history, memory, alerts, a);
        var i :| 0 <= i < |alerts| && alerts[i] == a;
        OffenderIdsMembers(alerts, s, g);
      }
    }
  }

  /** A player's first alert is emitted when its offender is not remembered for that player
      and no grid it split from is. */
  lemma FilterAlertsFirstSighting(history: seq<(int, int)>, memory: Memory, alerts: seq<ProximityAlert>, i: int)
    requires FirstOfPlayer(alerts, i)
    requires Admitted(history, Recall(memory, alerts[i].steamId), alerts[i])
    ensures alerts[i] in Filtered(history, memory, alerts).0
  {
    var per := Group(alerts).1;
    var ids := OffenderIds(alerts);
    var s := alerts[i].steamId;
    var remembered := Recall(Forget(memory, ids), s);
    GroupFirst(alerts, i);
    RecallForget(memory, ids, s);
    AdmittedByLess(history, remembered, Recall(memory, s), alerts[i]);
    JudgeFirst(history, remembered, per[s]);
    assert s in SteamIds(alerts);
    FilteredEmits(history, memory, alerts, s, alerts[i]);
  }

  /** An offender absent from one call for a player is alerted again in the next call that
      brings it back as that player's first alert, unless a grid it split from is still
      remembered for that player. */
  lemma FilterReannouncesReappearance(history: seq<(int, int)>, memory: Memory,
                                      first: seq<ProximityAlert>, next: seq<ProximityAlert>, i: int)
    requires FirstOfPlayer(next, i)
    requires forall j :: 0 <= j < |first| ==>
      (first[j].steamId, first[j].offender.gridId) != (next[i].steamId, next[i].offender.gridId)
    requires !ContainsAny(Recall(Filtered(history, memory, first).1, next[i].steamId),
                          Ancestors(history, next[i].offender.gridId))
    ensures next[i] in Filtered(history, Filtered(history, memory, first).1, next).0
  {
    var m := Filtered(history, memory, first).1;
    var s, g := next[i].steamId, next[i].offender.gridId;
    FilterRemembersOnlyObserved(history, memory, first);
    OffenderIdsMembers(first, s, g);
    assert g !in Recall(m, s);
    FilterAlertsFirstSighting(history, m, next, i);
  }

  class ProximityAlertFilter {
    const splitLookup: ParentsLookupTree<int>
    var lastAlertGridIds: Memory

    constructor (splitLookup: ParentsLookupTree<int>)
      ensures this.splitLookup == splitLookup && lastAlertGridIds == map[]
    {
      this.splitLookup := splitLookup;
      lastAlertGridIds := map[];
    }

    /** `Filter(alerts)`, enumerated to the end. */
    method Filter(alerts: seq<ProximityAlert>) returns (emitted: seq<ProximityAlert>)
      requires splitLookup.Valid()
      modifies this
      ensures (emitted, lastAlertGridIds) == Filtered(splitLookup.History, old(lastAlertGridIds), alerts)
    {
      ghost var history := splitLookup.History;
      var players, alertsPerPlayer, offenderGridIdsPerPlayer := GroupAlerts(alerts);

      lastAlertGridIds := map s | s in lastAlertGridIds && s in offenderGridIdsPerPlayer ::
        lastAlertGridIds[s] * offenderGridIdsPerPlayer[s];

      ghost var forgotten := lastAlertGridIds;
      emitted := [];
      for k := 0 to |players|
        invariant splitLookup.Valid() && splitLookup.History == history
        invariant (emitted, lastAlertGridIds) == JudgePlayers(history, forgotten, players[..k], alertsPerPlayer)
      {
        TakeNext(players, k);
        assert DropLast(players[..k + 1]) == players[..k];
        var steamId := players[k];
        var playerAlerts := PerOf(alertsPerPlayer, steamId);
        var sent := FilterPlayer(steamId, playerAlerts);
        emitted := emitted + sent;
      }
      assert players[..|players|] == players;
    }

    /** The inner loop for one player, from `GetOrAdd` on. */
    method FilterPlayer(steamId: ULong, playerAlerts: seq<ProximityAlert>) returns (sent: seq<ProximityAlert>)
      requires splitLookup.Valid()
      modifies this
      ensures var (o, r) := Judge(splitLookup.History, Recall(old(lastAlertGridIds), steamId), playerAlerts);
        sent == o && lastAlertGridIds == old(lastAlertGridIds)[steamId := r]
    {
      ghost var history := splitLookup.History;
      var lastIds := Recall(lastAlertGridIds, steamId);
      ghost var recalled := lastIds;
      lastAlertGridIds := lastAlertGridIds[steamId := lastIds];
      sent := [];
      for j := 0 to |playerAlerts|
        invariant (sent, lastIds) == Judge(history, recalled, playerAlerts[..j])
        invariant lastAlertGridIds == old(lastAlertGridIds)[steamId := lastIds]
      {
        var playerAlert := playerAlerts[j];
        JudgeStep(history, recalled, playerAlerts[..j], playerAlert);
        assert playerAlerts[..j + 1] == playerAlerts[..j] + [playerAlert];
        var alertGridId := playerAlert.offender.gridId;
        if alertGridId in lastIds {
          continue;
        }
        var parentGridIds := splitLookup.GetParentsOf(alertGridId);
        if ContainsAny(lastIds, parentGridIds) {
          continue;
        }
        lastIds := lastIds + {alertGridId};
        lastAlertGridIds := lastAlertGridIds[steamId := lastIds];
        sent := sent + [playerAlert];
      }
      assert playerAlerts[..|playerAlerts|] == playerAlerts;
    }
  }

  /** The first loop of `Filter`: the alerts and offender grid ids grouped per player. */
  method GroupAlerts(alerts: seq<ProximityAlert>)
    returns (players: seq<ULong>, alertsPerPlayer: map<ULong, seq<ProximityAlert>>, offenderGridIdsPerPlayer: Memory)
    ensures (players, alertsPerPlayer) == Group(alerts)
    ensures offenderGridIdsPerPlayer == OffenderIds(alerts)
  {
    players, alertsPerPlayer, offenderGridIdsPerPlayer := [], map[], map[];
    for i := 0 to |alerts|
      invariant (players, alertsPerPlayer) == Group(alerts[..i])
      invariant offenderGridIdsPerPlayer == OffenderIds(alerts[..i])
    {
      var alert := alerts[i];
      assert DropLast(alerts[..i + 1]) == alerts[..i];
      var s := alert.steamId;
      if s !in alertsPerPlayer {
        players := players + [s];
        alertsPerPlayer := alertsPerPlayer[s := [alert]];
      } else if alert !in alertsPerPlayer[s] {
        alertsPerPlayer := alertsPerPlayer[s := alertsPerPlayer[s] + [alert]];
      }
      var known := if s in offenderGridIdsPerPlayer then offenderGridIdsPerPlayer[s] else {};
      offenderGridIdsPerPlayer := offenderGridIdsPerPlayer[s := known + {alert.offender.gridId}];
    }
    assert alerts[..|alerts|] == alerts;
  }
}
