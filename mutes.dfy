/** The mute list every config class keeps: `Mute` appends a steam id that is not yet in the
    list, `Unmute` is `List.Remove`, which takes out the first occurrence only. */
module MuteRegistry {
  import opened Numerics
  import opened Seqs

  /** The list after `Mute(steamId)`. */
  function Muted(list: seq<ULong>, steamId: ULong): (r: seq<ULong>)
    ensures steamId in r
    ensures forall t :: t != steamId ==> (t in r <==> t in list)
    ensures multiset(list) <= multiset(r)
    ensures |r| <= |list| + 1
  {
    if steamId in list then list else list + [steamId]
  }

  /** The list after `Unmute(steamId)`. */
  function Unmuted(list: seq<ULong>, steamId: ULong): (r: seq<ULong>)
    ensures forall t :: t != steamId ==> (t in r <==> t in list)
    ensures multiset(r) == multiset(list) - multiset{steamId}
  {
    var r := RemoveFirst(list, steamId);
    assert forall t :: t != steamId ==> multiset(r)[t] == multiset(list)[t];
    assert forall t :: (t in r <==> t in multiset(r)) && (t in list <==> t in multiset(list));
    r
  }

  /** Muting twice is muting once. */
  lemma MuteIdempotent(list: seq<ULong>, steamId: ULong)
    ensures Muted(Muted(list, steamId), steamId) == Muted(list, steamId)
  {
  }

  /** `Mute` never adds a duplicate. */
  lemma MuteKeepsNoDuplicates(list: seq<ULong>, steamId: ULong)
    requires NoDuplicates(list)
    ensures NoDuplicates(Muted(list, steamId))
  {
  }

  /** On a duplicate-free list, `Unmute` takes the id out for good, and the list stays
      duplicate-free. */
  lemma {:induction false} UnmuteOnNoDuplicates(list: seq<ULong>, steamId: ULong)
    requires NoDuplicates(list)
    ensures steamId !in Unmuted(list, steamId)
    ensures NoDuplicates(Unmuted(list, steamId))
    decreases |list|
  {
    if list != [] {
      var tail := list[1..];
      assert NoDuplicates(tail) by {
        forall i, j | 0 <= i < j < |tail| ensures tail[i] != tail[j] {
          assert tail[i] == list[i + 1] && tail[j] == list[j + 1];
        }
      }
      assert list[0] !in tail by {
        forall j | 0 <= j < |tail| ensures tail[j] != list[0] {
          assert tail[j] == list[j + 1];
        }
      }
      if list[0] != steamId {
        UnmuteOnNoDuplicates(tail, steamId);
        var r := Unmuted(tail, steamId);
        assert Unmuted(list, steamId) == [list[0]] + r;
        assert list[0] !in r;
        var full := [list[0]] + r;
        forall i, j | 0 <= i < j < |full| ensures full[i] != full[j] {
          if i == 0 {
            assert full[j] == r[j - 1];
          } else {
            assert full[i] == r[i - 1] && full[j] == r[j - 1];
          }
        }
      }
    }
  }

  /** With a duplicate in the list, one `Unmute` is not enough: the id stays muted. */
  lemma UnmuteKeepsDuplicate(steamId: ULong)
    ensures steamId in Unmuted([steamId, steamId], steamId)
  {
    assert Unmuted([steamId, steamId], steamId) == [steamId];
  }
}

/** TorchAlert/TorchAlert/TorchAlertConfig.cs: the mute list starts empty. */
module TorchAlertConfig {
  import opened Numerics
  import opened MuteRegistry

  class TorchAlertConfig {
    var mutedSteamIds: seq<ULong>
    /** How often `OnPropertyChanged(nameof(MutedSteamIds))` was raised by `Mute`/`Unmute`. */
    var mutedSteamIdsChanged: nat

    constructor ()
      ensures mutedSteamIds == [] && mutedSteamIdsChanged == 0
    {
      mutedSteamIds := [];
      mutedSteamIdsChanged := 0;
    }

    /** The `MutedSteamIds` setter: any list, duplicates included, may be assigned. */
    method SetMutedSteamIds(value: seq<ULong>)
      modifies this`mutedSteamIds
      ensures mutedSteamIds == value
    {
      mutedSteamIds := value;
    }

    predicate IsMuted(steamId: ULong): (r: bool)
      reads this
      ensures r <==> multiset(mutedSteamIds)[steamId] > 0
    {
      steamId in mutedSteamIds
    }

    /** `Mute`: an id not yet muted is appended and the change announced; otherwise nothing
        happens. */
    method Mute(steamId: ULong)
      modifies this
      ensures mutedSteamIds == Muted(old(mutedSteamIds), steamId)
      ensures mutedSteamIdsChanged ==
        old(mutedSteamIdsChanged) + if steamId in old(mutedSteamIds) then 0 else 1
      ensures IsMuted(steamId)
    {
      if steamId !in mutedSteamIds {
        mutedSteamIds := mutedSteamIds + [steamId];
        mutedSteamIdsChanged := mutedSteamIdsChanged + 1;
      }
    }

    /** `Unmute`: the first occurrence is removed and the change announced; an id not in the
        list changes nothing. */
    method Unmute(steamId: ULong)
      modifies this
      ensures mutedSteamIds == Unmuted(old(mutedSteamIds), steamId)
      ensures mutedSteamIdsChanged ==
        old(mutedSteamIdsChanged) + if steamId in old(mutedSteamIds) then 1 else 0
    {
      var removed := steamId in mutedSteamIds;
      mutedSteamIds := Seqs.RemoveFirst(mutedSteamIds, steamId);
      if removed {
        mutedSteamIdsChanged := mutedSteamIdsChanged + 1;
      }
    }
  }
}

/** TorchAlarm/TorchAlarm/TorchAlarmConfig.cs: the mute list starts null, so every call needs
    a list assigned first (by the XML loader or the setter). */
module TorchAlarmConfig {
  import opened Numerics
  import opened Wrappers
  import opened MuteRegistry

  class TorchAlarmConfig {
    var mutedSteamIds: Option<seq<ULong>>
    /** How often `OnPropertyChanged(nameof(MutedSteamIds))` was raised by `Mute`/`Unmute`. */
    var mutedSteamIdsChanged: nat

    constructor ()
      ensures mutedSteamIds == None && mutedSteamIdsChanged == 0
    {
      mutedSteamIds := None;
      mutedSteamIdsChanged := 0;
    }

    method SetMutedSteamIds(value: Option<seq<ULong>>)
      modifies this`mutedSteamIds
      ensures mutedSteamIds == value
    {
      mutedSteamIds := value;
    }

    predicate IsMuted(steamId: ULong): (r: bool)
      requires mutedSteamIds.Some?
      reads this
      ensures r <==> multiset(mutedSteamIds.value)[steamId] > 0
    {
      steamId in mutedSteamIds.value
    }

    method Mute(steamId: ULong)
      requires mutedSteamIds.Some?
      modifies this
      ensures mutedSteamIds == Some(Muted(old(mutedSteamIds.value), steamId))
      ensures mutedSteamIdsChanged ==
        old(mutedSteamIdsChanged) + if steamId in old(mutedSteamIds.value) then 0 else 1
      ensures IsMuted(steamId)
    {
      var list := mutedSteamIds.value;
      if steamId !in list {
        mutedSteamIds := Some(list + [steamId]);
        mutedSteamIdsChanged := mutedSteamIdsChanged + 1;
      }
    }

    method Unmute(steamId: ULong)
      requires mutedSteamIds.Some?
      modifies this
      ensures mutedSteamIds == Some(Unmuted(old(mutedSteamIds.value), steamId))
      ensures mutedSteamIdsChanged ==
        old(mutedSteamIdsChanged) + if steamId in old(mutedSteamIds.value) then 1 else 0
    {
      var list := mutedSteamIds.value;
      mutedSteamIds := Some(Seqs.RemoveFirst(list, steamId));
      if steamId in list {
        mutedSteamIdsChanged := mutedSteamIdsChanged + 1;
      }
    }
  }
}

/** TorchAlarm.Discord/TorchAlarm/TorchAlarmConfig.cs: the same registry, also starting null. */
module DiscordTorchAlarmConfig {
  import opened Numerics
  import opened Wrappers
  import opened MuteRegistry

  class TorchAlarmConfig {
    var mutedSteamIds: Option<seq<ULong>>
    /** How often `OnPropertyChanged(nameof(MutedSteamIds))` was raised by `Mute`/`Unmute`. */
    var mutedSteamIdsChanged: nat

    constructor ()
      ensures mutedSteamIds == None && mutedSteamIdsChanged == 0
    {
      mutedSteamIds := None;
      mutedSteamIdsChanged := 0;
    }

    method SetMutedSteamIds(value: Option<seq<ULong>>)
      modifies this`mutedSteamIds
      ensures mutedSteamIds == value
    {
      mutedSteamIds := value;
    }

    predicate IsMuted(steamId: ULong): (r: bool)
      requires mutedSteamIds.Some?
      reads this
      ensures r <==> multiset(mutedSteamIds.value)[steamId] > 0
    {
      steamId in mutedSteamIds.value
    }

    method Mute(steamId: ULong)
      requires mutedSteamIds.Some?
      modifies this
      ensures mutedSteamIds == Some(Muted(old(mutedSteamIds.value), steamId))
      ensures mutedSteamIdsChanged ==
        old(mutedSteamIdsChanged) + if steamId in old(mutedSteamIds.value) then 0 else 1
      ensures IsMuted(steamId)
    {
      var list := mutedSteamIds.value;
      if steamId !in list {
        mutedSteamIds := Some(list + [steamId]);
        mutedSteamIdsChanged := mutedSteamIdsChanged + 1;
      }
    }

    method Unmute(steamId: ULong)
      requires mutedSteamIds.Some?
      modifies this
      ensures mutedSteamIds == Some(Unmuted(old(mutedSteamIds.value), steamId))
      ensures mutedSteamIdsChanged ==
        old(mutedSteamIdsChanged) + if steamId in old(mutedSteamIds.value) then 1 else 0
    {
      var list := mutedSteamIds.value;
      mutedSteamIds := Some(Seqs.RemoveFirst(list, steamId));
      if steamId in list {
        mutedSteamIdsChanged := mutedSteamIdsChanged + 1;
      }
    }
  }
}
