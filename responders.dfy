/** `ITorchDiscordMessageListener.TryRespond`, which TorchAlert/TorchAlert.Core/TorchAlert.cs and
    TorchAlert/TorchAlert/TorchAlertPlugin.cs implement alike: a substring test on the message
    decides between unmuting and muting the sender. The player name the game session looks up
    for the sender is a parameter. */
module MuteCommands {
  import opened Seqs

  datatype Command = Unmute | Mute | Unknown

  /** The two substring tests, the unmute test first. */
  function Classify(message: string): (c: Command)
    ensures c == Unmute <==> Occurs("start", message) || Occurs("unmute", message)
    ensures c == Mute <==>
      !Occurs("start", message) && !Occurs("unmute", message) &&
      (Occurs("stop", message) || Occurs("mute", message))
  {
    if Occurs("start", message) || Occurs("unmute", message) then Unmute
    else if Occurs("stop", message) || Occurs("mute", message) then Mute
    else Unknown
  }

  /** "unmute" contains "mute": every message that would unmute also passes the mute test,
      so only the order of the tests keeps "unmute" from muting. */
  lemma UnmuteContainsMute(message: string)
    requires Occurs("unmute", message)
    ensures Occurs("mute", message)
    ensures Classify(message) == Unmute
  {
    var i := OccursWitness("unmute", message);
    assert message[i + 2..i + 6] == message[i..i + 6][2..];
    OccursAtOccurs("mute", message, i + 2);
  }

  /** A message saying both "start" and "stop" unmutes. */
  lemma StartWinsOverStop(message: string)
    requires Occurs("start", message) && Occurs("stop", message)
    ensures Classify(message) == Unmute
  {
  }

  /** "mute" alone mutes: the word occurs, but neither "start" nor "unmute" does. */
  lemma MuteAloneMutes()
    ensures Classify("mute") == Mute
  {
    assert !Occurs("start", "mute");
    assert !Occurs("unmute", "mute");
    assert OccursAt("mute", "mute", 0);
  }

  function StartedResponse(playerName: string): string {
    "Alerts started by \"" + playerName + "\""
  }

  function StoppedResponse(playerName: string): string {
    "Alerts stopped by \"" + playerName + "\""
  }
}

/** TorchAlert/TorchAlert.Core/TorchAlert.cs: `TryRespond` over the config's mute list. */
module TorchAlertResponder {
  import opened Numerics
  import opened Wrappers
  import opened Seqs
  import opened MuteRegistry
  import opened MuteCommands
  import opened TorchAlertConfig

  /** `TryRespond(steamId, message, out response)`: `response` is `None` where the source
      leaves it null. */
  method TryRespond(config: TorchAlertConfig, steamId: ULong, playerName: string, message: string)
    returns (handled: bool, response: Option<string>)
    modifies config
    ensures handled <==> Classify(message) != Unknown
    ensures Classify(message) == Unmute ==>
      config.mutedSteamIds == Unmuted(old(config.mutedSteamIds), steamId) &&
      response == Some(StartedResponse(playerName))
    ensures Classify(message) == Mute ==>
      config.mutedSteamIds == Muted(old(config.mutedSteamIds), steamId) &&
      response == Some(StoppedResponse(playerName))
    ensures Classify(message) == Unknown ==>
      response == None && unchanged(config)
  {
    if Occurs("start", message) || Occurs("unmute", message) {
      config.Unmute(steamId);
      return true, Some("Alerts started by \"" + playerName + "\"");
    }
    if Occurs("stop", message) || Occurs("mute", message) {
      config.Mute(steamId);
      return true, Some("Alerts stopped by \"" + playerName + "\"");
    }
    return false, None;
  }
}

/** TorchAlert/TorchAlert/TorchAlertPlugin.cs: the same `TryRespond`, over the plugin's
    `Config`. */
module TorchAlertPluginResponder {
  import opened Numerics
  import opened Wrappers
  import opened Seqs
  import opened MuteRegistry
  import opened MuteCommands
  import opened TorchAlertConfig

  method TryRespond(config: TorchAlertConfig, steamId: ULong, playerName: string, message: string)
    returns (handled: bool, response: Option<string>)
    modifies config
    ensures handled <==> Classify(message) != Unknown
    ensures Classify(message) == Unmute ==>
      config.mutedSteamIds == Unmuted(old(config.mutedSteamIds), steamId) &&
      response == Some(StartedResponse(playerName))
    ensures Classify(message) == Mute ==>
      config.mutedSteamIds == Muted(old(config.mutedSteamIds), steamId) &&
      response == Some(StoppedResponse(playerName))
    ensures Classify(message) == Unknown ==>
      response == None && unchanged(config)
  {
    if Occurs("start", message) || Occurs("unmute", message) {
      config.Unmute(steamId);
      return true, Some("Alerts started by \"" + playerName + "\"");
    }
    if Occurs("stop", message) || Occurs("mute", message) {
      config.Mute(steamId);
      return true, Some("Alerts stopped by \"" + playerName + "\"");
    }
    return false, None;
  }

  /** Sending "unmute" never mutes: the sender ends up unmuted. */
  method UnmuteNeverMutes(config: TorchAlertConfig, steamId: ULong, playerName: string)
    requires NoDuplicates(config.mutedSteamIds)
    modifies config
    ensures !config.IsMuted(steamId)
  {
    assert Occurs("unmute", "unmute") by {
      OccursAtOccurs("unmute", "unmute", 0);
    }
    UnmuteContainsMute("unmute");
    UnmuteOnNoDuplicates(config.mutedSteamIds, steamId);
    var handled, response := TryRespond(config, steamId, playerName, "unmute");
  }
}
