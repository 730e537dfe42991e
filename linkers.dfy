/** The link-code counter both identity linkers share: `_nextLinkId++` on a C# `int`. */
module LinkCodes {
  import opened Numerics

  /** The code handed out by the `k`-th `GenerateLinkId` call after the counter was `start`. */
  function Code(start: Int32, k: nat): Int32 {
    Wrap32(start + k)
  }

  /** One post-increment moves the counter from the `k`-th code to the next. */
  lemma NextCode(start: Int32, k: nat)
    ensures Wrap32(Code(start, k) + 1) == Code(start, k + 1)
  {
    var c := Code(start, k);
    var n := Wrap32(c + 1);
    var m := Code(start, k + 1);
    assert (n - (c + 1)) % TWO_TO_THE_32 == 0;
    assert (c - (start + k)) % TWO_TO_THE_32 == 0;
    assert (m - (start + k + 1)) % TWO_TO_THE_32 == 0;
    WrapDifference(n, m);
  }

  /** Two 32-bit values that agree modulo 2^32 are equal. */
  lemma WrapDifference(a: Int32, b: Int32)
    requires (a - b) % TWO_TO_THE_32 == 0
    ensures a == b
  {
  }

  /** Codes handed out by the same linker differ until the counter has gone all the way
      round the 32-bit range. */
  lemma CodesDistinct(start: Int32, j: nat, k: nat)
    requires j < k < TWO_TO_THE_32 + j
    ensures Code(start, j) != Code(start, k)
  {
  }
}

/** Discord.Torch/Discord.Torch/DiscordIdentityLinker.cs: link codes over the file-backed
    `DiscordIdentityLinkDb`, consumed when redeemed. */
module IdentityLinker {
  import opened Numerics
  import opened LinkDb
  import opened LinkCodes

  const SHORT_MAX: int := 32767

  class DiscordIdentityLinker {
    const db: DiscordIdentityLinkDb
    var linkIds: map<Int32, ULong>
    var nextLinkId: Int32

    /** `start` is the value `new Random().Next(0, short.MaxValue / 2)` drew. */
    constructor (db: DiscordIdentityLinkDb, start: int)
      requires 0 <= start < SHORT_MAX / 2
      ensures this.db == db && linkIds == map[] && nextLinkId == start
      ensures 0 <= nextLinkId < 16383
    {
      this.db := db;
      linkIds := map[];
      nextLinkId := start;
    }

    /** `TryGetSteamId`, answered by the db. */
    function TryGetSteamId(discordId: ULong): (r: (bool, ULong))
      reads this, db
      ensures r.0 <==> discordId in db.discordToSteam
      ensures r.0 ==> r.1 == db.discordToSteam[discordId]
    {
      db.TryGetSteamId(discordId)
    }

    /** `TryGetDiscordId`, answered by the db. */
    function TryGetDiscordId(steamId: ULong): (r: (bool, ULong))
      reads this, db
      ensures r.0 <==> steamId in db.steamToDiscord
      ensures r.0 ==> r.1 == db.steamToDiscord[steamId]
    {
      db.TryGetDiscordId(steamId)
    }

    /** `GenerateLinkId`: hands out the counter, post-increments it, and maps the code to the
        requesting steam id; the other outstanding codes are kept. */
    method GenerateLinkId(steamId: ULong) returns (linkId: Int32)
      modifies this`linkIds, this`nextLinkId
      ensures linkId == old(nextLinkId)
      ensures nextLinkId == Wrap32(linkId + 1)
      ensures linkIds == old(linkIds)[linkId := steamId]
    {
      linkId := nextLinkId;
      nextLinkId := Wrap32(nextLinkId + 1);
      linkIds := linkIds[linkId := steamId];
    }

    /** `TryMakeLink`: an unknown code fails with out value 0 and changes nothing. A known code
        links its steam id to `discordId` in the db, writes the db's file and is removed. */
    method TryMakeLink(linkId: Int32, discordId: ULong) returns (ok: bool, steamId: ULong)
      modifies this`linkIds, db
      ensures ok <==> linkId in old(linkIds)
      ensures !ok ==> steamId == 0 && linkIds == old(linkIds) && unchanged(db)
      ensures ok ==> steamId == old(linkIds)[linkId] && linkIds == old(linkIds) - {linkId}
      ensures ok ==> (Links(db.steamToDiscord, db.discordToSteam) ==
        Link(Links(old(db.steamToDiscord), old(db.discordToSteam)), steamId, discordId))
      ensures ok ==> db.file.Some? && Load(db.file.value).steamToDiscord == db.steamToDiscord
      ensures ok ==> TryGetDiscordId(steamId) == (true, discordId)
      ensures ok ==> TryGetSteamId(discordId) == (true, steamId)
    {
      if linkId in linkIds {
        steamId := linkIds[linkId];
        db.Update(steamId, discordId);
        ghost var order := db.Write();
        WriteReadRoundTrip(order, db.steamToDiscord);
        linkIds := linkIds - {linkId};
        return true, steamId;
      }
      return false, 0;
    }
  }

  /** Two codes generated one after the other are consecutive and distinct, and both stay
      redeemable. */
  method GenerateTwice(linker: DiscordIdentityLinker, s1: ULong, s2: ULong) returns (c1: Int32, c2: Int32)
    modifies linker
    ensures c2 == Wrap32(c1 + 1) && c1 != c2
    ensures linker.linkIds == old(linker.linkIds)[c1 := s1][c2 := s2]
    ensures linker.linkIds[c1] == s1 && linker.linkIds[c2] == s2
  {
    c1 := linker.GenerateLinkId(s1);
    c2 := linker.GenerateLinkId(s2);
    assert c1 == Code(c1, 0);
    NextCode(c1, 0);
    CodesDistinct(c1, 0, 1);
  }

  /** A code is good for one link only: redeeming it again fails. */
  method RedeemTwice(linker: DiscordIdentityLinker, linkId: Int32, d1: ULong, d2: ULong)
    returns (first: bool, second: bool)
    modifies linker, linker.db
    ensures first <==> linkId in old(linker.linkIds)
    ensures !second
  {
    var s1, s2;
    first, s1 := linker.TryMakeLink(linkId, d1);
    second, s2 := linker.TryMakeLink(linkId, d2);
  }
}

/** TorchAlarm/TorchAlarm.Discord/DiscordIdentityLinker.cs: link codes over a link store,
    never consumed. */
module AlarmIdentityLinker {
  import opened Numerics
  import opened LinkCodes

  /** The store behind `TryGetLinkByDiscordId`, `TryGetLinkBySteamId` and `MakeLink`, held
      as one map per direction. */
  class IdentityLinkStore {
    var bySteam: map<ULong, ULong>
    var byDiscord: map<ULong, ULong>

    constructor ()
      ensures bySteam == map[] && byDiscord == map[]
    {
      bySteam := map[];
      byDiscord := map[];
    }

    /** `MakeLink`: afterwards each id finds the other. */
    method MakeLink(steamId: ULong, discordId: ULong)
      modifies this
      ensures bySteam == old(bySteam)[steamId := discordId]
      ensures byDiscord == old(byDiscord)[discordId := steamId]
    {
      bySteam := bySteam[steamId := discordId];
      byDiscord := byDiscord[discordId := steamId];
    }
  }

  class DiscordIdentityLinker {
    const db: IdentityLinkStore
    var linkIds: map<Int32, ULong>
    var nextLinkId: Int32

    /** `start` is the value `new Random().Next(0, int.MaxValue / 2)` drew. */
    constructor (db: IdentityLinkStore, start: int)
      requires 0 <= start < INT_MAX / 2
      ensures this.db == db && linkIds == map[] && nextLinkId == start
      ensures 0 <= nextLinkId < 1073741823
    {
      this.db := db;
      linkIds := map[];
      nextLinkId := start;
    }

    /** `TryGetLinkedSteamUser`: the linked steam id, or false with out value 0. */
    function TryGetLinkedSteamUser(discordId: ULong): (r: (bool, ULong))
      reads this, db
      ensures r.0 <==> discordId in db.byDiscord
      ensures r.0 ==> r.1 == db.byDiscord[discordId]
      ensures !r.0 ==> r.1 == 0
    {
      if discordId in db.byDiscord then (true, db.byDiscord[discordId]) else (false, 0)
    }

    /** `TryGetLinkedDiscordId`: the linked discord id, or false with out value 0. */
    function TryGetLinkedDiscordId(steamId: ULong): (r: (bool, ULong))
      reads this, db
      ensures r.0 <==> steamId in db.bySteam
      ensures r.0 ==> r.1 == db.bySteam[steamId]
      ensures !r.0 ==> r.1 == 0
    {
      if steamId in db.bySteam then (true, db.bySteam[steamId]) else (false, 0)
    }

    /** `GenerateLinkId`: hands out the counter, post-increments it, and maps the code to the
        requesting steam id. */
    method GenerateLinkId(steamId: ULong) returns (linkId: Int32)
      modifies this`linkIds, this`nextLinkId
      ensures linkId == old(nextLinkId)
      ensures nextLinkId == Wrap32(linkId + 1)
      ensures linkIds == old(linkIds)[linkId := steamId]
    {
      linkId := nextLinkId;
      nextLinkId := Wrap32(nextLinkId + 1);
      linkIds := linkIds[linkId := steamId];
    }

    /** `TryMakeLink`: an unknown code fails with out value 0 and leaves the store alone; a
        known code links its steam id to `discordId`. The code is never removed. */
    method TryMakeLink(linkId: Int32, discordId: ULong) returns (ok: bool, steamId: ULong)
      modifies db
      ensures ok <==> linkId in linkIds
      ensures !ok ==> steamId == 0 && unchanged(db)
      ensures ok ==> steamId == linkIds[linkId]
      ensures ok ==> db.bySteam == old(db.bySteam)[steamId := discordId]
      ensures ok ==> db.byDiscord == old(db.byDiscord)[discordId := steamId]
      ensures ok ==> TryGetLinkedSteamUser(discordId) == (true, steamId)
      ensures ok ==> TryGetLinkedDiscordId(steamId) == (true, discordId)
    {
      if linkId in linkIds {
        steamId := linkIds[linkId];
        db.MakeLink(steamId, discordId);
        return true, steamId;
      }
      return false, 0;
    }
  }

  /** Because codes are not consumed, a second discord account can redeem the same code: both
      redemptions succeed and hand back the same steam id, and the code stays redeemable. */
  method RedeemTwice(linker: DiscordIdentityLinker, linkId: Int32, d1: ULong, d2: ULong)
    returns (first: bool, second: bool, s1: ULong, s2: ULong)
    requires linkId in linker.linkIds
    modifies linker.db
    ensures first && second
    ensures s1 == s2 == linker.linkIds[linkId]
    ensures linkId in linker.linkIds
  {
    first, s1 := linker.TryMakeLink(linkId, d1);
    second, s2 := linker.TryMakeLink(linkId, d2);
  }

  /** What the two redemptions leave behind holds for the two-map `IdentityLinkStore` this
      model assumes, where `MakeLink` overwrites each direction: the second account takes
      over the steam id's forward link, and the first account still finds the steam id. The
      program's own SQLite store does not say which row a lookup returns. */
  method RedeemTwiceInTwoMapStore(linker: DiscordIdentityLinker, linkId: Int32, d1: ULong, d2: ULong)
    returns (first: bool, second: bool)
    requires linkId in linker.linkIds
    modifies linker.db
    ensures first && second
    ensures linker.TryGetLinkedDiscordId(linker.linkIds[linkId]) == (true, d2)
    ensures linker.TryGetLinkedSteamUser(d1) == (true, linker.linkIds[linkId])
    ensures linker.TryGetLinkedSteamUser(d2) == (true, linker.linkIds[linkId])
  {
    var s1, s2;
    first, s1 := linker.TryMakeLink(linkId, d1);
    second, s2 := linker.TryMakeLink(linkId, d2);
  }
}
