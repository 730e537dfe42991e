/** Discord.Torch/Discord.Torch/DiscordIdentityLinkDb.cs: the steam id <-> discord id map, kept
    in both directions, and its tab-separated file. The file is a field of the object: `None`
    when it does not exist, otherwise its lines. */
module LinkDb {
  import opened Numerics
  import opened Wrappers
  import opened Seqs
  import opened Text

  const TAB: char := '\t'

  /** Both directions of the map. */
  datatype Links = Links(steamToDiscord: map<ULong, ULong>, discordToSteam: map<ULong, ULong>)

  /** `Update(steamId, discordId)` on the pair of maps. */
  function Link(links: Links, steamId: ULong, discordId: ULong): Links {
    Links(links.steamToDiscord[steamId := discordId], links.discordToSteam[discordId := steamId])
  }

  /** One line of the file as `Read` accepts it: it splits on tab into exactly two pieces and
      both parse as `ulong`. Any other line yields `None` and is skipped. */
  function ParseLine(line: string): (r: Option<(ULong, ULong)>)
    ensures r.Some? ==> multiset(line)[TAB] == 1
  {
    SplitCount(line, TAB);
    var ids := Split(line, TAB);
    if |ids| != 2 then None
    else
      var steamId, discordId := ParseULong(ids[0]), ParseULong(ids[1]);
      if steamId.Some? && discordId.Some? then Some((steamId.value, discordId.value)) else None
  }

  /** The line `Write` emits for one entry. */
  function FormatLine(steamId: ULong, discordId: ULong): string {
    Decimal(steamId) + [TAB] + Decimal(discordId)
  }

  /** Every line `Write` emits is read back as the same pair. */
  lemma ParseFormatLine(steamId: ULong, discordId: ULong)
    ensures ParseLine(FormatLine(steamId, discordId)) == Some((steamId, discordId))
  {
    var a, b := Decimal(steamId), Decimal(discordId);
    assert TAB !in a && TAB !in b by {
      assert !IsDigit(TAB);
    }
    SplitFirstPiece(a, b, TAB);
    SplitNoSeparator(b, TAB);
    assert Split(FormatLine(steamId, discordId), TAB) == [a, b];
    ParseDecimal(steamId);
    ParseDecimal(discordId);
  }

  /** A line with no tab, or with more than one, is skipped. */
  lemma LineNeedsOneTab(line: string)
    requires multiset(line)[TAB] != 1
    ensures ParseLine(line) == None
  {
    SplitCount(line, TAB);
  }

  /** The line-by-line parse of the file. */
  function ParseAll(lines: seq<string>): (r: seq<Option<(ULong, ULong)>>)
    ensures |r| == |lines|
    ensures forall i :: 0 <= i < |lines| ==> r[i] == ParseLine(lines[i])
  {
    seq(|lines|, i requires 0 <= i < |lines| => ParseLine(lines[i]))
  }

  /** The maps built from parsed lines: starting from empty maps, every accepted line is
      applied in order, so a later line overrides an earlier one. */
  function LoadEntries(entries: seq<Option<(ULong, ULong)>>): Links
    decreases |entries|
  {
    if entries == [] then Links(map[], map[])
    else
      var links := LoadEntries(DropLast(entries));
      match Last(entries)
      case Some((steamId, discordId)) => Link(links, steamId, discordId)
      case None => links
  }

  /** The maps `Read` builds from the file's lines. */
  function Load(lines: seq<string>): Links {
    LoadEntries(ParseAll(lines))
  }

  lemma LoadEntriesAppend(entries: seq<Option<(ULong, ULong)>>, e: Option<(ULong, ULong)>)
    ensures LoadEntries(entries + [e]) ==
      match e
      case Some((steamId, discordId)) => Link(LoadEntries(entries), steamId, discordId)
      case None => LoadEntries(entries)
  {
    assert DropLast(entries + [e]) == entries;
  }

  /** Entry `i` is accepted and carries steam id `s`. */
  predicate HasSteam(entries: seq<Option<(ULong, ULong)>>, i: int, s: ULong) {
    0 <= i < |entries| && entries[i].Some? && entries[i].value.0 == s
  }

  /** Entry `i` is accepted and carries discord id `d`. */
  predicate HasDiscord(entries: seq<Option<(ULong, ULong)>>, i: int, d: ULong) {
    0 <= i < |entries| && entries[i].Some? && entries[i].value.1 == d
  }

  /** A steam id is loaded exactly when some accepted line carries it, and it maps to the
      discord id of the last such line. */
  lemma {:induction false} LoadSteamToDiscord(entries: seq<Option<(ULong, ULong)>>, s: ULong)
    ensures s in LoadEntries(entries).steamToDiscord <==> exists i :: HasSteam(entries, i, s)
    ensures forall i :: (HasSteam(entries, i, s) &&
      forall j :: i < j < |entries| ==> !HasSteam(entries, j, s)) ==>
        LoadEntries(entries).steamToDiscord[s] == entries[i].value.1
    decreases |entries|
  {
    if entries != [] {
      var xs, x := DropLast(entries), Last(entries);
      assert entries == xs + [x];
      LoadSteamToDiscord(xs, s);
      LoadEntriesAppend(xs, x);
      forall i | HasSteam(xs, i, s) ensures HasSteam(entries, i, s) {
        assert entries[i] == xs[i];
      }
      forall i | HasSteam(entries, i, s) && i < |xs| ensures HasSteam(xs, i, s) {
        assert entries[i] == xs[i];
      }
      forall i | HasSteam(entries, i, s) && (forall j :: i < j < |entries| ==> !HasSteam(entries, j, s))
        ensures LoadEntries(entries).steamToDiscord[s] == entries[i].value.1
      {
        if i < |xs| {
          assert entries[i] == xs[i];
          assert !HasSteam(entries, |xs|, s);
          forall j | i < j < |xs| ensures !HasSteam(xs, j, s) {
            assert entries[j] == xs[j];
            assert !HasSteam(entries, j, s);
          }
        }
      }
    }
  }

  /** A discord id is loaded exactly when some accepted line carries it, and it maps to the
      steam id of the last such line. */
  lemma {:induction false} LoadDiscordToSteam(entries: seq<Option<(ULong, ULong)>>, d: ULong)
    ensures d in LoadEntries(entries).discordToSteam <==> exists i :: HasDiscord(entries, i, d)
    ensures forall i :: (HasDiscord(entries, i, d) &&
      forall j :: i < j < |entries| ==> !HasDiscord(entries, j, d)) ==>
        LoadEntries(entries).discordToSteam[d] == entries[i].value.0
    decreases |entries|
  {
    if entries != [] {
      var xs, x := DropLast(entries), Last(entries);
      assert entries == xs + [x];
      LoadDiscordToSteam(xs, d);
      LoadEntriesAppend(xs, x);
      forall i | HasDiscord(xs, i, d) ensures HasDiscord(entries, i, d) {
        assert entries[i] == xs[i];
      }
      forall i | HasDiscord(entries, i, d) && i < |xs| ensures HasDiscord(xs, i, d) {
        assert entries[i] == xs[i];
      }
      forall i | HasDiscord(entries, i, d) && (forall j :: i < j < |entries| ==> !HasDiscord(entries, j, d))
        ensures LoadEntries(entries).discordToSteam[d] == entries[i].value.0
      {
        if i < |xs| {
          assert entries[i] == xs[i];
          assert !HasDiscord(entries, |xs|, d);
          forall j | i < j < |xs| ensures !HasDiscord(xs, j, d) {
            assert entries[j] == xs[j];
            assert !HasDiscord(entries, j, d);
          }
        }
      }
    }
  }

  /** `order` lists every key of `m` exactly once: one enumeration of the dictionary. */
  ghost predicate Enumerates(order: seq<ULong>, m: map<ULong, ULong>) {
    NoDuplicates(order) && forall s :: s in order <==> s in m
  }

  /** The lines `Write` emits when the dictionary enumerates its keys in `order`. */
  function FormatAll(order: seq<ULong>, m: map<ULong, ULong>): seq<string>
    requires forall s :: s in order ==> s in m
    decreases |order|
  {
    if order == [] then []
    else FormatAll(DropLast(order), m) + [FormatLine(Last(order), m[Last(order)])]
  }

  lemma ParseAllAppend(lines: seq<string>, line: string)
    ensures ParseAll(lines + [line]) == ParseAll(lines) + [ParseLine(line)]
  {
  }

  /** The entries `FormatAll` writes, as they are parsed back. */
  function Written(order: seq<ULong>, m: map<ULong, ULong>): seq<Option<(ULong, ULong)>>
    requires forall s :: s in order ==> s in m
    decreases |order|
  {
    if order == [] then []
    else Written(DropLast(order), m) + [Some((Last(order), m[Last(order)]))]
  }

  lemma {:induction false} ParseFormatAll(order: seq<ULong>, m: map<ULong, ULong>)
    requires forall s :: s in order ==> s in m
    ensures ParseAll(FormatAll(order, m)) == Written(order, m)
    decreases |order|
  {
    if order != [] {
      var xs, x := DropLast(order), Last(order);
      assert order == xs + [x];
      ParseFormatAll(xs, m);
      ParseAllAppend(FormatAll(xs, m), FormatLine(x, m[x]));
      ParseFormatLine(x, m[x]);
    }
  }

  /** Loading the entries written from `m` in any order gives back `m` itself, and as the
      reverse map, a map from each of `m`'s values to a steam id that `m` links to it. */
  lemma {:induction false} LoadWritten(order: seq<ULong>, m: map<ULong, ULong>)
    requires forall s :: s in order ==> s in m
    ensures forall s :: s in LoadEntries(Written(order, m)).steamToDiscord <==> s in order
    ensures forall s :: s in LoadEntries(Written(order, m)).steamToDiscord ==>
      LoadEntries(Written(order, m)).steamToDiscord[s] == m[s]
    ensures forall d :: d in LoadEntries(Written(order, m)).discordToSteam ==>
      var s := LoadEntries(Written(order, m)).discordToSteam[d]; s in order && m[s] == d
    ensures forall s :: s in order ==> m[s] in LoadEntries(Written(order, m)).discordToSteam
    decreases |order|
  {
    if order != [] {
      var xs, x := DropLast(order), Last(order);
      assert order == xs + [x];
      LoadWritten(xs, m);
      LoadEntriesAppend(Written(xs, m), Some((x, m[x])));
    }
  }

  lemma WrittenRoundTrip(order: seq<ULong>, m: map<ULong, ULong>)
    requires Enumerates(order, m)
    ensures var loaded := LoadEntries(Written(order, m));
      loaded.steamToDiscord == m &&
      (forall d :: d in loaded.discordToSteam <==> d in m.Values) &&
      (forall d :: d in loaded.discordToSteam ==>
        loaded.discordToSteam[d] in m && m[loaded.discordToSteam[d]] == d)
  {
    LoadWritten(order, m);
    var loaded := LoadEntries(Written(order, m));
    assert loaded.steamToDiscord.Keys == m.Keys;
    forall d | d in m.Values ensures d in loaded.discordToSteam {
      var s :| s in m && m[s] == d;
    }
  }

  /** `Write` followed by `Read` restores the steam-to-discord map exactly, and the reverse
      map then holds exactly its values, each mapped to a steam id linked to it. */
  lemma WriteReadRoundTrip(order: seq<ULong>, m: map<ULong, ULong>)
    requires Enumerates(order, m)
    ensures var loaded := Load(FormatAll(order, m));
      loaded.steamToDiscord == m &&
      (forall d :: d in loaded.discordToSteam <==> d in m.Values) &&
      (forall d :: d in loaded.discordToSteam ==>
        loaded.discordToSteam[d] in m && m[loaded.discordToSteam[d]] == d)
  {
    ParseFormatAll(order, m);
    WrittenRoundTrip(order, m);
  }

  class DiscordIdentityLinkDb {
    var steamToDiscord: map<ULong, ULong>
    var discordToSteam: map<ULong, ULong>
    /** The file at `_filePath`. */
    var file: Option<seq<string>>

    constructor (file: Option<seq<string>>)
      ensures steamToDiscord == map[] && discordToSteam == map[]
      ensures this.file == file
    {
      steamToDiscord := map[];
      discordToSteam := map[];
      this.file := file;
    }

    /** `Read`: clears both maps, creates an empty file when there is none, and otherwise
        loads the file's lines. */
    method Read()
      modifies this
      ensures file == Some(old(file).GetOr([]))
      ensures Links(steamToDiscord, discordToSteam) == Load(old(file).GetOr([]))
    {
      steamToDiscord := map[];
      discordToSteam := map[];
      if file.None? {
        file := Some([]);
        return;
      }
      var lines := file.value;
      for i := 0 to |lines|
        invariant file == Some(lines)
        invariant Links(steamToDiscord, discordToSteam) == Load(lines[..i])
      {
        var line := lines[i];
        assert lines[..i + 1] == lines[..i] + [line];
        ParseAllAppend(lines[..i], line);
        LoadEntriesAppend(ParseAll(lines[..i]), ParseLine(line));
        var ids := Split(line, TAB);
        if |ids| == 2 {
          var steamId := ParseULong(ids[0]);
          var discordId := ParseULong(ids[1]);
          if steamId.Some? && discordId.Some? {
            steamToDiscord := steamToDiscord[steamId.value := discordId.value];
            discordToSteam := discordToSteam[discordId.value := steamId.value];
          }
        }
      }
      assert lines[..|lines|] == lines;
    }

    /** `Write`: one line per entry of the steam-to-discord map, in the dictionary's
        enumeration order, replaces the file. */
    method Write() returns (ghost order: seq<ULong>)
      modifies this`file
      ensures Enumerates(order, steamToDiscord)
      ensures file == Some(FormatAll(order, steamToDiscord))
    {
      var lines: seq<string> := [];
      var remaining := steamToDiscord.Keys;
      order := [];
      while remaining != {}
        invariant remaining <= steamToDiscord.Keys
        invariant NoDuplicates(order)
        invariant forall s :: s in order <==> s in steamToDiscord && s !in remaining
        invariant lines == FormatAll(order, steamToDiscord)
        decreases remaining
      {
        assert exists s :: s in remaining by {
          if forall s :: s !in remaining {
            assert false;
          }
        }
        var steamId :| steamId in remaining;
        assert DropLast(order + [steamId]) == order;
        lines := lines + [FormatLine(steamId, steamToDiscord[steamId])];
        order := order + [steamId];
        remaining := remaining - {steamId};
      }
      file := Some(lines);
    }

    /** `Update`: both directions are overwritten; a stale entry in either map stays. */
    method Update(steamId: ULong, discordId: ULong)
      modifies this`steamToDiscord, this`discordToSteam
      ensures Links(steamToDiscord, discordToSteam) ==
        Link(Links(old(steamToDiscord), old(discordToSteam)), steamId, discordId)
      ensures TryGetDiscordId(steamId) == (true, discordId)
      ensures TryGetSteamId(discordId) == (true, steamId)
      ensures old(steamToDiscord).Keys <= steamToDiscord.Keys
      ensures old(discordToSteam).Keys <= discordToSteam.Keys
    {
      steamToDiscord := steamToDiscord[steamId := discordId];
      discordToSteam := discordToSteam[discordId := steamId];
    }

    /** `TryGetDiscordId`: the out value is 0 when the steam id is unknown. */
    function TryGetDiscordId(steamId: ULong): (r: (bool, ULong))
      reads this
      ensures r.0 <==> steamId in steamToDiscord
      ensures r.0 ==> r.1 == steamToDiscord[steamId]
      ensures !r.0 ==> r.1 == 0
    {
      if steamId in steamToDiscord then (true, steamToDiscord[steamId]) else (false, 0)
    }

    /** `TryGetSteamId`: the out value is 0 when the discord id is unknown. */
    function TryGetSteamId(discordId: ULong): (r: (bool, ULong))
      reads this
      ensures r.0 <==> discordId in discordToSteam
      ensures r.0 ==> r.1 == discordToSteam[discordId]
      ensures !r.0 ==> r.1 == 0
    {
      if discordId in discordToSteam then (true, discordToSteam[discordId]) else (false, 0)
    }

    /** `HasDiscordLink`: holds exactly when `TryGetDiscordId` succeeds. */
    predicate HasDiscordLink(steamId: ULong): (r: bool)
      reads this
      ensures r <==> TryGetDiscordId(steamId).0
    {
      steamId in steamToDiscord
    }

    /** `Write` then `Read` leaves the steam-to-discord map as it was; the reverse map is
        rebuilt from it and keeps no stale discord id. */
    method WriteThenRead()
      modifies this
      ensures steamToDiscord == old(steamToDiscord)
      ensures forall d :: d in discordToSteam <==> d in steamToDiscord.Values
    {
      ghost var order := Write();
      ghost var m := steamToDiscord;
      Read();
      WriteReadRoundTrip(order, m);
    }
  }

  /** After `Update(s, d1)` and then `Update(s, d2)`, `d1` still looks up `s`. */
  method StaleEntryStays(db: DiscordIdentityLinkDb, s: ULong, d1: ULong, d2: ULong)
    requires d1 != d2
    modifies db
    ensures db.TryGetSteamId(d1) == (true, s)
    ensures db.TryGetSteamId(d2) == (true, s)
    ensures db.TryGetDiscordId(s) == (true, d2)
  {
    db.Update(s, d1);
    db.Update(s, d2);
  }
}
