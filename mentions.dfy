/** `Regex.Replace(message, @"<@!\d+>", "")`: one left-to-right pass that deletes every
    nickname mention `<@!` digits `>` it finds, resuming after each deletion. */
module Mentions {
  import opened Seqs
  import opened Text

  /** The number of leading decimal digits of `s`. */
  function DigitRun(s: string): (n: nat)
    ensures n <= |s|
    ensures forall i :: 0 <= i < n ==> IsDigit(s[i])
    ensures n < |s| ==> !IsDigit(s[n])
    decreases |s|
  {
    if s != [] && IsDigit(s[0]) then 1 + DigitRun(s[1..]) else 0
  }

  /** The length of the mention `s` starts with, or 0 when it does not start with one. As
      `>` is not a digit, the greedy `\d+` leaves only one way to match. */
  function MentionLength(s: string): (n: nat)
    ensures n == 0 || 5 <= n <= |s|
    ensures n > 0 ==> s[..3] == "<@!" && s[n - 1] == '>' && AllDigits(s[3..n - 1])
  {
    if |s| >= 3 && s[..3] == "<@!" then
      var k := DigitRun(s[3..]);
      if k > 0 && 3 + k < |s| && s[3 + k] == '>' then 4 + k else 0
    else 0
  }

  /** The regex replacement with the empty string. */
  function StripMentions(s: string): (r: string)
    ensures |r| <= |s|
    decreases |s|
  {
    if s == [] then []
    else
      var n := MentionLength(s);
      if n > 0 then StripMentions(s[n..]) else [s[0]] + StripMentions(s[1..])
  }

  /** A message without `<@!` has nothing to delete. */
  lemma {:induction false} StripWithoutMarker(s: string)
    requires !Occurs("<@!", s)
    ensures StripMentions(s) == s
    decreases |s|
  {
    if s != [] {
      assert !OccursAt("<@!", s, 0);
      assert MentionLength(s) == 0;
      assert !Occurs("<@!", s[1..]);
      StripWithoutMarker(s[1..]);
    }
  }

  /** The mention Discord puts in front of a message addressed to the bot. */
  function Mention(id: nat): string {
    "<@!" + Decimal(id) + ">"
  }

  lemma MentionMatches(id: nat, rest: string)
    ensures MentionLength(Mention(id) + rest) == |Mention(id)|
  {
    var s := Mention(id) + rest;
    var d := Decimal(id);
    assert s[..3] == "<@!";
    assert s[3..] == d + (">" + rest);
    assert !IsDigit('>');
    DigitRunPrefix(d, ">" + rest);
    assert DigitRun(s[3..]) == |d| >= 1;
    assert s[3 + |d|] == '>';
  }

  lemma {:induction false} DigitRunPrefix(d: string, rest: string)
    requires AllDigits(d)
    requires rest != [] && !IsDigit(rest[0])
    ensures DigitRun(d + rest) == |d|
    decreases |d|
  {
    if d != [] {
      assert (d + rest)[1..] == d[1..] + rest;
      DigitRunPrefix(d[1..], rest);
    } else {
      assert d + rest == rest;
    }
  }

  /** A leading mention is deleted and the rest is processed on its own. */
  lemma StripLeadingMention(id: nat, rest: string)
    ensures StripMentions(Mention(id) + rest) == StripMentions(rest)
  {
    MentionMatches(id, rest);
    assert (Mention(id) + rest)[|Mention(id)|..] == rest;
  }

  /** The characters that survive keep their order. */
  lemma {:induction false} StripIsSubsequence(s: string)
    ensures IsSubsequence(StripMentions(s), s)
    decreases |s|
  {
    if s == [] {
    } else {
      var n := MentionLength(s);
      if n > 0 {
        StripIsSubsequence(s[n..]);
        SubsequencePrefix(StripMentions(s[n..]), s[n..], s[..n]);
        assert s[..n] + s[n..] == s;
      } else {
        StripIsSubsequence(s[1..]);
        SubsequenceCons(StripMentions(s[1..]), s[1..], s[0]);
        assert [s[0]] + s[1..] == s;
      }
    }
  }

  /** Text put in front of the longer sequence keeps a subsequence a subsequence. */
  lemma {:induction false} SubsequencePrefix(a: string, b: string, p: string)
    requires IsSubsequence(a, b)
    ensures IsSubsequence(a, p + b)
    decreases |b|
  {
    if a != [] {
      assert DropLast(p + b) == p + DropLast(b) && Last(p + b) == Last(b);
      if Last(a) == Last(b) && IsSubsequence(DropLast(a), DropLast(b)) {
        SubsequencePrefix(DropLast(a), DropLast(b), p);
      } else {
        SubsequencePrefix(a, DropLast(b), p);
      }
    }
  }

  lemma {:induction false} SingletonSubsequence(x: char, b: string)
    ensures IsSubsequence([x], [x] + b)
    decreases |b|
  {
    if b != [] {
      assert DropLast([x] + b) == [x] + DropLast(b);
      SingletonSubsequence(x, DropLast(b));
    } else {
      assert DropLast([x]) == [];
    }
  }

  /** The same character in front of both keeps a subsequence a subsequence. */
  lemma {:induction false} SubsequenceCons(a: string, b: string, x: char)
    requires IsSubsequence(a, b)
    ensures IsSubsequence([x] + a, [x] + b)
    decreases |b|
  {
    if a == [] {
      SingletonSubsequence(x, b);
      assert [x] + a == [x];
    } else {
      assert DropLast([x] + b) == [x] + DropLast(b) && Last([x] + b) == Last(b);
      assert DropLast([x] + a) == [x] + DropLast(a) && Last([x] + a) == Last(a);
      if Last(a) == Last(b) && IsSubsequence(DropLast(a), DropLast(b)) {
        SubsequenceCons(DropLast(a), DropLast(b), x);
      } else {
        SubsequenceCons(a, DropLast(b), x);
      }
    }
  }

  /** A character that does not start a mention is kept. */
  lemma KeepFirstChar(c: char, rest: string)
    requires c != '<' || |rest| < 2 || rest[0] != '@' || rest[1] != '!'
    ensures StripMentions([c] + rest) == [c] + StripMentions(rest)
  {
    var s := [c] + rest;
    assert s[1..] == rest;
    if |s| >= 3 {
      assert s[..3][0] == c && s[..3][1] == rest[0] && s[..3][2] == rest[1];
    }
  }

  /** Without a digit after `<@!` there is no mention. */
  lemma NoDigitNoMention(s: string)
    requires |s| > 3 && !IsDigit(s[3])
    ensures MentionLength(s) == 0
  {
    assert s[3..][0] == s[3];
  }

  /** A mention needs the `!`: `<@123>` is kept. */
  lemma MentionNeedsBang(t: string)
    requires '<' !in t && (t == [] || t[0] != '!')
    ensures StripMentions("<@" + t) == "<@" + t
  {
    assert StripMentions(['@'] + t) == ['@'] + t by {
      NoOpenBracket(t);
      KeepFirstChar('@', t);
    }
    assert StripMentions(['<'] + (['@'] + t)) == ['<'] + (['@'] + t) by {
      KeepFirstChar('<', ['@'] + t);
    }
    assert "<@" + t == ['<'] + (['@'] + t);
  }

  /** A mention needs at least one digit: `<@!>` is kept. */
  lemma MentionNeedsDigit(t: string)
    requires '<' !in t
    ensures StripMentions("<@!>" + t) == "<@!>" + t
  {
    var v := "!>" + t;
    assert StripMentions(['@'] + v) == ['@'] + v by {
      NoOpenBracket(v);
      KeepFirstChar('@', v);
    }
    var w := "<@!>" + t;
    assert w == ['<'] + (['@'] + v);
    assert StripMentions(w) == ['<'] + StripMentions(w[1..]) by {
      assert w[3] == '>';
      NoDigitNoMention(w);
    }
  }

  /** Text without `<` holds no mention. */
  lemma {:induction false} NoOpenBracket(t: string)
    requires '<' !in t
    ensures !Occurs("<@!", t)
    ensures StripMentions(t) == t
    decreases |t|
  {
    if t != [] {
      assert '<' !in t[1..];
      NoOpenBracket(t[1..]);
      assert !OccursAt("<@!", t, 0) by {
        if |t| >= 3 {
          assert t[0..3][0] == t[0];
        }
      }
    }
    StripWithoutMarker(t);
  }

  /** One pass only: deleting a mention can join the `<@` before it and the text after it
      into a new mention, which stays: `<@<@!1>!2>` becomes `<@!2>`. */
  lemma OnePass(id: nat, t: string)
    requires '<' !in t
    ensures StripMentions("<@" + (Mention(id) + t)) == "<@" + t
  {
    var x := Mention(id) + t;
    calc {
      StripMentions("<@" + x);
      { assert "<@" + x == ['<'] + (['@'] + x); }
      StripMentions(['<'] + (['@'] + x));
      { assert x[0] == '<'; KeepFirstChar('<', ['@'] + x); }
      ['<'] + StripMentions(['@'] + x);
      { KeepFirstChar('@', x); }
      ['<'] + (['@'] + StripMentions(x));
      { StripLeadingMention(id, t); NoOpenBracket(t); }
      ['<'] + (['@'] + t);
      "<@" + t;
    }
  }

  /** A message without `<@!` has nothing stripped, and one that starts with a mention
      loses it. */
  lemma StripCases(message: string)
    ensures !Occurs("<@!", message) ==> StripMentions(message) == message
    ensures forall id: nat, rest: string :: message == Mention(id) + rest ==>
      StripMentions(message) == StripMentions(rest)
  {
    if !Occurs("<@!", message) {
      StripWithoutMarker(message);
    }
    forall id: nat, rest: string | message == Mention(id) + rest
      ensures StripMentions(message) == StripMentions(rest)
    {
      StripLeadingMention(id, rest);
    }
  }
}

/** Discord.Torch/Discord.Torch/DiscordUtils.cs. */
module DiscordTorchUtils {
  import opened Seqs
  import opened Text
  import opened Mentions

  /** `RemoveMentionPrefix`: the mentions deleted, then the white space trimmed from both
      ends. */
  function RemoveMentionPrefix(message: string): (r: string)
    ensures r == [] || (!IsWhiteSpace(r[0]) && !IsWhiteSpace(r[|r| - 1]))
    ensures !Occurs("<@!", message) ==> r == Trim(message, IsWhiteSpace)
    ensures forall id: nat, rest: string :: message == Mention(id) + rest ==>
      r == Trim(StripMentions(rest), IsWhiteSpace)
  {
    StripCases(message);
    Trim(StripMentions(message), IsWhiteSpace)
  }
}

/** TorchAlert/TorchAlert.Discord/DiscordUtils.cs. */
module TorchAlertDiscordUtils {
  import opened Seqs
  import opened Text
  import opened Mentions

  /** `RemoveMentionPrefix`: the mentions deleted, then the white space trimmed from both
      ends. */
  function RemoveMentionPrefix(message: string): (r: string)
    ensures r == [] || (!IsWhiteSpace(r[0]) && !IsWhiteSpace(r[|r| - 1]))
    ensures !Occurs("<@!", message) ==> r == Trim(message, IsWhiteSpace)
    ensures forall id: nat, rest: string :: message == Mention(id) + rest ==>
      r == Trim(StripMentions(rest), IsWhiteSpace)
  {
    StripCases(message);
    Trim(StripMentions(message), IsWhiteSpace)
  }
}
