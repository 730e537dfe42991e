/** The text the alert clients build: `String.Replace` on a message format and
    `StringBuilder.AppendLine` over the formatted lines. */
module Templates {
  import opened Seqs
  import opened Text

  /** `Environment.NewLine` on Windows, where the game server runs. */
  const NEWLINE: string := "\r\n"

  /** `s.Replace(pattern, value)`: one left-to-right scan that swaps each occurrence of
      `pattern` for `value` and resumes after it, so occurrences do not overlap and the
      inserted value is never scanned again. .NET throws on an empty pattern. */
  function Replace(s: string, pattern: string, value: string): string
    requires pattern != []
    decreases |s|
  {
    if |s| < |pattern| then s
    else if s[..|pattern|] == pattern then value + Replace(s[|pattern|..], pattern, value)
    else [s[0]] + Replace(s[1..], pattern, value)
  }

  /** A text without the pattern comes back unchanged. */
  lemma {:induction false} ReplaceWithoutPattern(s: string, pattern: string, value: string)
    requires pattern != [] && !Occurs(pattern, s)
    ensures Replace(s, pattern, value) == s
    decreases |s|
  {
    if |s| >= |pattern| {
      assert !OccursAt(pattern, s, 0);
      ReplaceWithoutPattern(s[1..], pattern, value);
    }
  }

  /** Replacing a pattern by itself changes nothing. */
  lemma {:induction false} ReplaceBySelf(s: string, pattern: string)
    requires pattern != []
    ensures Replace(s, pattern, pattern) == s
    decreases |s|
  {
    if |s| >= |pattern| {
      if s[..|pattern|] == pattern {
        ReplaceBySelf(s[|pattern|..], pattern);
        assert s[..|pattern|] + s[|pattern|..] == s;
      } else {
        ReplaceBySelf(s[1..], pattern);
        assert [s[0]] + s[1..] == s;
      }
    }
  }

  /** A prefix without the pattern's first character is copied as it is. */
  lemma {:induction false} ReplaceSkipsPrefix(a: string, t: string, pattern: string, value: string)
    requires pattern != [] && pattern[0] !in a
    ensures Replace(a + t, pattern, value) == a + Replace(t, pattern, value)
    decreases |a|
  {
    if a != [] {
      var s := a + t;
      if |s| >= |pattern| {
        assert s[..|pattern|][0] == a[0];
        assert s[..|pattern|] != pattern;
        assert s[1..] == a[1..] + t;
        ReplaceSkipsPrefix(a[1..], t, pattern, value);
        assert [a[0]] + (a[1..] + Replace(t, pattern, value)) == a + Replace(t, pattern, value);
      } else {
        assert Replace(s, pattern, value) == s;
        assert Replace(t, pattern, value) == t;
      }
    } else {
      assert a + t == t;
    }
  }

  /** A text without the pattern's first character comes back unchanged. */
  lemma ReplaceWithoutFirstChar(s: string, pattern: string, value: string)
    requires pattern != [] && pattern[0] !in s
    ensures Replace(s, pattern, value) == s
  {
    ReplaceSkipsPrefix(s, [], pattern, value);
    assert s + [] == s;
  }

  /** A placeholder between two texts free of its first character is filled with the
      value, and nothing else changes. */
  lemma ReplaceFillsHole(a: string, b: string, pattern: string, value: string)
    requires pattern != [] && pattern[0] !in a && pattern[0] !in b
    ensures Replace(a + pattern + b, pattern, value) == a + value + b
  {
    ReplaceSkipsPrefix(a, pattern + b, pattern, value);
    var s := pattern + b;
    assert s[..|pattern|] == pattern && s[|pattern|..] == b;
    ReplaceWithoutFirstChar(b, pattern, value);
    assert a + pattern + b == a + s;
  }

  /** A different placeholder with the same first character, and that character nowhere
      else, is left alone. */
  lemma OtherPlaceholderKept(q: string, pattern: string, value: string)
    requires pattern != [] && q != [] && q[0] == pattern[0] && pattern[0] !in q[1..]
    requires |q| < |pattern| || q[..|pattern|] != pattern
    ensures Replace(q, pattern, value) == q
  {
    if |q| >= |pattern| {
      ReplaceWithoutFirstChar(q[1..], pattern, value);
      assert [q[0]] + q[1..] == q;
    }
  }

  /** The text a `StringBuilder` holds after `AppendLine` on each line in turn. */
  function AppendLines(lines: seq<string>): string
    decreases |lines|
  {
    if lines == [] then [] else lines[0] + NEWLINE + AppendLines(lines[1..])
  }

  /** One more `AppendLine` adds the line and a line break at the end. */
  lemma {:induction false} AppendLinesSnoc(lines: seq<string>, line: string)
    ensures AppendLines(lines + [line]) == AppendLines(lines) + (line + NEWLINE)
    decreases |lines|
  {
    if lines == [] {
      assert lines + [line] == [line];
    } else {
      assert (lines + [line])[1..] == lines[1..] + [line];
      AppendLinesSnoc(lines[1..], line);
    }
  }

  /** Each line of the message, with the carriage return of its line break still on it. */
  function Terminated(lines: seq<string>): (r: seq<string>)
    ensures |r| == |lines|
    ensures forall i :: 0 <= i < |r| ==> r[i] == lines[i] + ['\r']
  {
    seq(|lines|, i requires 0 <= i < |lines| => lines[i] + ['\r'])
  }

  /** The first line, up to the `'\n'` of its line break, is the first piece. */
  lemma AppendLinesFirstPiece(lines: seq<string>)
    requires lines != [] && '\n' !in lines[0]
    ensures Split(AppendLines(lines), '\n') ==
      [lines[0] + ['\r']] + Split(AppendLines(lines[1..]), '\n')
  {
    var first := lines[0] + ['\r'];
    var rest := AppendLines(lines[1..]);
    assert AppendLines(lines) == first + ['\n'] + rest by {
      assert NEWLINE == ['\r'] + ['\n'];
    }
    SplitFirstPiece(first, rest, '\n');
  }

  /** Splitting the message at `'\n'` gives the lines back, each with its `'\r'`, and an
      empty piece after the last line break. */
  lemma {:induction false} AppendLinesSplit(lines: seq<string>)
    requires forall i :: 0 <= i < |lines| ==> '\n' !in lines[i]
    ensures Split(AppendLines(lines), '\n') == Terminated(lines) + [[]]
    decreases |lines|
  {
    if lines != [] {
      AppendLinesFirstPiece(lines);
      AppendLinesSplit(lines[1..]);
      assert Terminated(lines) == [lines[0] + ['\r']] + Terminated(lines[1..]);
    }
  }
}
