/**
 * The string operations of the .NET base library that the request logger
 * relies on: `String.IndexOf` (ordinal and ordinal-ignore-case),
 * `String.Contains`, `String.TrimEnd` and the line rendering of a
 * `StringBuilder` filled with `AppendLine`.
 */
module Text {

  /** `Environment.NewLine` on the .NET Framework. */
  const NewLine: string := "\r\n"

  /** The characters `TrimEnd(Environment.NewLine.ToCharArray())` strips. */
  const NewLineChars: set<char> := {'\r', '\n'}

  /** Upper-case mapping used by ordinal-ignore-case comparison (ASCII letters only). */
  function Upper(c: char): char
  {
    if 'a' <= c <= 'z' then (c as int - 32) as char else c
  }

  predicate CharEquals(a: char, b: char, ignoreCase: bool)
  {
    if ignoreCase then Upper(a) == Upper(b) else a == b
  }

  /** `String.Equals(a, b, StringComparison.OrdinalIgnoreCase)`. */
  predicate EqualsIgnoreCase(a: string, b: string)
  {
    |a| == |b| && forall i :: 0 <= i < |a| ==> CharEquals(a[i], b[i], true)
  }

  /** Pattern `p` occurs in `s` starting at index `i`. */
  predicate OccursAt(s: string, p: string, i: int, ignoreCase: bool)
  {
    0 <= i && i + |p| <= |s| &&
    forall j :: 0 <= j < |p| ==> CharEquals(s[i + j], p[j], ignoreCase)
  }

  /**
   * `s.IndexOf(p)` with ordinal (`ignoreCase == false`) or
   * ordinal-ignore-case comparison: the first index where `p` occurs, or -1.
   */
  function IndexOf(s: string, p: string, ignoreCase: bool): (r: int)
    ensures r >= 0 ==> OccursAt(s, p, r, ignoreCase)
    ensures r >= 0 ==> forall k :: 0 <= k < r ==> !OccursAt(s, p, k, ignoreCase)
    ensures r < 0 ==> r == -1 && forall k :: !OccursAt(s, p, k, ignoreCase)
  {
    IndexFrom(s, p, 0, ignoreCase)
  }

  /** The first occurrence of `p` in `s` at or after `start`, or -1. */
  function IndexFrom(s: string, p: string, start: nat, ignoreCase: bool): (r: int)
    decreases |s| - start
    ensures r >= 0 ==> start <= r && OccursAt(s, p, r, ignoreCase)
    ensures r >= 0 ==> forall k :: start <= k < r ==> !OccursAt(s, p, k, ignoreCase)
    ensures r < 0 ==> r == -1 && forall k :: start <= k ==> !OccursAt(s, p, k, ignoreCase)
  {
    if start + |p| > |s| then -1
    else if OccursAt(s, p, start, ignoreCase) then start
    else IndexFrom(s, p, start + 1, ignoreCase)
  }

  /** `s.Contains(p)`: ordinal substring test. */
  predicate Contains(s: string, p: string)
  {
    IndexOf(s, p, false) >= 0
  }

  /** The empty pattern is found at index 0 of every string. */
  lemma EmptyPatternFoundAtStart(s: string, ignoreCase: bool)
    ensures IndexOf(s, "", ignoreCase) == 0
  {
    assert OccursAt(s, "", 0, ignoreCase);
  }

  /**
   * `s.TrimEnd(chars)`: the longest prefix of `s` that does not end in a
   * character of `chars`.
   */
  function TrimEnd(s: string, chars: set<char>): (r: string)
    ensures r <= s
    ensures r == [] || r[|r| - 1] !in chars
    ensures forall i :: |r| <= i < |s| ==> s[i] in chars
  {
    if |s| > 0 && s[|s| - 1] in chars then TrimEnd(s[..|s| - 1], chars) else s
  }

  /** The three properties in `TrimEnd`'s contract determine its result. */
  lemma TrimEndUnique(s: string, chars: set<char>, r: string)
    requires r <= s
    requires r == [] || r[|r| - 1] !in chars
    requires forall i :: |r| <= i < |s| ==> s[i] in chars
    ensures TrimEnd(s, chars) == r
  {
    var t := TrimEnd(s, chars);
    assert t == s[..|t|] && r == s[..|r|];
  }

  /** The text of a `StringBuilder` after `AppendLine` of each of `lines` in turn. */
  function Render(lines: seq<string>): (t: string)
    ensures |t| >= 2 * |lines|
  {
    if lines == [] then "" else Render(lines[..|lines| - 1]) + lines[|lines| - 1] + NewLine
  }

  lemma RenderSingle(line: string)
    ensures Render([line]) == line + NewLine
  {
    assert [line][..0] == [];
  }

  lemma RenderTwo(first: string, second: string)
    ensures Render([first, second]) == first + NewLine + second + NewLine
  {
    assert [first, second][..1] == [first];
    RenderSingle(first);
  }

  lemma {:induction false} RenderAppend(lines: seq<string>, line: string)
    ensures Render(lines + [line]) == Render(lines) + line + NewLine
  {
    assert (lines + [line])[..|lines|] == lines;
  }

  /** The rendered text starts with the first line followed by a line break. */
  lemma {:induction false} RenderStartsWithFirstLine(lines: seq<string>)
    requires |lines| > 0
    ensures lines[0] + NewLine <= Render(lines)
  {
    if |lines| > 1 {
      var init := lines[..|lines| - 1];
      RenderStartsWithFirstLine(init);
      assert init[0] == lines[0];
    }
  }

  /**
   * Trimming the rendered lines removes the final line break and the
   * line-break characters at the end of the last line, and nothing else,
   * as long as the last line holds some other character.
   */
  lemma TrimRenderedLines(lines: seq<string>)
    requires |lines| > 0 && TrimEnd(lines[|lines| - 1], NewLineChars) != []
    ensures TrimEnd(Render(lines), NewLineChars) ==
              Render(lines[..|lines| - 1]) + TrimEnd(lines[|lines| - 1], NewLineChars)
  {
    TrimLastLine(Render(lines[..|lines| - 1]), lines[|lines| - 1]);
  }

  /** Trimming `head + last + NewLine` strips the line break and the CR/LF characters ending `last`. */
  lemma TrimLastLine(head: string, last: string)
    requires TrimEnd(last, NewLineChars) != []
    ensures TrimEnd(head + last + NewLine, NewLineChars) == head + TrimEnd(last, NewLineChars)
  {
    var s := head + last + NewLine;
    var kept := TrimEnd(last, NewLineChars);
    var r := head + kept;
    assert r <= s by {
      assert kept == last[..|kept|];
    }
    forall i | |r| <= i < |s| ensures s[i] in NewLineChars {
      if i < |head| + |last| {
        assert s[i] == last[i - |head|];
      } else {
        assert s[i] == NewLine[i - |head| - |last|];
      }
    }
    TrimEndUnique(s, NewLineChars, r);
  }

  lemma PrefixExtends(p: string, s: string, t: string)
    requires p <= s
    ensures p <= s + t
  {
    assert (s + t)[..|p|] == s[..|p|];
  }

  /** Trimming rendered lines keeps the first line and its line break when a later line survives trimming. */
  lemma TrimmedRenderStartsWithFirstLine(lines: seq<string>)
    requires |lines| >= 2 && TrimEnd(lines[|lines| - 1], NewLineChars) != []
    ensures lines[0] + NewLine <= TrimEnd(Render(lines), NewLineChars)
  {
    var init := lines[..|lines| - 1];
    TrimRenderedLines(lines);
    RenderStartsWithFirstLine(init);
    PrefixExtends(init[0] + NewLine, Render(init), TrimEnd(lines[|lines| - 1], NewLineChars));
  }
}
