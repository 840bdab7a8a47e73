/** Whitespace as Go's strings.TrimSpace sees it, and documents as lines. */
module Text {
  /** unicode.IsSpace */
  predicate IsSpace(c: char) {
    || '\t' <= c <= '\r' || c == ' ' || c == '\U{85}' || c == '\U{A0}' || c == '\U{1680}'
    || '\U{2000}' <= c <= '\U{200A}' || c == '\U{2028}' || c == '\U{2029}' || c == '\U{202F}'
    || c == '\U{205F}' || c == '\U{3000}'
  }

  function TrimLeft(s: string): string {
    if s != "" && IsSpace(s[0]) then TrimLeft(s[1..]) else s
  }

  function TrimRight(s: string): string {
    if s != "" && IsSpace(s[|s| - 1]) then TrimRight(s[..|s| - 1]) else s
  }

  function TrimSpace(s: string): string {
    TrimRight(TrimLeft(s))
  }

  /** The tab-to-return controls, the space, and the code points beyond ASCII that Unicode counts as White_Space. */
  lemma SpacesAre(c: char)
    ensures IsSpace(c) <==> c in {
      '\t', '\n', '\U{0B}', '\U{0C}', '\r', ' ', '\U{85}', '\U{A0}', '\U{1680}', '\U{2000}', '\U{2001}', '\U{2002}',
      '\U{2003}', '\U{2004}', '\U{2005}', '\U{2006}', '\U{2007}', '\U{2008}', '\U{2009}', '\U{200A}', '\U{2028}',
      '\U{2029}', '\U{202F}', '\U{205F}', '\U{3000}'}
  {
  }

  predicate AllSpace(s: string) {
    forall i :: 0 <= i < |s| ==> IsSpace(s[i])
  }

  /** `s` is `core` with only whitespace on either side. */
  ghost predicate Surrounds(s: string, core: string) {
    exists left, right :: s == left + core + right && AllSpace(left) && AllSpace(right)
  }

  lemma {:induction false} TrimLeftDrops(s: string) returns (left: string)
    ensures AllSpace(left) && s == left + TrimLeft(s)
    ensures TrimLeft(s) != "" ==> !IsSpace(TrimLeft(s)[0])
  {
    left := "";
    if s != "" && IsSpace(s[0]) {
      var rest := TrimLeftDrops(s[1..]);
      left := [s[0]] + rest;
      assert s == [s[0]] + s[1..];
    }
  }

  lemma {:induction false} TrimRightDrops(s: string) returns (right: string)
    ensures AllSpace(right) && s == TrimRight(s) + right
    ensures TrimRight(s) != "" ==> !IsSpace(TrimRight(s)[|TrimRight(s)| - 1]) && TrimRight(s)[0] == s[0]
  {
    right := "";
    if s != "" && IsSpace(s[|s| - 1]) {
      var n := |s| - 1;
      var rest := TrimRightDrops(s[..n]);
      right := rest + [s[n]];
      assert s == s[..n] + [s[n]];
    }
  }

  lemma {:induction false} TrimLeftOf(left: string, s: string)
    requires AllSpace(left) && (s != "" ==> !IsSpace(s[0]))
    ensures TrimLeft(left + s) == s
  {
    if left == "" {
      assert left + s == s;
    } else {
      assert (left + s)[1..] == left[1..] + s;
      TrimLeftOf(left[1..], s);
    }
  }

  lemma {:induction false} TrimRightOf(s: string, right: string)
    requires AllSpace(right) && (s != "" ==> !IsSpace(s[|s| - 1]))
    ensures TrimRight(s + right) == s
  {
    if right == "" {
      assert s + right == s;
    } else {
      var n := |right| - 1;
      assert (s + right)[..|s| + n] == s + right[..n];
      TrimRightOf(s, right[..n]);
    }
  }

  /** TrimSpace gives a `core` that has no whitespace at its ends exactly when whitespace alone surrounds it. */
  lemma TrimSpaceIs(s: string, core: string)
    requires core != "" && !IsSpace(core[0]) && !IsSpace(core[|core| - 1])
    ensures TrimSpace(s) == core <==> Surrounds(s, core)
  {
    hide TrimLeft, TrimRight, IsSpace;
    if TrimSpace(s) == core {
      var left := TrimLeftDrops(s);
      var right := TrimRightDrops(TrimLeft(s));
      assert s == left + core + right;
    }
    if left, right :| s == left + core + right && AllSpace(left) && AllSpace(right) {
      assert s == left + (core + right) && (core + right)[0] == core[0];
      TrimLeftOf(left, core + right);
      TrimRightOf(core, right);
    }
  }

  lemma TrimSpaceIsEmpty(s: string)
    ensures TrimSpace(s) == "" <==> AllSpace(s)
  {
    hide TrimLeft, TrimRight, IsSpace;
    var left := TrimLeftDrops(s);
    var right := TrimRightDrops(TrimLeft(s));
    if TrimSpace(s) == "" {
      assert s == left + right;
    } else {
      assert s[|left|] == TrimLeft(s)[0];
    }
  }

  // ----- Lines -----

  /** strings.Split(s, "\n"): never empty. */
  function SplitLines(s: string): (lines: seq<string>)
    ensures |lines| > 0
  {
    if s == "" then [""]
    else
      var rest := SplitLines(s[1..]);
      if s[0] == '\n' then [""] + rest else [[s[0]] + rest[0]] + rest[1..]
  }

  /** strings.Join(lines, "\n") */
  function JoinLines(lines: seq<string>): string {
    if |lines| == 0 then ""
    else if |lines| == 1 then lines[0]
    else lines[0] + "\n" + JoinLines(lines[1..])
  }

  predicate IsLine(line: string) {
    '\n' !in line
  }

  lemma {:induction false} SplitGivesLines(s: string)
    ensures forall line :: line in SplitLines(s) ==> IsLine(line)
  {
    if s != "" {
      SplitGivesLines(s[1..]);
      var rest := SplitLines(s[1..]);
      assert rest[0] in rest;
      forall line | line in SplitLines(s) ensures IsLine(line) {
        assert s[0] != '\n' && line !in rest[1..] ==> line == [s[0]] + rest[0];
      }
    }
  }

  lemma {:induction false} JoinUndoesSplit(s: string)
    ensures JoinLines(SplitLines(s)) == s
  {
    if s != "" {
      JoinUndoesSplit(s[1..]);
      var rest := SplitLines(s[1..]);
      assert s == [s[0]] + s[1..];
      if s[0] == '\n' {
        assert ([""] + rest)[1..] == rest;
      } else if |rest| > 1 {
        assert ([[s[0]] + rest[0]] + rest[1..])[1..] == rest[1..];
      }
    }
  }

  lemma SplitFirstLine(line: string, more: string)
    requires IsLine(line)
    ensures SplitLines(line + "\n" + more) == [line] + SplitLines(more)
  {
    var after := "\n" + more;
    SplitOneLine(line, after);
    assert after[1..] == more;
    assert SplitLines(after) == [""] + SplitLines(more);
    assert line + "\n" + more == line + after && line + "" == line;
  }

  lemma {:induction false} SplitUndoesJoin(lines: seq<string>)
    requires lines != [] && forall line :: line in lines ==> IsLine(line)
    ensures SplitLines(JoinLines(lines)) == lines
  {
    if |lines| == 1 {
      SplitOneLine(lines[0], "");
      assert lines[0] + "" == lines[0];
    } else {
      assert forall line :: line in lines[1..] ==> line in lines;
      SplitUndoesJoin(lines[1..]);
      SplitFirstLine(lines[0], JoinLines(lines[1..]));
    }
  }

  /** The first line of a text is unaffected by what follows it. */
  lemma {:induction false} SplitOneLine(line: string, after: string)
    requires IsLine(line)
    ensures SplitLines(line + after) == [line + SplitLines(after)[0]] + SplitLines(after)[1..]
  {
    if line == "" {
      assert line + after == after && line + SplitLines(after)[0] == SplitLines(after)[0];
    } else {
      assert line[0] in line && forall c :: c in line[1..] ==> c in line;
      SplitOneLine(line[1..], after);
      assert (line + after)[1..] == line[1..] + after;
      var rest, tail := SplitLines(line[1..] + after), SplitLines(after);
      assert rest[0] == line[1..] + tail[0] && rest[1..] == tail[1..];
      assert [line[0]] + rest[0] == line + tail[0];
    }
  }
}
