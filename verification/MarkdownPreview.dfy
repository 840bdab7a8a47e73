/**
 The frontend's independent preview of the same documents: split the raw text on
 /^---$/m, drop the blank pieces, and pair the rest up.  When does that agree with the
 importer's splitter?
 */
module MarkdownPreview {
  import opened Text
  import opened MarkdownBlocks

  // ----- The regular-expression split -----

  /** What ^ and $ look for in multiline mode. */
  predicate IsLineTerminator(c: char) {
    c == '\n' || c == '\r' || c == '\U{2028}' || c == '\U{2029}'
  }

  /** /^---$/m matches at position `i`. */
  predicate MatchAt(s: string, i: nat) {
    && i + 3 <= |s| && s[i] == '-' && s[i + 1] == '-' && s[i + 2] == '-'
    && (i == 0 || IsLineTerminator(s[i - 1]))
    && (i + 3 == |s| || IsLineTerminator(s[i + 3]))
  }

  /** String.prototype.split: `start` is where the current piece began, `i` the position tried next. */
  function SplitFrom(s: string, start: nat, i: nat): seq<string>
    requires start <= i <= |s|
    decreases |s| - i
  {
    if i == |s| then [s[start..]]
    else if MatchAt(s, i) then [s[start..i]] + SplitFrom(s, i + 3, i + 3)
    else SplitFrom(s, start, i + 1)
  }

  function Pieces(s: string): seq<string> {
    SplitFrom(s, 0, 0)
  }

  /** The characters JavaScript's trim removes. */
  predicate IsJsSpace(c: char) {
    (IsSpace(c) && c != '\U{85}') || c == '\U{FEFF}'
  }

  lemma JsSpacesAre(c: char)
    ensures IsJsSpace(c) <==> c in {
      '\t', '\n', '\U{0B}', '\U{0C}', '\r', ' ', '\U{A0}', '\U{1680}', '\U{2000}', '\U{2001}', '\U{2002}', '\U{2003}',
      '\U{2004}', '\U{2005}', '\U{2006}', '\U{2007}', '\U{2008}', '\U{2009}', '\U{200A}', '\U{2028}', '\U{2029}',
      '\U{202F}', '\U{205F}', '\U{3000}', '\U{FEFF}'}
  {
  }

  predicate IsBlank(s: string) {
    forall i :: 0 <= i < |s| ==> IsJsSpace(s[i])
  }

  /** The indices of the pieces that survive the filter. */
  function Kept(pieces: seq<string>, from: nat): (kept: seq<nat>)
    requires from <= |pieces|
    ensures forall i :: 0 <= i < |kept| ==> from <= kept[i] < |pieces|
    decreases |pieces| - from
  {
    if from == |pieces| then []
    else (if IsBlank(pieces[from]) then [] else [from]) + Kept(pieces, from + 1)
  }

  function PairsOf(kept: seq<nat>): seq<(nat, nat)> {
    if |kept| < 2 then [] else [(kept[0], kept[1])] + PairsOf(kept[2..])
  }

  /** parseMarkdownPreview's filter and its step-by-two loop, as (frontmatter, body) texts. */
  method ParsePreview(content: string) returns (stories: seq<(string, string)>)
    ensures
      var pieces := Pieces(content);
      var pairs := PairsOf(Kept(pieces, 0));
      && |stories| == |pairs|
      && forall j :: 0 <= j < |pairs| ==>
           pairs[j].0 < |pieces| && pairs[j].1 < |pieces| && stories[j] == (pieces[pairs[j].0], pieces[pairs[j].1])
    ensures stories == Shown(Pieces(content))
  {
    hide Half, PairsOf, Kept, Pieces, IsBlank;
    var pieces := Pieces(content);
    var kept := Kept(pieces, 0);
    stories := [];
    var i := 0;
    PairsCount(kept);
    while i < |kept| - 1
      invariant 0 <= i <= |kept| && i == 2 * |stories|
      invariant forall j :: 0 <= j < |stories| ==>
        2 * j + 1 < |kept| && stories[j] == (pieces[kept[2 * j]], pieces[kept[2 * j + 1]])
    {
      stories := stories + [(pieces[kept[i]], pieces[kept[i + 1]])];
      i := i + 2;
    }
    forall j | 0 <= j < |stories| ensures PairsOf(kept)[j] == (kept[2 * j], kept[2 * j + 1]) {
      PairsAt(kept, j);
    }
  }

  lemma {:induction false} PairsCount(kept: seq<nat>)
    ensures |PairsOf(kept)| == Half(|kept|)
  {
    hide Half;
    if |kept| >= 2 {
      PairsCount(kept[2..]);
    }
  }

  lemma {:induction false} PairsAt(kept: seq<nat>, j: nat)
    requires 2 * j + 1 < |kept|
    ensures j < |PairsOf(kept)| && PairsOf(kept)[j] == (kept[2 * j], kept[2 * j + 1])
  {
    if j > 0 {
      PairsAt(kept[2..], j - 1);
    }
  }

  // ----- The pieces in terms of lines -----

  /** A document with LF line ends only. */
  predicate IsLfLine(line: string) {
    forall i :: 0 <= i < |line| ==> !IsLineTerminator(line[i])
  }

  /** The pieces with text put in front of the first. */
  function Prefixed(text: string, pieces: seq<string>): seq<string>
    requires pieces != []
  {
    [text + pieces[0]] + pieces[1..]
  }

  /** The pieces of a document given by its lines. */
  function LinePieces(lines: seq<string>): (pieces: seq<string>)
    requires lines != []
    ensures |pieces| > 0
  {
    if |lines| == 1 then
      if lines[0] == DELIMITER then ["", ""] else [lines[0]]
    else
      var rest := LinePieces(lines[1..]);
      if lines[0] == DELIMITER then [""] + Prefixed("\n", rest) else Prefixed(lines[0] + "\n", rest)
  }

  /** Within a line nothing but a whole line `---` at its start can match. */
  lemma MatchOnlyWholeLine(s: string, i: nat, line: string, k: nat)
    requires i + |line| <= |s| && s[i..i + |line|] == line && IsLfLine(line)
    requires (i == 0 || s[i - 1] == '\n') && (i + |line| == |s| || s[i + |line|] == '\n')
    requires k <= |line| && i + k < |s|
    ensures MatchAt(s, i + k) <==> k == 0 && line == DELIMITER
  {
    assert forall j :: 0 <= j < |line| ==> s[i + j] == line[j];
    if k == 0 && MatchAt(s, i) {
      assert |line| >= 1 && |line| >= 2 && |line| >= 3;
    }
    if k > 0 && k < |line| { assert s[i + k - 1] == line[k - 1]; }
  }

  /** Scanning past a line that is no delimiter finds nothing. */
  lemma {:induction false} ScanLine(s: string, start: nat, i: nat, line: string, k: nat)
    requires i + |line| <= |s| && s[i..i + |line|] == line && IsLfLine(line) && line != DELIMITER
    requires (i == 0 || s[i - 1] == '\n') && (i + |line| == |s| || s[i + |line|] == '\n')
    requires start <= i && k <= |line|
    ensures
      var next := if i + |line| == |s| then |s| else i + |line| + 1;
      SplitFrom(s, start, i + k) == SplitFrom(s, start, next)
    decreases |line| - k
  {
    if i + k < |s| {
      MatchOnlyWholeLine(s, i, line, k);
      if k < |line| { ScanLine(s, start, i, line, k + 1); }
    }
  }

  /** The first line sits at `i`; the next, if any, after its newline. */
  lemma LinePrefix(s: string, i: nat, lines: seq<string>)
    requires lines != [] && i <= |s| && s[i..] == JoinLines(lines)
    ensures i + |lines[0]| <= |s| && s[i..i + |lines[0]|] == lines[0]
    ensures |lines| == 1 ==> i + |lines[0]| == |s|
    ensures |lines| > 1 ==>
      && i + |lines[0]| < |s| && s[i + |lines[0]|] == '\n'
      && s[i + |lines[0]| + 1..] == JoinLines(lines[1..])
  {
    var line := lines[0];
    if |lines| > 1 {
      assert s[i..] == line + ("\n" + JoinLines(lines[1..]));
      assert s[i..][|line|] == '\n';
      assert s[i..][|line| + 1..] == JoinLines(lines[1..]);
    }
  }

  lemma SplitAtMatch(s: string, start: nat, i: nat)
    requires start <= i <= |s| && MatchAt(s, i)
    ensures SplitFrom(s, start, i) == [s[start..i]] + SplitFrom(s, i + 3, i + 3)
    ensures i + 3 == |s| ==> SplitFrom(s, i + 3, i + 3) == [""]
    ensures i + 3 < |s| ==> SplitFrom(s, i + 3, i + 3) == SplitFrom(s, i + 3, i + 4)
  {
    if i + 3 < |s| {
      assert IsLineTerminator(s[i + 3]) && !MatchAt(s, i + 3);
    } else {
      SplitAtEnd(s, i + 3);
      assert s[i + 3..] == "";
    }
  }

  lemma PrefixedTwice(a: string, b: string, pieces: seq<string>)
    requires pieces != []
    ensures Prefixed(a, Prefixed(b, pieces)) == Prefixed(a + b, pieces)
  {
    assert a + (b + pieces[0]) == a + b + pieces[0];
  }

  lemma PrefixedEmpty(text: string, rest: seq<string>)
    ensures Prefixed(text, [""] + rest) == [text] + rest
  {
    assert text + "" == text;
  }

  lemma LinePiecesStep(text: string, lines: seq<string>)
    requires |lines| > 1
    ensures
      var rest := LinePieces(lines[1..]);
      Prefixed(text, LinePieces(lines))
      == if lines[0] == DELIMITER then [text] + Prefixed("\n", rest) else Prefixed(text + (lines[0] + "\n"), rest)
  {
    var rest := LinePieces(lines[1..]);
    PrefixedEmpty(text, Prefixed("\n", rest));
    PrefixedTwice(text, lines[0] + "\n", rest);
    hide Prefixed;
  }

  lemma LastLinePieces(text: string, lines: seq<string>)
    requires |lines| == 1
    ensures Prefixed(text, LinePieces(lines)) == if lines[0] == DELIMITER then [text] + [""] else [text + lines[0]]
  {
    assert text + "" == text;
  }

  /**
   The scan from the start of a line yields the line pieces of the rest, the first one prefixed by what
   was pending.
   */
  lemma {:induction false} SplitIsByLine(s: string, start: nat, i: nat, lines: seq<string>)
    requires lines != [] && start <= i <= |s| && s[i..] == JoinLines(lines) && (i == 0 || s[i - 1] == '\n')
    requires forall line :: line in lines ==> IsLfLine(line)
    ensures SplitFrom(s, start, i) == Prefixed(s[start..i], LinePieces(lines))
    decreases |lines|
  {
    hide JoinLines, LinePieces, MatchAt, SplitFrom, Prefixed, IsLfLine;
    var line := lines[0];
    var end := i + |line|;
    LinePrefix(s, i, lines);
    assert forall x :: x in lines[1..] ==> x in lines;
    if |lines| == 1 {
      LastLinePieces(s[start..i], lines);
      if line == DELIMITER {
        MatchOnlyWholeLine(s, i, line, 0);
        SplitAtMatch(s, start, i);
      } else {
        ScanLine(s, start, i, line, 0);
        SplitAtEnd(s, start);
        assert s[start..] == s[start..i] + line;
      }
    } else {
      LinePiecesStep(s[start..i], lines);
      if line == DELIMITER {
        MatchOnlyWholeLine(s, i, line, 0);
        SplitAtMatch(s, start, i);
        SplitIsByLine(s, end, end + 1, lines[1..]);
        assert s[end..end + 1] == "\n";
      } else {
        ScanLine(s, start, i, line, 0);
        SplitIsByLine(s, start, end + 1, lines[1..]);
        PendingGrows(s, start, i, line);
      }
    }
  }

  lemma PendingGrows(s: string, start: nat, i: nat, line: string)
    requires start <= i && i + |line| < |s| && s[i..i + |line|] == line && s[i + |line|] == '\n'
    ensures s[start..i + |line| + 1] == s[start..i] + (line + "\n")
  {
    var end := i + |line|;
    assert s[start..end + 1] == s[start..i] + (s[i..end] + [s[end]]);
  }

  lemma SplitAtEnd(s: string, start: nat)
    requires start <= |s|
    ensures SplitFrom(s, start, |s|) == [s[start..]]
  {
  }

  // ----- Pieces and chunks -----

  /** A document both sides read the same way: LF line ends, and delimiter lines that are exactly `---`. */
  ghost predicate Plain(lines: seq<string>) {
    lines != [] && forall line :: line in lines ==> IsLfLine(line) && (IsDelimiter(line) ==> line == DELIMITER)
  }

  /** A chunk's text with the newlines next to its delimiters. */
  function Wrap(first: bool, chunk: seq<string>, last: bool): string {
    if chunk == [] then (if first || last then "" else "\n")
    else (if first then "" else "\n") + JoinLines(chunk) + (if last then "" else "\n")
  }

  ghost predicate Wrapped(pieces: seq<string>, chunks: seq<seq<string>>) {
    && |pieces| == |chunks| > 0
    && (forall k :: 0 <= k < |chunks| ==> pieces[k] == Wrap(k == 0, chunks[k], k == |chunks| - 1))
    && (chunks[0] == [] ==> |chunks| > 1)
  }

  lemma WrappedLine(line: string, pieces: seq<string>, chunks: seq<seq<string>>)
    requires Wrapped(pieces, chunks)
    ensures Wrapped(Prefixed(line + "\n", pieces), [[line] + chunks[0]] + chunks[1..])
  {
    hide JoinLines, Wrap;
    FirstPieceGrows(line, chunks[0], |chunks| == 1);
  }

  lemma WrappedDelimiter(pieces: seq<string>, chunks: seq<seq<string>>)
    requires Wrapped(pieces, chunks)
    ensures Wrapped([""] + Prefixed("\n", pieces), [[]] + chunks)
  {
    FirstPieceGrows("", chunks[0], |chunks| == 1);
    var chunks' := [[]] + chunks;
    var pieces' := [""] + Prefixed("\n", pieces);
    forall k | 0 <= k < |chunks'| ensures pieces'[k] == Wrap(k == 0, chunks'[k], k == |chunks'| - 1) {
      if k > 1 { assert pieces'[k] == pieces[k - 1]; }
    }
  }

  lemma WrappedLast(line: string)
    ensures Wrapped([line], [[line]]) && Wrapped(["", ""], [[], []])
  {
    assert "" + line + "" == line;
  }

  lemma {:induction false} PiecesAreChunks(lines: seq<string>)
    requires Plain(lines)
    ensures Wrapped(LinePieces(lines), Chunks(lines))
  {
    hide Wrapped, TrimSpace;
    DelimiterIsOne();
    var line, rest := lines[0], lines[1..];
    assert line in lines;
    if rest == [] {
      assert Chunks(rest) == [[]] && [line] + [] == [line];
      assert Chunks(lines) == if line == DELIMITER then [[], []] else [[line]];
      WrappedLast(line);
    } else {
      assert forall x :: x in rest ==> x in lines;
      PiecesAreChunks(rest);
      if line == DELIMITER { WrappedDelimiter(LinePieces(rest), Chunks(rest)); }
      else { WrappedLine(line, LinePieces(rest), Chunks(rest)); }
    }
  }

  lemma FirstPieceGrows(line: string, chunk: seq<string>, last: bool)
    requires chunk == [] ==> !last
    ensures line + "\n" + Wrap(true, chunk, last) == Wrap(true, [line] + chunk, last)
    ensures "\n" + Wrap(true, chunk, last) == Wrap(false, chunk, last)
  {
    assert ([line] + chunk)[1..] == chunk;
    if chunk != [] {
      var tail := if last then "" else "\n";
      assert Wrap(true, chunk, last) == JoinLines(chunk) + tail by { assert "" + JoinLines(chunk) == JoinLines(chunk); }
      assert line + "\n" + (JoinLines(chunk) + tail) == (line + "\n" + JoinLines(chunk)) + tail;
      assert "" + JoinLines([line] + chunk) == JoinLines([line] + chunk);
      assert "\n" + (JoinLines(chunk) + tail) == "\n" + JoinLines(chunk) + tail;
    } else {
      assert "" + line == line;
    }
  }

  predicate AllBlank(chunk: seq<string>) {
    forall i :: 0 <= i < |chunk| ==> IsBlank(chunk[i])
  }

  lemma BlankConcat(a: string, b: string)
    ensures IsBlank(a + b) <==> IsBlank(a) && IsBlank(b)
  {
    var ab := a + b;
    if IsBlank(ab) {
      assert forall i :: 0 <= i < |a| ==> ab[i] == a[i];
      assert forall i :: 0 <= i < |b| ==> ab[|a| + i] == b[i];
    }
  }

  lemma {:induction false} BlankJoin(chunk: seq<string>)
    ensures IsBlank(JoinLines(chunk)) <==> AllBlank(chunk)
  {
    if |chunk| > 1 {
      BlankJoin(chunk[1..]);
      BlankConcat(chunk[0] + "\n", JoinLines(chunk[1..]));
      BlankConcat(chunk[0], "\n");
      assert AllBlank(chunk) <==> IsBlank(chunk[0]) && AllBlank(chunk[1..]) by {
        assert AllBlank(chunk[1..]) && IsBlank(chunk[0]) ==>
          forall i :: 0 < i < |chunk| ==> chunk[i] == chunk[1..][i - 1];
      }
    }
  }

  lemma BlankWrap(first: bool, chunk: seq<string>, last: bool)
    ensures IsBlank(Wrap(first, chunk, last)) <==> AllBlank(chunk)
  {
    BlankJoin(chunk);
    var head, tail := if first then "" else "\n", if last then "" else "\n";
    BlankConcat(head, JoinLines(chunk));
    BlankConcat(head + JoinLines(chunk), tail);
  }

  // ----- Pairing -----

  lemma {:induction false} KeptExactly(pieces: seq<string>, from: nat)
    requires from <= |pieces|
    ensures forall k :: k in Kept(pieces, from) <==> from <= k < |pieces| && !IsBlank(pieces[k])
    decreases |pieces| - from
  {
    if from < |pieces| {
      KeptExactly(pieces, from + 1);
    }
  }

  /** A run of non-blank pieces is kept as it is. */
  lemma {:induction false} KeptRun(pieces: seq<string>, a: nat, b: nat)
    requires a <= b <= |pieces| && forall k :: a <= k < b ==> !IsBlank(pieces[k])
    ensures Kept(pieces, a) == seq(b - a, i requires 0 <= i < b - a => a + i) + Kept(pieces, b)
    decreases b - a
  {
    if a < b {
      KeptRun(pieces, a + 1, b);
    }
  }

  lemma {:induction false} KeptLength(pieces: seq<string>, from: nat)
    requires from <= |pieces|
    ensures |Kept(pieces, from)| <= |pieces| - from
    decreases |pieces| - from
  {
    if from < |pieces| {
      KeptLength(pieces, from + 1);
    }
  }

  /** The importer's pairing of chunk indices: (1, 2), (3, 4), ... */
  function ImportPairs(n: nat): seq<(nat, nat)> {
    seq(n, j requires 0 <= j < n => (2 * j + 1, 2 * j + 2))
  }

  /**
   With d delimiters: nothing to pair, or one delimiter with a blank side, or a blank preamble
   and no blank chunk among those the importer pairs.
   */
  ghost predicate SamePairing(pieces: seq<string>)
    requires pieces != []
  {
    var d := |pieces| - 1;
    || d == 0
    || (d == 1 && (IsBlank(pieces[0]) || IsBlank(pieces[1])))
    || (d >= 2 && IsBlank(pieces[0]) && forall k :: 1 <= k <= 2 * Half(d) ==> !IsBlank(pieces[k]))
  }

  lemma FirstKept(pieces: seq<string>, from: nat)
    requires from < |pieces|
    ensures Kept(pieces, from) == (if IsBlank(pieces[from]) then [] else [from]) + Kept(pieces, from + 1)
  {
  }

  lemma PairingSuffices(pieces: seq<string>)
    requires pieces != [] && SamePairing(pieces)
    ensures PairsOf(Kept(pieces, 0)) == ImportPairs(Half(|pieces| - 1))
  {
    hide Half, PairsOf, IsBlank, Kept;
    var kept := Kept(pieces, 0);
    PairsCount(kept);
    FirstKept(pieces, 0);
    KeptLength(pieces, 0);
    if |pieces| > 2 {
      KeptBlock(pieces, Half(|pieces| - 1));
      hide ImportPairs;
      OddEvenPairs(kept, Half(|pieces| - 1));
    } else if |pieces| == 2 {
      FirstKept(pieces, 1);
      KeptLength(pieces, 2);
    }
  }

  /** After a blank first piece, the next 2m non-blank pieces are kept in order, and at most one more. */
  lemma KeptBlock(pieces: seq<string>, m: nat)
    requires 2 * m < |pieces| <= 2 * m + 2 && IsBlank(pieces[0]) && forall k :: 1 <= k <= 2 * m ==> !IsBlank(pieces[k])
    ensures 2 * m <= |Kept(pieces, 0)| <= 2 * m + 1 && forall i :: 0 <= i < 2 * m ==> Kept(pieces, 0)[i] == i + 1
  {
    hide IsBlank, Kept;
    FirstKept(pieces, 0);
    KeptRun(pieces, 1, 2 * m + 1);
    KeptLength(pieces, 2 * m + 1);
  }

  lemma OddEvenPairs(kept: seq<nat>, m: nat)
    requires 2 * m <= |kept| <= 2 * m + 1 && forall i :: 0 <= i < 2 * m ==> kept[i] == i + 1
    ensures PairsOf(kept) == ImportPairs(m)
  {
    hide Half, PairsOf;
    PairsCount(kept);
    forall j | 0 <= j < m ensures j < |PairsOf(kept)| && PairsOf(kept)[j] == (2 * j + 1, 2 * j + 2) {
      PairsAt(kept, j);
    }
  }

  lemma PairingIsNeeded(pieces: seq<string>)
    requires pieces != [] && PairsOf(Kept(pieces, 0)) == ImportPairs(Half(|pieces| - 1))
    ensures SamePairing(pieces)
  {
    hide Half, PairsOf, IsBlank, Kept;
    var m := Half(|pieces| - 1);
    if |pieces| == 2 {
      PairsCount(Kept(pieces, 0));
      FirstKept(pieces, 0);
      FirstKept(pieces, 1);
    } else if |pieces| > 2 {
      FirstIsBlank(pieces, m);
      hide ImportPairs;
      forall k | 1 <= k <= 2 * m ensures !IsBlank(pieces[k]) {
        PairedIsNotBlank(pieces, m, k);
      }
    }
  }

  lemma PairedIsNotBlank(pieces: seq<string>, m: nat, k: nat)
    requires PairsOf(Kept(pieces, 0)) == ImportPairs(m) && 1 <= k <= 2 * m
    ensures k < |pieces| && !IsBlank(pieces[k])
  {
    hide Half, PairsOf, IsBlank, Kept, ImportPairs;
    PairIsKept(Kept(pieces, 0), m, Half(k - 1));
    KeptExactly(pieces, 0);
  }

  lemma FirstIsBlank(pieces: seq<string>, m: nat)
    requires |pieces| > 0 && m > 0 && PairsOf(Kept(pieces, 0)) == ImportPairs(m)
    ensures IsBlank(pieces[0])
  {
    hide Half, PairsOf, IsBlank, Kept;
    PairsCount(Kept(pieces, 0));
    PairsAt(Kept(pieces, 0), 0);
    FirstKept(pieces, 0);
    assert ImportPairs(m)[0] == (1, 2);
  }

  lemma PairIsKept(kept: seq<nat>, m: nat, j: nat)
    requires PairsOf(kept) == ImportPairs(m) && j < m
    ensures 2 * j + 1 in kept && 2 * j + 2 in kept
  {
    hide Half, PairsOf;
    PairsCount(kept);
    PairsAt(kept, j);
    assert ImportPairs(m)[j] == (2 * j + 1, 2 * j + 2);
    assert kept[2 * j] in kept && kept[2 * j + 1] in kept;
  }

  // ----- Agreement -----

  /** The same condition read off the document's chunks. */
  ghost predicate Agreeable(lines: seq<string>) {
    AgreeableChunks(Chunks(lines))
  }

  ghost predicate AgreeableChunks(chunks: seq<seq<string>>)
    requires chunks != []
  {
    var d := |chunks| - 1;
    || d == 0
    || (d == 1 && (AllBlank(chunks[0]) || AllBlank(chunks[1])))
    || (d >= 2 && AllBlank(chunks[0]) && forall k :: 1 <= k <= 2 * Half(d) ==> !AllBlank(chunks[k]))
  }

  ghost predicate SameBlanks(pieces: seq<string>, chunks: seq<seq<string>>) {
    |pieces| == |chunks| && forall k :: 0 <= k < |chunks| ==> (IsBlank(pieces[k]) <==> AllBlank(chunks[k]))
  }

  lemma PairingReadOff(pieces: seq<string>, chunks: seq<seq<string>>)
    requires chunks != [] && SameBlanks(pieces, chunks)
    ensures SamePairing(pieces) <==> AgreeableChunks(chunks)
  {
    hide Half, IsBlank, AllBlank;
  }

  lemma PiecesOfDocument(lines: seq<string>)
    requires Plain(lines)
    ensures Pieces(JoinLines(lines)) == LinePieces(lines)
  {
    var s := JoinLines(lines);
    assert s[0..] == s;
    SplitIsByLine(s, 0, 0, lines);
    assert s[0..0] + LinePieces(lines)[0] == LinePieces(lines)[0];
  }

  lemma BlankPieces(lines: seq<string>)
    requires Plain(lines)
    ensures SameBlanks(LinePieces(lines), Chunks(lines))
  {
    PiecesAreChunks(lines);
    forall k | 0 <= k < |Chunks(lines)| ensures IsBlank(LinePieces(lines)[k]) <==> AllBlank(Chunks(lines)[k]) {
      BlankWrap(k == 0, Chunks(lines)[k], k == |Chunks(lines)| - 1);
    }
  }

  /**
   On plain documents the preview pairs the same chunks as the importer if and only if
   the document is Agreeable.
   */
  lemma PreviewAgreesExactlyWhen(lines: seq<string>)
    requires Plain(lines)
    ensures
      var pieces := Pieces(JoinLines(lines));
      && |pieces| == |Chunks(lines)|
      && (PairsOf(Kept(pieces, 0)) == ImportPairs(|BlocksOf(lines)|) <==> Agreeable(lines))
  {
    PiecesOfDocument(lines);
    BlankPieces(lines);
    PairUpLength(Chunks(lines)[1..]);
    var pieces := LinePieces(lines);
    PairingReadOff(pieces, Chunks(lines));
    if SamePairing(pieces) { PairingSuffices(pieces); }
    if PairsOf(Kept(pieces, 0)) == ImportPairs(|BlocksOf(lines)|) { PairingIsNeeded(pieces); }
  }

  /** And then every previewed story is the imported block, up to the newlines next to its delimiters. */
  lemma PreviewShowsTheBlocks(lines: seq<string>, j: nat)
    requires Plain(lines) && Agreeable(lines) && j < |BlocksOf(lines)|
    ensures
      var pieces := Pieces(JoinLines(lines));
      var pairs := PairsOf(Kept(pieces, 0));
      && |pairs| == |BlocksOf(lines)| && pairs[j] == (2 * j + 1, 2 * j + 2) && 2 * j + 2 < |pieces|
      && pieces[2 * j + 1] == "\n" + BlocksOf(lines)[j].frontmatter + "\n"
      && pieces[2 * j + 2] == "\n" + BlocksOf(lines)[j].body + (if 2 * j + 2 == |pieces| - 1 then "" else "\n")
  {
    PreviewAgreesExactlyWhen(lines);
    PiecesOfDocument(lines);
    PiecesAreChunks(lines);
    var chunks := Chunks(lines);
    PairUpLength(chunks[1..]);
    assert !AllBlank(chunks[2 * j + 1]) && !AllBlank(chunks[2 * j + 2]);
    assert BlocksOf(lines) == PairUp(chunks[1..]);
    hide Half, Chunks, PairUp, BlocksOf, Pieces, LinePieces, PairsOf, Kept, Plain, Agreeable, JoinLines;
    PairUpAt(chunks[1..], j);
  }

  // ----- Agreement of the texts -----

  function StripLeft(s: string): string {
    if s != "" && s[0] == '\n' then StripLeft(s[1..]) else s
  }

  function StripRight(s: string): string {
    if s != "" && s[|s| - 1] == '\n' then StripRight(s[..|s| - 1]) else s
  }

  /** A text without the newlines at its ends. */
  function Core(s: string): string {
    StripRight(StripLeft(s))
  }

  lemma {:induction false} StripLeftOfAppend(s: string)
    ensures StripLeft(s + "\n") == if StripLeft(s) == "" then "" else StripLeft(s) + "\n"
  {
    if s != "" && s[0] == '\n' {
      assert (s + "\n")[1..] == s[1..] + "\n";
      StripLeftOfAppend(s[1..]);
    } else if s == "" {
      assert s + "\n" == "\n" && "\n"[1..] == "";
    }
  }

  lemma NewlinesDoNotCount(s: string)
    ensures Core("\n" + s) == Core(s) && Core(s + "\n") == Core(s)
  {
    assert ("\n" + s)[1..] == s;
    StripLeftOfAppend(s);
    var t := StripLeft(s);
    assert (t + "\n")[..|t|] == t;
  }

  lemma {:induction false} BlankWithoutLeft(s: string)
    ensures IsBlank(StripLeft(s)) <==> IsBlank(s)
  {
    if s != "" && s[0] == '\n' {
      BlankWithoutLeft(s[1..]);
      assert s == "\n" + s[1..];
      BlankConcat("\n", s[1..]);
    }
  }

  lemma {:induction false} BlankWithoutRight(s: string)
    ensures IsBlank(StripRight(s)) <==> IsBlank(s)
  {
    if s != "" && s[|s| - 1] == '\n' {
      var front := s[..|s| - 1];
      BlankWithoutRight(front);
      assert s == front + "\n";
      BlankConcat(front, "\n");
    }
  }

  lemma BlankCore(s: string)
    ensures IsBlank(Core(s)) <==> IsBlank(s)
  {
    BlankWithoutLeft(s);
    BlankWithoutRight(StripLeft(s));
  }

  lemma CoreOfWrap(first: bool, chunk: seq<string>, last: bool)
    ensures Core(Wrap(first, chunk, last)) == Core(JoinLines(chunk))
  {
    var text := JoinLines(chunk);
    NewlinesDoNotCount(text);
    NewlinesDoNotCount("\n" + text);
    NewlinesDoNotCount("");
    assert "" + text == text && text + "" == text && ("\n" + text) + "" == "\n" + text;
    hide Core, JoinLines;
  }

  /** The preview shows the imported blocks, up to newlines at the ends of the texts. */
  ghost predicate ShowsTheBlocks(stories: seq<(string, string)>, blocks: seq<Block>) {
    && |stories| == |blocks|
    && forall j :: 0 <= j < |blocks| ==>
         Core(stories[j].0) == Core(blocks[j].frontmatter) && Core(stories[j].1) == Core(blocks[j].body)
  }

  /** The texts of the kept pieces that get paired are those of the pieces the importer pairs. */
  ghost predicate SameTexts(pieces: seq<string>, m: nat)
    requires 2 * m < |pieces|
  {
    var kept := Kept(pieces, 0);
    && 2 * m <= |kept| <= 2 * m + 1
    && forall i :: 0 <= i < 2 * m ==> Core(pieces[kept[i]]) == Core(pieces[i + 1])
  }

  ghost predicate EachReadsAsFirst(texts: seq<string>, m: nat)
    requires 2 * m < |texts|
  {
    forall k :: 1 <= k <= 2 * m ==> Core(texts[k]) == Core(texts[0])
  }

  /** A preamble that every paired chunk repeats, with nothing after them to be paired too. */
  ghost predicate Repeating(pieces: seq<string>, m: nat)
    requires 2 * m < |pieces|
  {
    && m > 0 && !IsBlank(pieces[0]) && EachReadsAsFirst(pieces, m)
    && (2 * m + 1 < |pieces| ==> IsBlank(pieces[2 * m + 1]))
  }

  lemma RepeatedAreKept(pieces: seq<string>, m: nat)
    requires 2 * m < |pieces| <= 2 * m + 2 && forall k :: 0 <= k <= 2 * m ==> !IsBlank(pieces[k])
    ensures |Kept(pieces, 0)| >= 2 * m + 1 && forall i :: 0 <= i <= 2 * m ==> Kept(pieces, 0)[i] == i
    ensures |Kept(pieces, 0)| == 2 * m + 1 <==> (2 * m + 1 < |pieces| ==> IsBlank(pieces[2 * m + 1]))
  {
    hide IsBlank, Kept;
    KeptRun(pieces, 0, 2 * m + 1);
    KeptLength(pieces, 2 * m + 1);
    if 2 * m + 1 < |pieces| {
      FirstKept(pieces, 2 * m + 1);
      KeptLength(pieces, 2 * m + 2);
    }
  }

  lemma {:induction false} ChainOfCores(pieces: seq<string>, k: nat)
    requires k < |pieces| && forall i :: 0 <= i < k ==> Core(pieces[i]) == Core(pieces[i + 1])
    ensures Core(pieces[k]) == Core(pieces[0])
  {
    hide Core;
    if k > 0 {
      ChainOfCores(pieces, k - 1);
    }
  }

  lemma SamePairingGivesTexts(pieces: seq<string>, m: nat)
    requires pieces != [] && m == Half(|pieces| - 1) && SamePairing(pieces)
    ensures SameTexts(pieces, m)
  {
    hide Half, IsBlank, Kept, Core;
    KeptLength(pieces, 0);
    if |pieces| > 2 {
      KeptBlock(pieces, m);
    } else if |pieces| == 2 {
      FirstKept(pieces, 0);
      FirstKept(pieces, 1);
      KeptLength(pieces, 2);
    }
  }

  lemma RepeatingGivesTexts(pieces: seq<string>, m: nat)
    requires 2 * m < |pieces| <= 2 * m + 2 && Repeating(pieces, m)
    ensures SameTexts(pieces, m)
  {
    forall k | 0 <= k <= 2 * m ensures !IsBlank(pieces[k]) {
      BlankCore(pieces[k]);
      BlankCore(pieces[0]);
    }
    hide IsBlank, Kept, Core;
    RepeatedAreKept(pieces, m);
  }

  lemma PairedTextIsNotBlank(pieces: seq<string>, m: nat, k: nat)
    requires 2 * m < |pieces| && SameTexts(pieces, m) && 1 <= k <= 2 * m
    ensures !IsBlank(pieces[k])
  {
    hide IsBlank, Kept, Core;
    var source := Kept(pieces, 0)[k - 1];
    KeptExactly(pieces, 0);
    assert source in Kept(pieces, 0);
    BlankCore(pieces[source]);
    BlankCore(pieces[k]);
  }

  lemma TextsNeedPairingOrRepetition(pieces: seq<string>, m: nat)
    requires pieces != [] && m == Half(|pieces| - 1) && SameTexts(pieces, m)
    ensures SamePairing(pieces) || Repeating(pieces, m)
  {
    hide Half, IsBlank, Kept, Core;
    if m == 0 {
      if |pieces| == 2 {
        FirstKept(pieces, 0);
        FirstKept(pieces, 1);
      }
    } else {
      forall k | 1 <= k <= 2 * m ensures !IsBlank(pieces[k]) {
        PairedTextIsNotBlank(pieces, m, k);
      }
      if !IsBlank(pieces[0]) {
        RepeatedAreKept(pieces, m);
        forall i | 0 <= i < 2 * m ensures Core(pieces[i]) == Core(pieces[i + 1]) {
          assert Kept(pieces, 0)[i] == i;
        }
        forall k | 1 <= k <= 2 * m ensures Core(pieces[k]) == Core(pieces[0]) {
          ChainOfCores(pieces, k);
        }
      }
    }
  }

  function TextsOf(chunks: seq<seq<string>>): seq<string> {
    seq(|chunks|, k requires 0 <= k < |chunks| => JoinLines(chunks[k]))
  }

  ghost predicate SameCores(a: seq<string>, b: seq<string>) {
    |a| == |b| && forall k :: 0 <= k < |a| ==> Core(a[k]) == Core(b[k])
  }

  lemma CoresOfPieces(lines: seq<string>)
    requires Plain(lines)
    ensures SameCores(LinePieces(lines), TextsOf(Chunks(lines)))
  {
    PiecesAreChunks(lines);
    forall k | 0 <= k < |Chunks(lines)| ensures Core(LinePieces(lines)[k]) == Core(JoinLines(Chunks(lines)[k])) {
      CoreOfWrap(k == 0, Chunks(lines)[k], k == |Chunks(lines)| - 1);
    }
  }

  /** The stories the preview shows for the given pieces. */
  function Shown(pieces: seq<string>): seq<(string, string)> {
    var kept := Kept(pieces, 0);
    seq(Half(|kept|), j requires 0 <= j < Half(|kept|) => (pieces[kept[2 * j]], pieces[kept[2 * j + 1]]))
  }

  /** The blocks pair the pieces (1, 2), (3, 4), ... */
  ghost predicate BlocksRead(blocks: seq<Block>, pieces: seq<string>)
    requires 2 * |blocks| < |pieces|
  {
    forall j :: 0 <= j < |blocks| ==>
      Core(blocks[j].frontmatter) == Core(pieces[2 * j + 1]) && Core(blocks[j].body) == Core(pieces[2 * j + 2])
  }

  lemma TextsInPairs(pieces: seq<string>, m: nat, blocks: seq<Block>)
    requires 2 * m < |pieces| && |blocks| == m && BlocksRead(blocks, pieces)
    ensures ShowsTheBlocks(Shown(pieces), blocks) <==> SameTexts(pieces, m)
  {
    hide Half, Kept, Core;
    var kept, shown := Kept(pieces, 0), Shown(pieces);
    if ShowsTheBlocks(shown, blocks) {
      forall i | 0 <= i < 2 * m ensures Core(pieces[kept[i]]) == Core(pieces[i + 1]) {
        var j := Half(i);
        assert Core(shown[j].0) == Core(blocks[j].frontmatter) && Core(shown[j].1) == Core(blocks[j].body);
        assert i == 2 * j || i == 2 * j + 1;
      }
    }
    if SameTexts(pieces, m) {
      forall j | 0 <= j < m
        ensures Core(shown[j].0) == Core(blocks[j].frontmatter) && Core(shown[j].1) == Core(blocks[j].body)
      {
        assert Core(pieces[kept[2 * j]]) == Core(pieces[2 * j + 1]);
        assert Core(pieces[kept[2 * j + 1]]) == Core(pieces[2 * j + 1 + 1]);
      }
    }
  }

  /**
   Every chunk the importer pairs reads like the preamble, and none that is not blank
   follows them: then it does not show that the preview is one chunk off.
   */
  ghost predicate Repeated(lines: seq<string>) {
    RepeatedChunks(Chunks(lines))
  }

  ghost predicate RepeatedChunks(chunks: seq<seq<string>>)
    requires chunks != []
  {
    var m := Half(|chunks| - 1);
    && m > 0 && !AllBlank(chunks[0]) && EachReadsAsFirst(TextsOf(chunks), m)
    && (2 * m + 1 < |chunks| ==> AllBlank(chunks[2 * m + 1]))
  }

  lemma BlocksReadOff(pieces: seq<string>, chunks: seq<seq<string>>, blocks: seq<Block>)
    requires chunks != [] && SameCores(pieces, TextsOf(chunks)) && blocks == PairUp(chunks[1..])
    ensures |blocks| == Half(|pieces| - 1) && BlocksRead(blocks, pieces)
  {
    PairUpLength(chunks[1..]);
    hide Half, Core, JoinLines, PairUp;
    forall j | 0 <= j < |blocks|
      ensures Core(blocks[j].frontmatter) == Core(pieces[2 * j + 1]) && Core(blocks[j].body) == Core(pieces[2 * j + 2])
    {
      PairUpAt(chunks[1..], j);
    }
  }

  lemma RepetitionReadOff(pieces: seq<string>, chunks: seq<seq<string>>)
    requires chunks != [] && SameBlanks(pieces, chunks) && SameCores(pieces, TextsOf(chunks))
    ensures Repeating(pieces, Half(|pieces| - 1)) <==> RepeatedChunks(chunks)
  {
    hide Half, IsBlank, AllBlank, SameCores, EachReadsAsFirst;
    ReadsAlike(pieces, TextsOf(chunks), Half(|chunks| - 1));
  }

  lemma ReadsAlike(a: seq<string>, b: seq<string>, m: nat)
    requires SameCores(a, b) && 2 * m < |a|
    ensures EachReadsAsFirst(a, m) <==> EachReadsAsFirst(b, m)
  {
    hide Core;
    if EachReadsAsFirst(b, m) {
      forall k | 1 <= k <= 2 * m ensures Core(a[k]) == Core(a[0]) {
        assert Core(b[k]) == Core(b[0]);
      }
    }
    if EachReadsAsFirst(a, m) {
      forall k | 1 <= k <= 2 * m ensures Core(b[k]) == Core(b[0]) {
        assert Core(a[k]) == Core(a[0]);
      }
    }
  }

  /**
   On plain documents the stories shown are the imported blocks, up to newlines at the ends
   of their texts, if and only if the document is Agreeable or merely Repeated.
   */
  lemma PreviewShowsTheBlocksExactlyWhen(lines: seq<string>)
    requires Plain(lines)
    ensures ShowsTheBlocks(Shown(Pieces(JoinLines(lines))), BlocksOf(lines)) <==> Agreeable(lines) || Repeated(lines)
  {
    assert lines != [];
    var pieces, chunks := LinePieces(lines), Chunks(lines);
    assert BlocksOf(lines) == PairUp(chunks[1..]);
    hide Plain, Chunks, LinePieces, Pieces, BlocksOf, AgreeableChunks, RepeatedChunks, SamePairing, Repeating,
      SameBlanks, SameCores,
      TextsOf, JoinLines, Shown, ShowsTheBlocks, Half;
    PiecesOfDocument(lines);
    BlankPieces(lines);
    CoresOfPieces(lines);
    BlocksReadOff(pieces, chunks, BlocksOf(lines));
    PairingReadOff(pieces, chunks);
    RepetitionReadOff(pieces, chunks);
    ShownExactlyWhen(pieces, BlocksOf(lines));
  }

  lemma ShownExactlyWhen(pieces: seq<string>, blocks: seq<Block>)
    requires pieces != [] && |blocks| == Half(|pieces| - 1) && BlocksRead(blocks, pieces)
    ensures ShowsTheBlocks(Shown(pieces), blocks) <==> SamePairing(pieces) || Repeating(pieces, |blocks|)
  {
    hide *;
    var m := |blocks|;
    TextsInPairs(pieces, m, blocks);
    if SamePairing(pieces) { SamePairingGivesTexts(pieces, m); }
    if Repeating(pieces, m) { RepeatingGivesTexts(pieces, m); }
    if SameTexts(pieces, m) { TextsNeedPairingOrRepetition(pieces, m); }
  }

  const PREAMBLE_DOCUMENT := ["intro", DELIMITER, "key: A", DELIMITER, "# A"]

  lemma PreambleLines()
    ensures !IsDelimiter("intro") && !IsDelimiter("key: A") && !IsDelimiter("# A")
  {
    assert TrimLeft("intro") == "intro" && TrimRight("intro") == "intro";
    assert TrimLeft("key: A") == "key: A" && TrimRight("key: A") == "key: A";
    assert TrimLeft("# A") == "# A" && TrimRight("# A") == "# A";
  }

  lemma PreambleChunks()
    ensures Chunks(PREAMBLE_DOCUMENT) == [["intro"], ["key: A"], ["# A"]]
  {
    hide TrimSpace, Chunks;
    var lines := PREAMBLE_DOCUMENT;
    PreambleLines();
    DelimiterIsOne();
    assert lines[0..] == lines && lines[0..1] == ["intro"] && lines[2..3] == ["key: A"] && lines[4..5] == ["# A"];
    ChunkEndsAt(lines, 4, 5);
    ChunkEndsAt(lines, 2, 3);
    ChunkEndsAt(lines, 0, 1);
  }

  lemma PreambleIsPlain()
    ensures Plain(PREAMBLE_DOCUMENT)
  {
    hide TrimSpace;
    PreambleLines();
  }

  /** A document with a preamble is previewed wrongly: the preamble is taken for the first frontmatter. */
  lemma PreambleShiftsThePreview()
    ensures
      var lines := PREAMBLE_DOCUMENT;
      && Chunks(lines) == [["intro"], ["key: A"], ["# A"]]
      && Plain(lines) && !Agreeable(lines)
      && PairsOf(Kept(Pieces(JoinLines(lines)), 0)) != ImportPairs(|BlocksOf(lines)|)
  {
    PreambleChunks();
    PreambleIsPlain();
    hide TrimSpace, JoinLines, PairsOf, Kept, Pieces, BlocksOf, ImportPairs, Chunks, Plain;
    assert !IsBlank("intro") by { assert !IsJsSpace("intro"[0]); }
    assert !AllBlank(["intro"]) by { assert ["intro"][0] == "intro"; }
    PreviewAgreesExactlyWhen(PREAMBLE_DOCUMENT);
  }
}
