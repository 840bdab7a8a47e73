/**
 The story importer's block splitter: a one-pass scan over lines, against the simple
 reading of a document as chunks separated by delimiter lines.
 */
module MarkdownBlocks {
  import opened Text

  const DELIMITER := "---"

  datatype Block = Block(frontmatter: string, body: string)

  predicate IsDelimiter(line: string) {
    TrimSpace(line) == DELIMITER
  }

  /** The lines before the first delimiter, between each two, and after the last: one chunk more than delimiters. */
  function Chunks(lines: seq<string>): (chunks: seq<seq<string>>)
    ensures |chunks| > 0
  {
    if lines == [] then [[]]
    else
      var rest := Chunks(lines[1..]);
      if IsDelimiter(lines[0]) then [[]] + rest else [[lines[0]] + rest[0]] + rest[1..]
  }

  /** Rounded down. */
  function Half(n: nat): (m: nat)
    ensures 2 * m <= n <= 2 * m + 1
  {
    n / 2
  }

  function PairUp(chunks: seq<seq<string>>): seq<Block> {
    if |chunks| < 2 then []
    else [Block(JoinLines(chunks[0]), JoinLines(chunks[1]))] + PairUp(chunks[2..])
  }

  /** What splitting should mean: drop the text before the first delimiter, then pair the chunks up. */
  function BlocksOf(lines: seq<string>): seq<Block> {
    PairUp(Chunks(lines)[1..])
  }

  /** Chunks from `i` on, when the lines up to `k` hold no delimiter. */
  lemma {:induction false} ChunksSkip(lines: seq<string>, i: nat, k: nat)
    requires i <= k <= |lines| && forall j :: i <= j < k ==> !IsDelimiter(lines[j])
    ensures Chunks(lines[i..]) == [lines[i..k] + Chunks(lines[k..])[0]] + Chunks(lines[k..])[1..]
    decreases k - i
  {
    if i < k {
      ChunksSkip(lines, i + 1, k);
      assert lines[i..][1..] == lines[i + 1..];
      var rest, tail := Chunks(lines[i + 1..]), Chunks(lines[k..]);
      assert rest[0] == lines[i + 1..k] + tail[0] && rest[1..] == tail[1..];
      assert [lines[i]] + rest[0] == lines[i..k] + tail[0];
    } else {
      assert lines[i..k] + Chunks(lines[k..])[0] == Chunks(lines[k..])[0];
    }
  }

  lemma ChunksAtDelimiter(lines: seq<string>, k: nat)
    requires k < |lines| && IsDelimiter(lines[k])
    ensures Chunks(lines[k..]) == [[]] + Chunks(lines[k + 1..])
  {
    assert lines[k..][1..] == lines[k + 1..];
  }

  /** The chunks that follow a chunk ending at `k`. */
  function ChunksAfter(lines: seq<string>, k: nat): seq<seq<string>>
    requires k <= |lines|
  {
    if k < |lines| then Chunks(lines[k + 1..]) else []
  }

  /** The first chunk of `lines[i..]`, when it ends at `k`, and the rest. */
  lemma ChunkEndsAt(lines: seq<string>, i: nat, k: nat)
    requires i <= k <= |lines| && forall j :: i <= j < k ==> !IsDelimiter(lines[j])
    requires k < |lines| ==> IsDelimiter(lines[k])
    ensures Chunks(lines[i..]) == [lines[i..k]] + ChunksAfter(lines, k)
  {
    ChunksSkip(lines, i, k);
    if k < |lines| {
      ChunksAtDelimiter(lines, k);
      assert lines[i..k] + [] == lines[i..k];
    } else {
      assert lines[k..] == [];
      assert lines[i..k] + [] == lines[i..k];
    }
  }

  /** The first delimiter at or after `i`, or the end. */
  method NextDelimiter(lines: seq<string>, i: nat) returns (k: nat)
    requires i <= |lines|
    ensures i <= k <= |lines| && (forall j :: i <= j < k ==> !IsDelimiter(lines[j]))
    ensures k < |lines| ==> IsDelimiter(lines[k])
  {
    k := i;
    while k < |lines| && !IsDelimiter(lines[k])
      invariant i <= k <= |lines| && forall j :: i <= j < k ==> !IsDelimiter(lines[j])
    {
      k := k + 1;
    }
  }

  /** One turn of the splitter: a block between the delimiter at `i`, the next at `fmEnd`, and the body's end. */
  lemma OneBlock(lines: seq<string>, i: nat, fmEnd: nat, bodyEnd: nat)
    requires i < fmEnd < |lines| && fmEnd < bodyEnd <= |lines|
    requires IsDelimiter(lines[i]) && IsDelimiter(lines[fmEnd]) && (bodyEnd < |lines| ==> IsDelimiter(lines[bodyEnd]))
    requires forall j :: i < j < fmEnd || fmEnd < j < bodyEnd ==> !IsDelimiter(lines[j])
    ensures BlocksOf(lines[i..])
      == [Block(JoinLines(lines[i + 1..fmEnd]), JoinLines(lines[fmEnd + 1..bodyEnd]))] + BlocksOf(lines[bodyEnd..])
  {
    hide *;
    ChunksAtDelimiter(lines, i);
    ChunkEndsAt(lines, i + 1, fmEnd);
    ChunkEndsAt(lines, fmEnd + 1, bodyEnd);
    BlocksFrom(lines, fmEnd);
    BlocksFrom(lines, bodyEnd);
    FirstPair(lines[i..], lines[i + 1..fmEnd], lines[fmEnd + 1..bodyEnd], ChunksAfter(lines, bodyEnd));
  }

  lemma BlocksFrom(lines: seq<string>, k: nat)
    requires k <= |lines| && (k < |lines| ==> IsDelimiter(lines[k]))
    ensures BlocksOf(lines[k..]) == PairUp(ChunksAfter(lines, k))
    ensures k < |lines| ==> ChunksAfter(lines, k) == Chunks(lines[k + 1..])
  {
    if k < |lines| {
      ChunksAtDelimiter(lines, k);
      assert Chunks(lines[k..])[1..] == ChunksAfter(lines, k);
    } else {
      assert lines[k..] == [];
    }
  }

  lemma FirstPair(lines: seq<string>, fm: seq<string>, body: seq<string>, rest: seq<seq<string>>)
    requires Chunks(lines) == [[]] + ([fm] + ([body] + rest))
    ensures BlocksOf(lines) == [Block(JoinLines(fm), JoinLines(body))] + PairUp(rest)
  {
    var from := Chunks(lines)[1..];
    assert from[0] == fm && from[1] == body && from[2..] == rest;
  }

  /** The scan ends: no delimiter is left, or one that no other follows. */
  lemma NoBlock(lines: seq<string>, i: nat)
    requires i <= |lines| && forall j :: i < j < |lines| ==> !IsDelimiter(lines[j])
    ensures BlocksOf(lines[i..]) == []
  {
    if i < |lines| {
      ChunkEndsAt(lines, i + 1, |lines|);
      if IsDelimiter(lines[i]) { ChunksAtDelimiter(lines, i); } else { ChunksSkip(lines, i, i + 1); }
    } else {
      assert lines[i..] == [];
    }
  }

  lemma SkipLine(lines: seq<string>, i: nat)
    requires i < |lines| && !IsDelimiter(lines[i])
    ensures BlocksOf(lines[i..]) == BlocksOf(lines[i + 1..])
  {
    ChunksSkip(lines, i, i + 1);
  }

  /** The one-pass splitter, with its inner scans for the closing delimiter and the end of the body. */
  method SplitIntoBlocks(content: string) returns (blocks: seq<Block>)
    ensures blocks == BlocksOf(SplitLines(content))
    ensures exists ps :: CutAt(SplitLines(content), ps, blocks)
  {
    hide BlocksOf, IsDelimiter, JoinLines, SplitLines;
    var lines := SplitLines(content);
    BlocksByPosition(lines);
    blocks := [];
    var i := 0;
    assert lines[0..] == lines;
    while i < |lines|
      invariant i <= |lines|
      invariant blocks + BlocksOf(lines[i..]) == BlocksOf(lines)
    {
      if !IsDelimiter(lines[i]) {
        SkipLine(lines, i);
        i := i + 1;
        continue;
      }
      var fmEnd := NextDelimiter(lines, i + 1);
      if fmEnd == |lines| {
        NoBlock(lines, i);
        assert blocks + [] == blocks;
        return;   // no closing delimiter: the incomplete block is dropped
      }
      var bodyEnd := NextDelimiter(lines, fmEnd + 1);
      OneBlock(lines, i, fmEnd, bodyEnd);
      ghost var todo := BlocksOf(lines[bodyEnd..]);
      var block := Block(JoinLines(lines[i + 1..fmEnd]), JoinLines(lines[fmEnd + 1..bodyEnd]));
      assert blocks + ([block] + todo) == (blocks + [block]) + todo;
      blocks := blocks + [block];
      i := bodyEnd;
    }
    NoBlock(lines, i);
    assert blocks + [] == blocks;
  }

  // ----- In terms of delimiter positions -----

  function Positions(lines: seq<string>, from: nat): (ps: seq<nat>)
    requires from <= |lines|
    ensures forall i :: 0 <= i < |ps| ==> from <= ps[i] < |lines| && IsDelimiter(lines[ps[i]])
    decreases |lines| - from
  {
    if from == |lines| then []
    else (if IsDelimiter(lines[from]) then [from] else []) + Positions(lines, from + 1)
  }

  lemma {:induction false} PositionsComplete(lines: seq<string>, from: nat)
    requires from <= |lines|
    ensures forall j :: from <= j < |lines| && IsDelimiter(lines[j]) ==> j in Positions(lines, from)
    ensures forall a, b :: 0 <= a < b < |Positions(lines, from)| ==>
      Positions(lines, from)[a] < Positions(lines, from)[b]
    decreases |lines| - from
  {
    if from < |lines| {
      PositionsComplete(lines, from + 1);
    }
  }

  lemma {:induction false} OneChunkMore(lines: seq<string>, from: nat)
    requires from <= |lines|
    ensures |Chunks(lines[from..])| == |Positions(lines, from)| + 1
    decreases |lines| - from
  {
    if from < |lines| {
      assert lines[from..][1..] == lines[from + 1..];
      OneChunkMore(lines, from + 1);
    }
  }

  ghost function ChunkBegin(lines: seq<string>, from: nat, k: nat): nat
    requires from <= |lines| && k <= |Positions(lines, from)|
  {
    if k == 0 then from else Positions(lines, from)[k - 1] + 1
  }

  ghost function ChunkEnd(lines: seq<string>, from: nat, k: nat): nat
    requires from <= |lines| && k <= |Positions(lines, from)|
  {
    if k < |Positions(lines, from)| then Positions(lines, from)[k] else |lines|
  }

  lemma BoundsShift(lines: seq<string>, from: nat, k: nat)
    requires from < |lines| && k <= |Positions(lines, from)|
    ensures IsDelimiter(lines[from]) && k == 0 ==> ChunkBegin(lines, from, k) == ChunkEnd(lines, from, k) == from
    ensures IsDelimiter(lines[from]) && k > 0 ==>
      && k - 1 <= |Positions(lines, from + 1)|
      && ChunkBegin(lines, from, k) == ChunkBegin(lines, from + 1, k - 1)
      && ChunkEnd(lines, from, k) == ChunkEnd(lines, from + 1, k - 1)
    ensures !IsDelimiter(lines[from]) ==>
      && k <= |Positions(lines, from + 1)|
      && ChunkBegin(lines, from, k) == (if k == 0 then from else ChunkBegin(lines, from + 1, k))
      && ChunkEnd(lines, from, k) == ChunkEnd(lines, from + 1, k)
  {
  }

  lemma ChunksShift(lines: seq<string>, from: nat)
    requires from < |lines|
    ensures
      var rest := Chunks(lines[from + 1..]);
      Chunks(lines[from..]) == if IsDelimiter(lines[from]) then [[]] + rest else [[lines[from]] + rest[0]] + rest[1..]
  {
    assert lines[from..][1..] == lines[from + 1..];
  }

  /**
   Chunk `k` starts right after delimiter `k` (the document's start for `k` = 0) and ends at the next
   delimiter or the end.
   */
  lemma {:induction false} ChunkIsBetween(lines: seq<string>, from: nat, k: nat)
    requires from <= |lines| && k <= |Positions(lines, from)|
    ensures ChunkBegin(lines, from, k) <= ChunkEnd(lines, from, k) <= |lines| && k < |Chunks(lines[from..])|
    ensures Chunks(lines[from..])[k] == lines[ChunkBegin(lines, from, k)..ChunkEnd(lines, from, k)]
    decreases |lines| - from
  {
    hide Positions, Chunks, ChunkBegin, ChunkEnd;
    OneChunkMore(lines, from);
    if from == |lines| {
      NothingAfter(lines);
      return;
    }
    BoundsShift(lines, from, k);
    ChunksShift(lines, from);
    if !IsDelimiter(lines[from]) {
      ChunkIsBetween(lines, from + 1, k);
      if k == 0 {
        var end := ChunkEnd(lines, from, k);
        FirstChunkBegins(lines, from + 1);
        assert lines[from..end] == [lines[from]] + lines[from + 1..end];
      }
    } else if k > 0 {
      ChunkIsBetween(lines, from + 1, k - 1);
    }
  }

  lemma FirstChunkBegins(lines: seq<string>, from: nat)
    requires from <= |lines|
    ensures ChunkBegin(lines, from, 0) == from
  {
  }

  lemma NothingAfter(lines: seq<string>)
    ensures Positions(lines, |lines|) == [] && Chunks(lines[|lines|..]) == [[]]
    ensures ChunkBegin(lines, |lines|, 0) == ChunkEnd(lines, |lines|, 0) == |lines|
  {
  }

  lemma {:induction false} PairUpAt(chunks: seq<seq<string>>, k: nat)
    requires 2 * k + 1 < |chunks|
    ensures k < |PairUp(chunks)|
    ensures PairUp(chunks)[k] == Block(JoinLines(chunks[2 * k]), JoinLines(chunks[2 * k + 1]))
  {
    if k > 0 {
      PairUpAt(chunks[2..], k - 1);
    }
  }

  lemma {:induction false} PairUpLength(chunks: seq<seq<string>>)
    ensures |PairUp(chunks)| == Half(|chunks|)
  {
    hide Half;
    if |chunks| >= 2 {
      PairUpLength(chunks[2..]);
    }
  }

  /** The delimiter lines are those that show `---` between whitespace, a carriage return included, and nothing else. */
  lemma DelimiterLine(line: string)
    ensures IsDelimiter(line) <==>
      exists left, right :: line == left + "---" + right && AllSpace(left) && AllSpace(right)
  {
    TrimSpaceIs(line, "---");
    hide TrimSpace, AllSpace;
  }

  lemma DelimiterExamples()
    ensures IsDelimiter("---") && IsDelimiter("---\r") && IsDelimiter(" \t---") && !IsDelimiter("----")
  {
    DelimiterIsOne();
    DelimiterLine("---\r");
    assert "---\r" == "" + "---" + "\r";
    DelimiterLine(" \t---");
    assert " \t---" == " \t" + "---" + "";
    assert TrimLeft("----") == "----" && TrimRight("----") == "----";
  }

  /**
   Block `k` by the positions of the delimiter lines, both counted from zero: its frontmatter is the text between
   lines ps[2k] and ps[2k+1], and its body the text from line ps[2k+1] to the next of them or the end.
   */
  ghost predicate BlockAt(lines: seq<string>, ps: seq<nat>, k: nat, block: Block) {
    2 * k + 1 < |ps| &&
    var bodyEnd := if 2 * k + 2 < |ps| then ps[2 * k + 2] else |lines|;
    && ps[2 * k] + 1 <= ps[2 * k + 1] && ps[2 * k + 1] + 1 <= bodyEnd <= |lines|
    && block == Block(JoinLines(lines[ps[2 * k] + 1..ps[2 * k + 1]]), JoinLines(lines[ps[2 * k + 1] + 1..bodyEnd]))
  }

  /** `ps` are, in order, the positions of the lines that show `---` between whitespace, and they bound the blocks. */
  ghost predicate CutAt(lines: seq<string>, ps: seq<nat>, blocks: seq<Block>) {
    && (forall a, b :: 0 <= a < b < |ps| ==> ps[a] < ps[b])
    && (forall i :: 0 <= i < |ps| ==> ps[i] < |lines|)
    && (forall j: nat :: j < |lines| ==> (j in ps <==> Surrounds(lines[j], "---")))
    && |blocks| == |ps| / 2
    && (forall k: nat :: k < |blocks| ==> BlockAt(lines, ps, k, blocks[k]))
  }

  /** d delimiter lines give d / 2 blocks, rounded down, each between its delimiters. */
  lemma BlocksByPosition(lines: seq<string>)
    ensures CutAt(lines, Positions(lines, 0), BlocksOf(lines))
  {
    var ps, blocks := Positions(lines, 0), BlocksOf(lines);
    hide BlocksOf, IsDelimiter, JoinLines, BlockAt;
    PositionsComplete(lines, 0);
    forall j: nat | j < |lines| ensures j in ps <==> Surrounds(lines[j], "---") {
      DelimiterLine(lines[j]);
    }
    hide Positions, Surrounds;
    OneBlockPerPair(lines);
    forall k: nat | k < |blocks| ensures BlockAt(lines, ps, k, blocks[k]) {
      BlockAtPosition(lines, k);
    }
  }

  lemma BlockAtPosition(lines: seq<string>, k: nat)
    requires k < |BlocksOf(lines)|
    ensures BlockAt(lines, Positions(lines, 0), k, BlocksOf(lines)[k])
  {
    OneBlockPerPair(lines);
    BlockBetween(lines, k);
    BoundsAre(lines, k);
    hide BlocksOf, Positions, JoinLines, ChunkBegin, ChunkEnd;
  }

  lemma OneBlockPerPair(lines: seq<string>)
    ensures |BlocksOf(lines)| == |Positions(lines, 0)| / 2
  {
    assert lines[0..] == lines;
    OneChunkMore(lines, 0);
    PairUpLength(Chunks(lines)[1..]);
  }

  lemma BoundsAre(lines: seq<string>, k: nat)
    requires 2 * k + 1 < |Positions(lines, 0)|
    ensures
      var ps := Positions(lines, 0);
      && ChunkBegin(lines, 0, 2 * k + 1) == ps[2 * k] + 1 && ChunkEnd(lines, 0, 2 * k + 1) == ps[2 * k + 1]
      && ChunkBegin(lines, 0, 2 * k + 2) == ps[2 * k + 1] + 1
      && ChunkEnd(lines, 0, 2 * k + 2) == (if 2 * k + 2 < |ps| then ps[2 * k + 2] else |lines|)
  {
    hide Positions;
  }

  lemma BlockBetween(lines: seq<string>, k: nat)
    requires 2 * k + 1 < |Positions(lines, 0)|
    ensures
      var fmBegin, fmEnd := ChunkBegin(lines, 0, 2 * k + 1), ChunkEnd(lines, 0, 2 * k + 1);
      var bodyBegin, bodyEnd := ChunkBegin(lines, 0, 2 * k + 2), ChunkEnd(lines, 0, 2 * k + 2);
      && fmBegin <= fmEnd <= |lines| && bodyBegin <= bodyEnd <= |lines| && k < |BlocksOf(lines)|
      && BlocksOf(lines)[k] == Block(JoinLines(lines[fmBegin..fmEnd]), JoinLines(lines[bodyBegin..bodyEnd]))
  {
    hide Chunks, JoinLines, PairUp, Positions, ChunkBegin, ChunkEnd;
    assert lines[0..] == lines;
    OneChunkMore(lines, 0);
    ChunkIsBetween(lines, 0, 2 * k + 1);
    ChunkIsBetween(lines, 0, 2 * k + 2);
    PairUpAt(Chunks(lines)[1..], k);
  }

  // ----- Round trip -----

  predicate DelimiterFree(s: string) {
    forall line :: line in SplitLines(s) ==> !IsDelimiter(line)
  }

  function PrintLines(blocks: seq<Block>): seq<string> {
    if blocks == [] then []
    else
      [DELIMITER] + SplitLines(blocks[0].frontmatter) + [DELIMITER] + SplitLines(blocks[0].body)
      + PrintLines(blocks[1..])
  }

  /** The document of the given blocks, one after the other. */
  function Print(blocks: seq<Block>): string {
    JoinLines(PrintLines(blocks))
  }

  lemma DelimiterIsOne()
    ensures IsDelimiter(DELIMITER)
  {
    assert TrimLeft("---") == "---";
    assert TrimRight("---") == "---";
  }

  /** One printed block in front of a document that is empty or starts with a delimiter. */
  lemma PrintedBlock(fm: seq<string>, body: seq<string>, rest: seq<string>)
    requires forall line :: line in fm || line in body ==> !IsDelimiter(line)
    requires rest != [] ==> IsDelimiter(rest[0])
    ensures BlocksOf([DELIMITER] + fm + [DELIMITER] + body + rest)
      == [Block(JoinLines(fm), JoinLines(body))] + BlocksOf(rest)
  {
    DelimiterIsOne();
    hide *;
    var lines := [DELIMITER] + fm + [DELIMITER] + body + rest;
    var fmEnd, bodyEnd := |fm| + 1, |fm| + |body| + 2;
    PrintedShape(DELIMITER, fm, body, rest);
    assert lines[0] == DELIMITER && lines[fmEnd] == DELIMITER && (bodyEnd < |lines| ==> lines[bodyEnd] == rest[0]);
    forall j | 0 < j < fmEnd || fmEnd < j < bodyEnd ensures !IsDelimiter(lines[j]) {
      assert lines[j] in fm || lines[j] in body;
    }
    OneBlock(lines, 0, fmEnd, bodyEnd);
    assert lines[0..] == lines;
  }

  lemma PrintedShape<T>(d: T, fm: seq<T>, body: seq<T>, rest: seq<T>)
    ensures
      var lines := [d] + fm + [d] + body + rest;
      var fmEnd, bodyEnd := |fm| + 1, |fm| + |body| + 2;
      && bodyEnd <= |lines| && lines[0] == d && lines[fmEnd] == d
      && lines[1..fmEnd] == fm && lines[fmEnd + 1..bodyEnd] == body && lines[bodyEnd..] == rest
      && (forall j :: 0 < j < fmEnd ==> lines[j] == fm[j - 1])
      && (forall j :: fmEnd < j < bodyEnd ==> lines[j] == body[j - fmEnd - 1])
  {
  }

  lemma {:induction false} PrintedChunks(blocks: seq<Block>)
    requires forall b :: b in blocks ==> DelimiterFree(b.frontmatter) && DelimiterFree(b.body)
    ensures BlocksOf(PrintLines(blocks)) == blocks
    ensures PrintLines(blocks) != [] ==> IsDelimiter(PrintLines(blocks)[0])
  {
    DelimiterIsOne();
    if blocks != [] {
      var b := blocks[0];
      assert b in blocks && forall x :: x in blocks[1..] ==> x in blocks;
      PrintedChunks(blocks[1..]);
      JoinUndoesSplit(b.frontmatter);
      JoinUndoesSplit(b.body);
      PrintedBlock(SplitLines(b.frontmatter), SplitLines(b.body), PrintLines(blocks[1..]));
      assert [b] + blocks[1..] == blocks;
    }
  }

  lemma {:induction false} PrintGivesLines(blocks: seq<Block>)
    ensures forall line :: line in PrintLines(blocks) ==> IsLine(line)
  {
    if blocks != [] {
      PrintGivesLines(blocks[1..]);
      SplitGivesLines(blocks[0].frontmatter);
      SplitGivesLines(blocks[0].body);
    }
  }

  /** Printing delimiter-free blocks and splitting the document gives the same blocks back. */
  lemma SplitUndoesPrint(blocks: seq<Block>)
    requires forall b :: b in blocks ==> DelimiterFree(b.frontmatter) && DelimiterFree(b.body)
    ensures BlocksOf(SplitLines(Print(blocks))) == blocks
  {
    if blocks == [] {
      assert SplitLines("") == [""];
      assert Chunks([""]) == [[""] + Chunks([])[0]]
        + Chunks([])[1..] by { assert [""][1..] == []; assert TrimSpace("") == ""; }
    } else {
      PrintedChunks(blocks);
      PrintGivesLines(blocks);
      SplitUndoesJoin(PrintLines(blocks));
    }
  }
}
