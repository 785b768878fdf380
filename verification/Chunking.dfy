/**
  Semantic chunking: a segmenter nobody trusts proposes where a second topic begins,
  a structural cutter keeps the word budget off indivisible Markdown, and nothing is
  lost, whatever either says.
*/
module Chunking {
  import opened Wrappers
  import opened Text

  // ------------------------------------------------------------ Markdown structure

  predicate LineStart(s: string, i: nat)
    requires i <= |s|
  {
    i == 0 || s[i - 1] == '\n'
  }

  function LineEnd(s: string, i: nat): (e: nat)
    requires i <= |s|
    ensures i <= e <= |s|
    decreases |s| - i
  {
    if i == |s| || s[i] == '\n' then i else LineEnd(s, i + 1)
  }

  function HashesEnd(s: string, i: nat): (e: nat)
    requires i <= |s|
    ensures i <= e <= |s|
    decreases |s| - i
  {
    if i == |s| || s[i] != '#' then i else HashesEnd(s, i + 1)
  }

  function BlanksEnd(s: string, i: nat): (e: nat)
    requires i <= |s|
    ensures i <= e <= |s|
    decreases |s| - i
  {
    if i == |s| || !IsSpace(s[i]) then i else BlanksEnd(s, i + 1)
  }

  /** The last character in [lo, hi) that is not a newline. */
  function LastOnLine(s: string, lo: nat, hi: nat): (r: Option<nat>)
    requires hi <= |s|
    ensures r.Some? ==> lo <= r.value < hi
    decreases hi
  {
    if hi <= lo then None else if s[hi - 1] != '\n' then Some(hi - 1) else LastOnLine(s, lo, hi - 1)
  }

  /**
    The end of a match of `^#{1,6}\s+.+$` at a line start, if there is one.  The blanks
    may run over line ends; at the end of the text they give one back for the dot.
  */
  function HeadingEnd(s: string, i: nat): (r: Option<nat>)
    requires i <= |s|
    ensures r.Some? ==> i < r.value <= |s|
  {
    var hashes := HashesEnd(s, i);
    var blanks := BlanksEnd(s, hashes);
    if !LineStart(s, i) || !(1 <= hashes - i <= 6) || blanks == hashes then None
    else if blanks < |s| then
      var e := LineEnd(s, blanks);
      if e > i then Some(e) else None
    else
      var dot := LastOnLine(s, hashes + 1, |s|);
      if dot.Some? then Some(LineEnd(s, dot.value + 1)) else None
  }

  /** Where the last heading of a text begins, scanning match by match. */
  function LastHeading(s: string, from: nat, last: Option<nat>): (r: Option<nat>)
    requires from <= |s| && (last.Some? ==> last.value < |s|)
    ensures r.Some? ==> r.value < |s|
    decreases |s| - from
  {
    if from == |s| then last
    else
      var e := HeadingEnd(s, from);
      if e.Some? then LastHeading(s, e.value, Some(from)) else LastHeading(s, from + 1, last)
  }

  function Fences(s: string, from: nat): (r: seq<nat>)
    requires from <= |s|
    ensures forall i :: 0 <= i < |r| ==> from <= r[i] < |s|
    decreases |s| - from
  {
    if from + 3 > |s| then []
    else if LineStart(s, from) && s[from..from + 3] == "```" then [from] + Fences(s, from + 1)
    else Fences(s, from + 1)
  }

  /** A stretch of the source that reads as the beginning of a table row. */
  predicate TableRow(source: string, lo: nat, hi: nat)
    requires lo <= hi <= |source|
  {
    var t := LStrip(source[lo..hi]);
    t != "" && t[0] == '|'
  }

  /** Start of the line before `at`; a line that begins before `start` is taken to begin at zero. */
  function PreviousLine(source: string, start: nat, at: nat): (p: nat)
    requires start < at <= |source|
    ensures p < at
  {
    LastNewline(source, start, at - 1) + 1
  }

  /** How far back the table above `at` is followed. */
  function TableTop(source: string, start: nat, at: nat): (r: nat)
    requires at <= |source|
    ensures r <= at
    decreases at
  {
    if at <= start then at
    else
      var previous := PreviousLine(source, start, at);
      if TableRow(source, previous, at) then TableTop(source, start, previous) else at
  }

  /** A heading opened inside the block starts the next one instead. */
  function HeadingCut(candidate: string): (r: nat)
    ensures r < |candidate| || r == 0
  {
    var heading := LastHeading(candidate, 0, None);
    if heading.Some? then heading.value else 0
  }

  /** A fence left open starts the next block instead. */
  function FenceCut(candidate: string): (r: nat)
    ensures r < |candidate| || r == 0
  {
    var fences := Fences(candidate, 0);
    if |fences| % 2 == 1 then fences[|fences| - 1] else 0
  }

  /** A table being cut short starts the next block instead. */
  function TableCut(source: string, start: nat, nominal: nat): (r: nat)
    requires start < nominal <= |source|
    ensures r <= nominal
  {
    var line := LastNewline(source, start, nominal) + 1;
    if TableRow(source, line, nominal) then TableTop(source, start, line) else 0
  }

  /** Where a block that may end at `nominal` had better end. */
  function BlockEnd(source: string, start: nat, nominal: nat): (r: nat)
    requires start < nominal <= |source|
    ensures start < r <= nominal
  {
    var candidate := source[start..nominal];
    FirstCut(start, nominal, HeadingCut(candidate), FenceCut(candidate), TableCut(source, start, nominal))
  }

  /** Headings come before fences, and fences before tables. */
  function FirstCut(start: nat, nominal: nat, heading: nat, fence: nat, table: nat): nat {
    if heading > 0 then start + heading
    else if fence > 0 then start + fence
    else if table > start then table
    else nominal
  }

  /** However it is found, a cut short of the budget falls between lines. */
  lemma CutsBetweenLines(source: string, start: nat, nominal: nat)
    requires start < nominal <= |source|
    ensures BlockEnd(source, start, nominal) < nominal ==> source[BlockEnd(source, start, nominal) - 1] == '\n'
  {
    var heading, fence, table := CutsOf(source, start, nominal);
    FirstBetweenLines(source, start, nominal, heading, fence, table);
  }

  lemma CutsOf(source: string, start: nat, nominal: nat) returns (heading: nat, fence: nat, table: nat)
    requires start < nominal <= |source|
    ensures BlockEnd(source, start, nominal) == FirstCut(start, nominal, heading, fence, table)
    ensures start + heading <= nominal && start + fence <= nominal && table <= nominal
    ensures heading > 0 ==> source[start..nominal][heading - 1] == '\n'
    ensures fence > 0 ==> source[start..nominal][fence - 1] == '\n'
    ensures table > start ==> source[table - 1] == '\n'
  {
    var candidate := source[start..nominal];
    heading, fence := HeadingCut(candidate), FenceCut(candidate);
    CandidateBetweenLines(candidate);
    table := TableBetweenLines(source, start, nominal);
  }

  lemma FirstBetweenLines(source: string, start: nat, nominal: nat, heading: nat, fence: nat, table: nat)
    requires start < nominal <= |source| && start + heading <= nominal && start + fence <= nominal && table <= nominal
    requires heading > 0 ==> source[start..nominal][heading - 1] == '\n'
    requires fence > 0 ==> source[start..nominal][fence - 1] == '\n'
    requires table > start ==> source[table - 1] == '\n'
    ensures
      var end := FirstCut(start, nominal, heading, fence, table);
      end < nominal ==> start < end && source[end - 1] == '\n'
  {
  }

  lemma CandidateBetweenLines(candidate: string)
    ensures HeadingCut(candidate) > 0 ==> candidate[HeadingCut(candidate) - 1] == '\n'
    ensures FenceCut(candidate) > 0 ==> candidate[FenceCut(candidate) - 1] == '\n'
  {
    if HeadingCut(candidate) > 0 {
      HeadingBetweenLines(candidate);
    }
    if FenceCut(candidate) > 0 {
      FenceBetweenLines(candidate);
    }
  }

  lemma TableBetweenLines(source: string, start: nat, nominal: nat) returns (table: nat)
    requires start < nominal <= |source|
    ensures table == TableCut(source, start, nominal) <= nominal && (table > start ==> source[table - 1] == '\n')
  {
    table := TableFrom(source, start, nominal, LastNewline(source, start, nominal) + 1);
  }

  lemma TableFrom(source: string, start: nat, nominal: nat, line: nat) returns (table: nat)
    requires line <= nominal <= |source| && (line > start ==> source[line - 1] == '\n')
    ensures table == (if TableRow(source, line, nominal) then TableTop(source, start, line) else 0) <= nominal
    ensures table > start ==> source[table - 1] == '\n'
  {
    table := 0;
    if TableRow(source, line, nominal) {
      table := TableOnLine(source, start, line);
    }
  }

  lemma HeadingBetweenLines(candidate: string)
    requires HeadingCut(candidate) > 0
    ensures candidate[HeadingCut(candidate) - 1] == '\n'
  {
    HeadingOnLine(candidate, 0, None);
  }

  lemma FenceBetweenLines(candidate: string)
    requires FenceCut(candidate) > 0
    ensures candidate[FenceCut(candidate) - 1] == '\n'
  {
    FencesOnLines(candidate, 0, FenceCut(candidate));
  }

  lemma {:induction false} HeadingOnLine(s: string, from: nat, last: Option<nat>)
    requires from <= |s| && (last.Some? ==> last.value < |s| && LineStart(s, last.value))
    ensures LastHeading(s, from, last).Some? ==> LineStart(s, LastHeading(s, from, last).value)
    decreases |s| - from
  {
    if from < |s| {
      var e := HeadingEnd(s, from);
      if e.Some? {
        HeadingOnLine(s, e.value, Some(from));
      } else {
        HeadingOnLine(s, from + 1, last);
      }
    }
  }

  lemma {:induction false} FencesOnLines(s: string, from: nat, at: nat)
    requires from <= |s| && at in Fences(s, from)
    ensures at < |s| && LineStart(s, at)
    decreases |s| - from
  {
    if at != from || !LineStart(s, from) {
      FencesOnLines(s, from + 1, at);
    }
  }

  lemma {:induction false} TableOnLine(source: string, start: nat, at: nat) returns (top: nat)
    requires at <= |source| && (at > start ==> source[at - 1] == '\n')
    ensures top == TableTop(source, start, at) <= |source| && (top > start ==> source[top - 1] == '\n')
    decreases at
  {
    if at > start && TableRow(source, PreviousLine(source, start, at), at) {
      top := TableOnLine(source, start, PreviousLine(source, start, at));
    } else {
      top := at;
    }
  }

  /** Where the second line of a block begins, when it has one before `nominal`. */
  ghost predicate SecondLine(source: string, start: nat, nominal: nat, second: nat) {
    && start + 1 < second + 1 <= nominal <= |source| && source[second - 1] == '\n'
    && (forall i :: start <= i < second - 1 ==> source[i] != '\n')
  }

  /** Every line from the second up to `at` reads as a table row. */
  ghost predicate RowsFrom(source: string, start: nat, second: nat, at: nat)
    requires start < second && at <= |source|
    decreases at
  {
    at == second ||
    (second < at && TableRow(source, PreviousLine(source, start, at), at)
     && RowsFrom(source, start, second, PreviousLine(source, start, at)))
  }

  lemma {:induction false} RowsClimb(source: string, start: nat, second: nat, at: nat)
    requires start < second && at <= |source| && RowsFrom(source, start, second, at)
    ensures TableTop(source, start, at) == TableTop(source, start, second)
    decreases at
  {
    if at != second {
      RowsClimb(source, start, second, PreviousLine(source, start, at));
    }
  }

  /** The search for the line above the second one finds nothing, and so goes on from the start of the document. */
  lemma TopOfSecond(source: string, start: nat, nominal: nat, second: nat)
    requires SecondLine(source, start, nominal, second)
    ensures TableTop(source, start, second) == if TableRow(source, 0, second) then 0 else second
  {
    assert LastNewline(source, start, second - 1) == -1;
    assert PreviousLine(source, start, second) == 0;
    assert TableTop(source, start, 0) == 0;
  }

  /**
    A table that fills a block from its second line on.  The block is cut right there,
    its first row parted from the rest, exactly when no heading or fence cuts it and the
    document up to there does not itself begin with a bar; begins it with one, and neither
    cuts it, the block runs to its nominal end.
  */
  lemma OpeningTableSplitIff(source: string, start: nat, nominal: nat, second: nat)
    requires SecondLine(source, start, nominal, second)
    requires var line := LastNewline(source, start, nominal) + 1;
             TableRow(source, line, nominal) && RowsFrom(source, start, second, line)
    requires TableRow(source, second, LineEnd(source, second))
    ensures
      var candidate := source[start..nominal];
      BlockEnd(source, start, nominal) == second <==>
      HeadingCut(candidate) == 0 && FenceCut(candidate) == 0 && !TableRow(source, 0, second)
    ensures
      var candidate := source[start..nominal];
      HeadingCut(candidate) == 0 && FenceCut(candidate) == 0 && TableRow(source, 0, second) ==>
        BlockEnd(source, start, nominal) == nominal
  {
    var candidate := source[start..nominal];
    var table := OpeningEnd(source, start, nominal, second);
    NoMarkAt(source, start, nominal, second);
    FirstAt(start, nominal, HeadingCut(candidate), FenceCut(candidate), table, second);
  }

  /** Which cut comes first, with a table that is cut at its second row or, climbed past the start, not at all. */
  lemma FirstAt(start: nat, nominal: nat, heading: nat, fence: nat, table: nat, second: nat)
    requires start < second < nominal && (table == 0 || table == second)
    requires (heading > 0 ==> start + heading != second) && (fence > 0 ==> start + fence != second)
    ensures FirstCut(start, nominal, heading, fence, table) == second <==> heading == 0 && fence == 0 && table == second
    ensures heading == 0 && fence == 0 && table == 0 ==> FirstCut(start, nominal, heading, fence, table) == nominal
  {
  }

  lemma OpeningEnd(source: string, start: nat, nominal: nat, second: nat) returns (table: nat)
    requires SecondLine(source, start, nominal, second)
    requires var line := LastNewline(source, start, nominal) + 1;
             TableRow(source, line, nominal) && RowsFrom(source, start, second, line)
    ensures table == if TableRow(source, 0, second) then 0 else second
    ensures
      var candidate := source[start..nominal];
      BlockEnd(source, start, nominal) == FirstCut(start, nominal, HeadingCut(candidate), FenceCut(candidate), table)
  {
    table := EndFrom(source, start, nominal, second, LastNewline(source, start, nominal) + 1);
  }

  lemma EndFrom(source: string, start: nat, nominal: nat, second: nat, line: nat) returns (table: nat)
    requires SecondLine(source, start, nominal, second) && line == LastNewline(source, start, nominal) + 1
    requires TableRow(source, line, nominal) && RowsFrom(source, start, second, line)
    ensures table == if TableRow(source, 0, second) then 0 else second
    ensures
      var candidate := source[start..nominal];
      BlockEnd(source, start, nominal) == FirstCut(start, nominal, HeadingCut(candidate), FenceCut(candidate), table)
  {
    OpeningTableCut(source, start, nominal, second, line);
    table := if TableRow(source, 0, second) then 0 else second;
    EndIs(source, start, nominal, table);
  }

  lemma EndIs(source: string, start: nat, nominal: nat, table: nat)
    requires start < nominal <= |source| && table == TableCut(source, start, nominal)
    ensures
      var candidate := source[start..nominal];
      BlockEnd(source, start, nominal) == FirstCut(start, nominal, HeadingCut(candidate), FenceCut(candidate), table)
  {
  }

  lemma OpeningTableCut(source: string, start: nat, nominal: nat, second: nat, line: nat)
    requires SecondLine(source, start, nominal, second) && line == LastNewline(source, start, nominal) + 1
    requires TableRow(source, line, nominal) && RowsFrom(source, start, second, line)
    ensures TableCut(source, start, nominal) == if TableRow(source, 0, second) then 0 else second
  {
    CutAtTop(source, start, nominal, line);
    TopOfRows(source, start, nominal, second, line);
  }

  lemma TopOfRows(source: string, start: nat, nominal: nat, second: nat, line: nat)
    requires SecondLine(source, start, nominal, second) && line <= |source| && RowsFrom(source, start, second, line)
    ensures TableTop(source, start, line) == if TableRow(source, 0, second) then 0 else second
  {
    RowsClimb(source, start, second, line);
    TopOfSecond(source, start, nominal, second);
  }

  lemma CutAtTop(source: string, start: nat, nominal: nat, line: nat)
    requires start < nominal <= |source| && line == LastNewline(source, start, nominal) + 1
    requires TableRow(source, line, nominal)
    ensures TableCut(source, start, nominal) == TableTop(source, start, line)
  {
  }

  /** No heading and no fence begins where a table row does. */
  lemma NoMarkAt(source: string, start: nat, nominal: nat, second: nat)
    requires start < second < nominal <= |source| && TableRow(source, second, LineEnd(source, second))
    ensures HeadingCut(source[start..nominal]) > 0 ==> start + HeadingCut(source[start..nominal]) != second
    ensures FenceCut(source[start..nominal]) > 0 ==> start + FenceCut(source[start..nominal]) != second
  {
    var candidate := source[start..nominal];
    RowMark(source, second);
    assert candidate[second - start] == source[second];
    HeadingMark(candidate, 0, None);
    if FenceCut(candidate) > 0 {
      FenceMark(candidate, 0, FenceCut(candidate));
    }
  }

  /** A table row begins with blanks or a bar. */
  lemma RowMark(source: string, at: nat)
    requires at < |source| && TableRow(source, at, LineEnd(source, at))
    ensures source[at] == '|' || IsSpace(source[at])
  {
    var row := source[at..LineEnd(source, at)];
    if LeadingBlanks(row) > 0 {
      assert row[..LeadingBlanks(row)][0] == row[0];
    }
  }

  lemma {:induction false} HeadingMark(s: string, from: nat, last: Option<nat>)
    requires from <= |s| && (last.Some? ==> last.value < |s| && s[last.value] == '#')
    ensures LastHeading(s, from, last).Some? ==> s[LastHeading(s, from, last).value] == '#'
    decreases |s| - from
  {
    if from < |s| {
      var e := HeadingEnd(s, from);
      if e.Some? {
        HeadingMark(s, e.value, Some(from));
      } else {
        HeadingMark(s, from + 1, last);
      }
    }
  }

  lemma {:induction false} FenceMark(s: string, from: nat, at: nat)
    requires from <= |s| && at in Fences(s, from)
    ensures at < |s| && s[at] == '`'
    decreases |s| - from
  {
    if from + 3 <= |s| && LineStart(s, from) && s[from..from + 3] == "```" && at == from {
      assert s[from..from + 3][0] == s[from];
    } else {
      FenceMark(s, from + 1, at);
    }
  }

  /** A document on which it happens: a line of text, then a table of two rows that opens a block. */
  lemma OpeningTableSplit()
    ensures BlockEnd("x\n|a\n|b", 2, 7) == 5
  {
    var source := "x\n|a\n|b";
    TwoRows(source);
    BarRow(source, 5, 7);
    TextRow(source, 5);
    NoMarks(source[2..7]);
    OpeningTableSplitIff(source, 2, 7, 5);
  }

  lemma TwoRows(source: string)
    requires source == "x\n|a\n|b"
    ensures SecondLine(source, 2, 7, 5) && LastNewline(source, 2, 7) == 4 && LineEnd(source, 5) == 7
    ensures RowsFrom(source, 2, 5, 5)
  {
    assert LineEnd(source, 7) == 7 && LineEnd(source, 6) == 7;
    assert LastNewline(source, 2, 5) == 4 && LastNewline(source, 2, 6) == 4;
  }

  lemma BarRow(source: string, lo: nat, hi: nat)
    requires lo < hi <= |source| && source[lo] == '|'
    ensures TableRow(source, lo, hi)
  {
    assert source[lo..hi][0] == '|';
  }

  lemma TextRow(source: string, hi: nat)
    requires 0 < hi <= |source| && !IsSpace(source[0]) && source[0] != '|'
    ensures !TableRow(source, 0, hi)
  {
    assert source[0..hi][0] == source[0];
  }

  /** A text with neither hash nor backtick holds no heading and no fence. */
  lemma NoMarks(s: string)
    requires forall i :: 0 <= i < |s| ==> s[i] != '#' && s[i] != '`'
    ensures HeadingCut(s) == 0 && FenceCut(s) == 0
  {
    HeadingMark(s, 0, None);
    if FenceCut(s) > 0 {
      FenceMark(s, 0, FenceCut(s));
    }
  }

  method StructuralEnd(source: string, start: nat, nominal: nat) returns (end: nat)
    requires start < nominal <= |source|
    ensures end == BlockEnd(source, start, nominal)
  {
    var candidate := source[start..nominal];
    var heading, fence := HeadingCut(candidate), FenceCut(candidate);
    if heading > 0 {
      return start + heading;
    }
    if fence > 0 {
      return start + fence;
    }
    var line := LastNewline(source, start, nominal) + 1;
    if TableRow(source, line, nominal) {
      var tableStart := AboveTable(source, start, line);
      if tableStart > start {
        return tableStart;
      }
    }
    return nominal;
  }

  method AboveTable(source: string, start: nat, line: nat) returns (tableStart: nat)
    requires line <= |source|
    ensures tableStart == TableTop(source, start, line)
  {
    tableStart := line;
    while tableStart > start
      invariant 0 <= tableStart <= line
      invariant TableTop(source, start, line) == TableTop(source, start, tableStart)
      decreases tableStart
    {
      var previous := LastNewline(source, start, tableStart - 1) + 1;
      if !TableRow(source, previous, tableStart) {
        break;
      }
      tableStart := previous;
    }
  }

  // ------------------------------------------------------------------------ chunks

  datatype Outcome =
    | BelowFloor
    | OneTopic
    | SegmenterFailed
    | SuffixRollover(at: nat)
    | SuffixAtBlockStart
    | NonSuffixRejected

  datatype Chunk = Chunk(text: string, outcome: Outcome, start: nat, end: nat, startWord: nat, endWord: nat)

  /** What a segmenter does with a block: any reply at all, or an exception. */
  datatype Reply = Reply(text: string) | Raises

  /** Spans of the document in order and apart, each with its text, stripped, leaving out nothing that shows. */
  ghost predicate Spans(md: string, cs: seq<Chunk>, upTo: nat) {
    && upTo <= |md|
    && Exact(md, cs, upTo)
    && Apart(cs)
    && (forall p :: 0 <= p < upTo && !IsSpace(md[p]) ==> Covered(cs, p))
  }

  ghost predicate Exact(md: string, cs: seq<Chunk>, upTo: nat) {
    forall i :: 0 <= i < |cs| ==> cs[i].end <= upTo && SpanOf(md, cs[i])
  }

  ghost predicate Apart(cs: seq<Chunk>) {
    forall i, j :: 0 <= i < j < |cs| ==> cs[i].end <= cs[j].start
  }

  /** A chunk's text is its span, stripped, and the span begins with a character that shows. */
  ghost predicate SpanOf(md: string, c: Chunk) {
    && c.start < c.end <= |md|
    && !IsSpace(md[c.start])
    && c.text == Strip(md[c.start..c.end])
  }

  ghost predicate Covered(cs: seq<Chunk>, p: nat) {
    exists i :: 0 <= i < |cs| && cs[i].start <= p < cs[i].end
  }

  /** The rest of what a chunk reports: it is within the word budget, and its word numbers are its span's. */
  ghost predicate Measured(md: string, c: Chunk, maxWords: nat) {
    && c.start <= c.end <= |md| && c.text != ""
    && (maxWords >= 1 ==> WordsIn(c.text) <= maxWords)
    && c.startWord == WordsIn(md[..c.start]) && c.endWord == WordsIn(md[..c.end])
  }

  lemma OneMoreSpan(md: string, cs: seq<Chunk>, upTo: nat, c: Chunk, next: nat)
    requires Spans(md, cs, upTo) && SpanOf(md, c) && upTo == c.start && c.end <= next <= |md|
    requires Blank(md[c.end..next])
    ensures Spans(md, cs + [c], next)
  {
    var all := cs + [c];
    assert forall p :: c.end <= p < next ==> md[p] == md[c.end..next][p - c.end];
    forall p | 0 <= p < next && !IsSpace(md[p])
      ensures Covered(all, p)
    {
      if p < upTo {
        CoveredByMore(cs, c, p);
      } else {
        assert all[|cs|] == c;
      }
    }
  }

  lemma CoveredByMore(cs: seq<Chunk>, c: Chunk, p: nat)
    requires Covered(cs, p)
    ensures Covered(cs + [c], p)
  {
    var i :| 0 <= i < |cs| && cs[i].start <= p < cs[i].end;
    assert (cs + [c])[i] == cs[i];
  }

  /** What shows of a text: its characters that are not blank, in order. */
  function Shown(s: string): string {
    if s == "" then "" else Shown(s[..|s| - 1]) + if IsSpace(s[|s| - 1]) then "" else [s[|s| - 1]]
  }

  function ShownOf(cs: seq<Chunk>): string {
    if cs == [] then "" else ShownOf(cs[..|cs| - 1]) + Shown(cs[|cs| - 1].text)
  }

  lemma {:induction false} ShownSplit(a: string, b: string)
    ensures Shown(a + b) == Shown(a) + Shown(b)
    decreases |b|
  {
    if b == "" {
      assert a + b == a;
    } else {
      assert (a + b)[..|a + b| - 1] == a + b[..|b| - 1];
      ShownSplit(a, b[..|b| - 1]);
    }
  }

  lemma {:induction false} ShownBlank(s: string)
    requires Blank(s)
    ensures Shown(s) == ""
  {
    if s != "" {
      ShownBlank(s[..|s| - 1]);
    }
  }

  lemma ShownStrip(s: string)
    ensures Shown(Strip(s)) == Shown(s)
  {
    if Blank(s) {
      ShownBlank(s);
    } else {
      StripOrder(s);
      var lo, hi := LeadingBlanks(s), BlankTail(s);
      assert s == s[..lo] + (s[lo..hi] + s[hi..]);
      ShownSplit(s[..lo], s[lo..hi] + s[hi..]);
      ShownSplit(s[lo..hi], s[hi..]);
      ShownBlank(s[..lo]);
      ShownBlank(s[hi..]);
    }
  }

  /** Lossless: put end to end, the chunks show exactly what the document shows. */
  lemma {:induction false} NothingLost(md: string, cs: seq<Chunk>, upTo: nat)
    requires Spans(md, cs, upTo)
    ensures ShownOf(cs) == Shown(md[..upTo])
    decreases |cs|
  {
    if cs == [] {
      assert forall p :: 0 <= p < upTo ==> !Covered(cs, p);
      ShownBlank(md[..upTo]);
    } else {
      var c := cs[|cs| - 1];
      FrontCovers(md, cs, upTo);
      NothingLost(md, cs[..|cs| - 1], c.start);
      TailBlank(md, cs, upTo);
      ShownThrough(md, c.start, c.end, upTo);
    }
  }

  lemma ShownThrough(md: string, start: nat, end: nat, upTo: nat)
    requires start <= end <= upTo <= |md| && Blank(md[end..upTo])
    ensures Shown(md[..upTo]) == Shown(md[..start]) + Shown(Strip(md[start..end]))
  {
    var a, b, d := md[..start], md[start..end], md[end..upTo];
    assert md[..upTo] == a + (b + d);
    ShownSplit(a, b + d);
    ShownSplit(b, d);
    ShownStrip(b);
    ShownBlank(d);
  }

  lemma FrontCovers(md: string, cs: seq<Chunk>, upTo: nat)
    requires Spans(md, cs, upTo) && cs != []
    ensures Spans(md, cs[..|cs| - 1], cs[|cs| - 1].start)
  {
    var front, c := cs[..|cs| - 1], cs[|cs| - 1];
    forall p | 0 <= p < c.start && !IsSpace(md[p])
      ensures Covered(front, p)
    {
      CoveredByFront(cs, p);
    }
    FrontApart(cs);
  }

  lemma FrontApart(cs: seq<Chunk>)
    requires cs != [] && Apart(cs)
    ensures Apart(cs[..|cs| - 1])
    ensures forall i :: 0 <= i < |cs| - 1 ==> cs[i].end <= cs[|cs| - 1].start
  {
  }

  lemma CoveredByFront(cs: seq<Chunk>, p: nat)
    requires cs != [] && Covered(cs, p) && p < cs[|cs| - 1].start
    ensures Covered(cs[..|cs| - 1], p)
  {
    var i :| 0 <= i < |cs| && cs[i].start <= p < cs[i].end;
    assert cs[..|cs| - 1][i] == cs[i];
  }

  lemma TailBlank(md: string, cs: seq<Chunk>, upTo: nat)
    requires Spans(md, cs, upTo) && cs != []
    ensures Blank(md[cs[|cs| - 1].end..upTo])
  {
    EndsInOrder(md, cs, upTo);
    Beyond(md, cs, cs[|cs| - 1].end, upTo);
  }

  lemma EndsInOrder(md: string, cs: seq<Chunk>, upTo: nat)
    requires Exact(md, cs, upTo) && Apart(cs) && cs != []
    ensures cs[|cs| - 1].end <= upTo
    ensures forall i :: 0 <= i < |cs| ==> cs[i].end <= cs[|cs| - 1].end
  {
    FrontApart(cs);
    assert SpanOf(md, cs[|cs| - 1]);
  }

  lemma Beyond(md: string, cs: seq<Chunk>, end: nat, upTo: nat)
    requires end <= upTo <= |md|
    requires forall i :: 0 <= i < |cs| ==> cs[i].end <= end
    requires forall p :: 0 <= p < upTo && !IsSpace(md[p]) ==> Covered(cs, p)
    ensures Blank(md[end..upTo])
  {
    forall p | end <= p < upTo
      ensures IsSpace(md[p])
    {
      assert !Covered(cs, p);
    }
  }

  // ------------------------------------------------------------------- one block

  /** The block that begins at a character that shows: it starts there, and only its blank tail is stripped. */
  lemma BlockStarts(md: string, start: nat, end: nat)
    requires start < end <= |md| && !IsSpace(md[start])
    ensures
      var block := Strip(md[start..end]);
      && block != "" && start + |block| <= end
      && block == md[start..start + |block|]
      && Find(md[start..end], block) == 0
      && !IsSpace(block[0]) && RStrip(block) == block
      && Blank(md[start + |block|..end])
  {
    var slice := md[start..end];
    StrippedFromStart(slice);
    StripEnds(slice);
    var n := BlankTail(slice);
    FindPrefix(slice, n);
    assert md[start + n..end] == slice[n..];
  }

  /** No cut of a block holds more than `k` words. */
  ghost predicate WithinWords(md: string, start: nat, end: nat, k: nat)
    requires start <= end <= |md|
  {
    forall m :: start <= m <= end ==> WordsIn(md[start..m]) <= k
  }

  lemma BlockWords(md: string, start: nat, nominal: nat, end: nat, k: nat)
    requires start < end <= nominal <= |md| && WordsIn(md[start..nominal]) <= k
    ensures WithinWords(md, start, end, k)
  {
    forall m | start <= m <= end
      ensures WordsIn(md[start..m]) <= k
    {
      assert md[start..nominal][..m - start] == md[start..m];
      WordsOfPrefix(md[start..nominal], m - start);
    }
  }

  /** The first topic of a block that is split: what precedes the verbatim suffix, stripped. */
  lemma FirstTopic(md: string, start: nat, block: string, split: nat, maxWords: nat)
    requires 0 < split < |block| && start + |block| <= |md| && block == md[start..start + |block|]
    requires !IsSpace(md[start])
    requires maxWords >= 1 ==> WithinWords(md, start, start + |block|, maxWords)
    ensures
      var first := Strip(block[..split]);
      && first != "" && first == Strip(md[start..start + split])
      && (maxWords >= 1 ==> WordsIn(first) <= maxWords)
  {
    assert block[..split] == md[start..start + split];
    BlockStarts(md, start, start + split);
    var first := Strip(block[..split]);
    assert first == md[start..start + |first|];
  }

  /** The start of the next word, or the end of the document. */
  method NextShown(md: string, from: nat) returns (next: nat)
    requires from <= |md|
    ensures from <= next <= |md| && (next == |md| || !IsSpace(md[next]))
    ensures Blank(md[from..next])
  {
    next := from;
    while next < |md| && IsSpace(md[next])
      invariant from <= next <= |md| && Blank(md[from..next])
    {
      assert md[from..next + 1] == md[from..next] + [md[next]];
      next := next + 1;
    }
  }

  /** A place that cuts no word in two. */
  predicate BetweenWords(md: string, at: nat)
    requires 0 < at <= |md|
  {
    at == |md| || IsSpace(md[at]) || IsSpace(md[at - 1])
  }

  /** Where the word budget would end a block. */
  method NominalEnd(md: string, start: nat, maxWords: nat) returns (nominal: nat)
    requires start < |md| && !IsSpace(md[start])
    ensures start < nominal <= |md| && BetweenWords(md, nominal)
    ensures maxWords >= 1 ==> WordsIn(md[start..nominal]) <= maxWords
  {
    var rest := md[start..];
    var words := WordsIn(rest);
    SomeWord(rest);
    if words <= maxWords {
      assert md[start..|md|] == rest;
      return |md|;
    }
    // With no budget at all the index runs round to the last word.
    var k := if maxWords == 0 then words else maxWords;
    var end := WordEnd(rest, k);
    assert md[start..start + end] == rest[..end];
    assert end < |rest| ==> rest[end] == md[start + end];
    return start + end;
  }

  lemma SomeWord(s: string)
    requires s != "" && !IsSpace(s[0])
    ensures WordsIn(s) >= 1
  {
    assert s[..1][..0] == "";
    assert WordsIn(s[..1]) == 1;
    WordsOfPrefix(s, 1);
  }

  /** Asks for the second topic of a block; below the floor, or on an exception, there is none. */
  method SecondTopic(block: string, floor: int) returns (second: string, outcome: Outcome)
    ensures RStrip(second) == second && (second != "" ==> !IsSpace(second[0]))
  {
    if WordsIn(block) < floor {
      return "", BelowFloor;
    }
    var reply: Reply := *;
    if !reply.Reply? {
      return "", SegmenterFailed;
    }
    second := Strip(reply.text);
    if second != "" {
      StripBlank(reply.text);
      StripEnds(reply.text);
    }
    outcome := OneTopic;
  }

  /**
    Cuts a document into chunks.  Whatever the segmenter replies, the loop ends, and the
    chunks are exact spans, in order and apart, that leave out nothing that shows.
  */
  method SemanticChunks(md: string, maxWords: nat, floor: int) returns (cs: seq<Chunk>)
    ensures Spans(md, cs, |md|)
    ensures forall c :: c in cs ==> Measured(md, c, maxWords)
    ensures ShownOf(cs) == Shown(md)
  {
    cs := [];
    var pending := NextShown(md, 0);
    assert md[0..pending] == md[..pending];
    assert forall p :: 0 <= p < pending ==> IsSpace(md[..pending][p]);
    while pending < |md|
      invariant pending <= |md| && (pending < |md| ==> !IsSpace(md[pending]))
      invariant Spans(md, cs, pending)
      invariant forall c :: c in cs ==> Measured(md, c, maxWords)
      decreases |md| - pending
    {
      var c, next := CutOne(md, pending, maxWords, floor);
      OneMoreSpan(md, cs, pending, c, next);
      cs, pending := cs + [c], next;
    }
    NothingLost(md, cs, |md|);
    assert md[..|md|] == md;
  }

  /** The next block: within the word budget, cut short for Markdown's sake, never in the middle of a word. */
  method NextBlock(md: string, pending: nat, maxWords: nat) returns (end: nat)
    requires pending < |md| && !IsSpace(md[pending])
    ensures pending < end <= |md| && BetweenWords(md, end)
    ensures maxWords >= 1 ==> WithinWords(md, pending, end, maxWords)
  {
    var nominal := NominalEnd(md, pending, maxWords);
    end := StructuralEnd(md, pending, nominal);
    CutsBetweenLines(md, pending, nominal);
    if maxWords >= 1 {
      BlockWords(md, pending, nominal, end, maxWords);
    }
  }

  /** One turn of the loop: the chunk it appends and where the next block begins. */
  method CutOne(md: string, pending: nat, maxWords: nat, floor: int) returns (c: Chunk, next: nat)
    requires pending < |md| && !IsSpace(md[pending])
    ensures Measured(md, c, maxWords)
    ensures SpanOf(md, c) && pending == c.start && c.end <= next <= |md|
    ensures Blank(md[c.end..next]) && (next < |md| ==> !IsSpace(md[next]))
  {
    var end := NextBlock(md, pending, maxWords);
    var block := Strip(md[pending..end]);
    BlockStarts(md, pending, end);
    assert Find(md[pending..end], block) == 0;
    var start := pending + Find(md[pending..end], block);
    var second, outcome := SecondTopic(block, floor);
    c, next := Decide(md, start, end, block, second, outcome, maxWords);
  }

  /** Splits the block at a verbatim suffix, or keeps it whole and steps over what is blank behind it. */
  method Decide(md: string, start: nat, end: nat, block: string, second: string, reported: Outcome, maxWords: nat)
    returns (c: Chunk, next: nat)
    requires start + |block| <= end <= |md| && block != "" && !IsSpace(md[start])
    requires block == md[start..start + |block|] && Blank(md[start + |block|..end])
    requires RStrip(block) == block && RStrip(second) == second && (second != "" ==> !IsSpace(second[0]))
    requires maxWords >= 1 ==> WithinWords(md, start, start + |block|, maxWords)
    ensures Measured(md, c, maxWords)
    ensures SpanOf(md, c) && start == c.start && c.end <= next <= |md|
    ensures Blank(md[c.end..next]) && (next < |md| ==> !IsSpace(md[next]))
    ensures second != "" && |second| < |block| && EndsWith(block, second) ==>
              next == c.end == start + |block| - |second| && c.outcome == SuffixRollover(|block| - |second|)
    ensures !(second != "" && |second| < |block| && EndsWith(block, second)) ==>
              c.text == block && c.outcome == if second == "" then reported
                                              else if EndsWith(block, second) then SuffixAtBlockStart
                                              else NonSuffixRejected
  {
    var split := SuffixAt(block, second);
    if split > 0 {
      SuffixShows(md, start, block, second, split);
      c := RollOver(md, start, block, split, maxWords);
      next := start + split;
    } else {
      var outcome := if split == 0 then SuffixAtBlockStart else if second != "" then NonSuffixRejected else reported;
      c, next := Keep(md, start, end, block, outcome, maxWords);
    }
  }

  /** Emits the first topic of a split block; the second is left for the next turn. */
  method RollOver(md: string, start: nat, block: string, split: nat, maxWords: nat) returns (c: Chunk)
    requires 0 < split < |block| && start + |block| <= |md| && block == md[start..start + |block|]
    requires !IsSpace(md[start])
    requires maxWords >= 1 ==> WithinWords(md, start, start + |block|, maxWords)
    ensures Measured(md, c, maxWords) && c.outcome == SuffixRollover(split)
    ensures SpanOf(md, c) && c.start == start && c.end == start + split
  {
    var first := Strip(block[..split]);
    FirstTopic(md, start, block, split, maxWords);
    c := Report(md, first, SuffixRollover(split), start, start + split, maxWords);
    assert md[c.start..c.end] == md[start..start + split];
  }

  /** Emits a whole block and steps over what is blank behind it. */
  method Keep(md: string, start: nat, end: nat, block: string, outcome: Outcome, maxWords: nat)
    returns (c: Chunk, next: nat)
    requires start + |block| <= end <= |md| && block != "" && !IsSpace(md[start])
    requires block == md[start..start + |block|] && RStrip(block) == block && Blank(md[start + |block|..end])
    requires maxWords >= 1 ==> WithinWords(md, start, start + |block|, maxWords)
    ensures Measured(md, c, maxWords) && c.text == block && c.outcome == outcome
    ensures SpanOf(md, c) && start == c.start && c.end <= next <= |md|
    ensures Blank(md[c.end..next]) && (next < |md| ==> !IsSpace(md[next]))
  {
    WholeBlock(md, start, block, maxWords);
    c := Report(md, block, outcome, start, start + |block|, maxWords);
    WholeSpan(md, c, block);
    next := NextShown(md, end);
    BlankJoin(md, c.end, end, next);
  }

  method Report(md: string, text: string, outcome: Outcome, start: nat, end: nat, maxWords: nat) returns (c: Chunk)
    requires start <= end <= |md| && text != "" && (maxWords >= 1 ==> WordsIn(text) <= maxWords)
    ensures Measured(md, c, maxWords)
    ensures c.text == text && c.outcome == outcome && c.start == start && c.end == end
  {
    c := Chunk(text, outcome, start, end, WordsIn(md[..start]), WordsIn(md[..end]));
  }

  /** A block that is kept whole is its own span, stripped. */
  lemma WholeBlock(md: string, start: nat, block: string, maxWords: nat)
    requires start + |block| <= |md| && block == md[start..start + |block|] && block != ""
    requires !IsSpace(md[start]) && RStrip(block) == block
    requires maxWords >= 1 ==> WithinWords(md, start, start + |block|, maxWords)
    ensures Strip(block) == block && (maxWords >= 1 ==> WordsIn(block) <= maxWords)
  {
    StrippedFromStart(block);
  }

  lemma WholeSpan(md: string, c: Chunk, block: string)
    requires c.start <= c.end <= |md| && block == md[c.start..c.end] && block != "" && !IsSpace(md[c.start])
    requires c.text == block && Strip(block) == block
    ensures SpanOf(md, c)
  {
  }

  lemma BlankJoin(md: string, a: nat, b: nat, c: nat)
    requires a <= b <= c <= |md| && Blank(md[a..b]) && Blank(md[b..c])
    ensures Blank(md[a..c])
  {
    assert md[a..c] == md[a..b] + md[b..c];
  }

  /** Where the second topic begins in its block, when it is a verbatim suffix; otherwise -1. */
  method SuffixAt(block: string, second: string) returns (split: int)
    requires RStrip(block) == block && RStrip(second) == second
    ensures second != "" && EndsWith(block, second) ==> split == |block| - |second|
    ensures second == "" || !EndsWith(block, second) ==> split == -1
  {
    var suffix := second != "" && EndsWith(RStrip(block), RStrip(second));
    if suffix {
      RFindSuffix(block, second);
    }
    split := if suffix then RFind(RStrip(block), RStrip(second)) else -1;
  }

  lemma SuffixShows(md: string, start: nat, block: string, second: string, split: nat)
    requires start + |block| <= |md| && block == md[start..start + |block|]
    requires second != "" && !IsSpace(second[0]) && split == |block| - |second| && EndsWith(block, second)
    ensures start + split < |md| && !IsSpace(md[start + split])
  {
    assert block[split] == md[start + split];
    assert block[split..][0] == block[split];
  }
}
