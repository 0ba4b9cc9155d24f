/** A note split into prose regions and choice groups (`parseFeedbackChoices`). */
module ChoiceDocument {
  import opened Options
  import opened ChoiceLines
  import opened ChoiceScanner
  import opened ChoiceIds

  datatype Region = Region(source: string, sourceStart: nat)

  datatype FeedbackChoice = FeedbackChoice(id: string, choice: Choice)

  datatype Group = Group(
    index: nat,
    start: nat,
    end: nat,
    question: Option<string>,
    inlineQuestion: bool,
    choices: seq<FeedbackChoice>)

  datatype Document = Document(groups: seq<Group>, regions: seq<Region>)

  // ---- regions ----------------------------------------------------------------------------------

  ghost predicate Newlines(source: string, from: nat, until: nat)
    requires until <= |source|
  {
    forall i :: from <= i < until ==> source[i] == '\n'
  }

  /** `r` is the text between two offsets without the newlines around it, at its exact place. */
  ghost predicate Between(source: string, from: nat, until: nat, r: Region) {
    var end := r.sourceStart + |r.source|;
    && from <= r.sourceStart && end <= until <= |source|
    && r.source == source[r.sourceStart..end]
    && Newlines(source, from, r.sourceStart) && Newlines(source, end, until)
    && (r.source != "" ==> source[r.sourceStart] != '\n' && source[end - 1] != '\n')
  }

  function PastNewlines(source: string, from: nat, until: nat): (r: nat)
    requires from <= until <= |source|
    ensures from <= r <= until && Newlines(source, from, r) && (r < until ==> source[r] != '\n')
    decreases until - from
  {
    if from < until && source[from] == '\n' then PastNewlines(source, from + 1, until) else from
  }

  function BeforeNewlines(source: string, from: nat, until: nat): (r: nat)
    requires from <= until <= |source|
    ensures from <= r <= until && Newlines(source, r, until) && (from < r ==> source[r - 1] != '\n')
    decreases until - from
  {
    if from < until && source[until - 1] == '\n' then BeforeNewlines(source, from, until - 1) else until
  }

  function RegionBetween(source: string, from: nat, until: nat): (r: Region)
    requires from <= until <= |source|
    ensures Between(source, from, until, r)
  {
    var start := PastNewlines(source, from, until);
    Region(source[start..BeforeNewlines(source, start, until)], start)
  }

  // ---- the outer scan -----------------------------------------------------------------------------

  /** The lines of a group, its header included. */
  datatype Span = Span(line: nat, lastLine: nat)

  datatype Progress = Progress(fence: Option<Fence>, proseStart: nat, groups: seq<Group>, regions: seq<Region>, spans: seq<Span>)

  /** The group that line `i` opens outside fenced code. */
  function Opens(c: Classifier, texts: seq<string>, i: nat): (g: Option<Scanned>)
    requires i < |texts|
    ensures g.Some? ==> i <= g.value.lastLine < |texts| && g.value.choices != []
  {
    if c.header(texts[i]).Some? then
      var first := SkipBlank(c, texts, i + 1);
      GroupIsWellScanned(c, texts, first, true);
      GroupAt(c, texts, first, true)
    else
      GroupIsWellScanned(c, texts, i, false);
      GroupAt(c, texts, i, false)
  }

  lemma OpensSound(c: Classifier, texts: seq<string>, i: nat)
    requires i < |texts|
    ensures var g := Opens(c, texts, i);
            g.Some? ==>
              && i <= g.value.choices[0].line && ShareOut(c, texts, g.value.choices[0].line, g.value.lastLine, g.value.choices)
  {
    if c.header(texts[i]).Some? {
      GroupIsWellScanned(c, texts, SkipBlank(c, texts, i + 1), true);
    } else {
      GroupIsWellScanned(c, texts, i, false);
    }
  }

  function Identified(index: nat, choices: seq<Choice>): (r: seq<FeedbackChoice>)
    ensures |r| == |choices|
    ensures forall k :: 0 <= k < |r| ==> r[k] == FeedbackChoice(FeedbackChoiceId(index, k + 1), choices[k])
  {
    seq(|choices|, k requires 0 <= k < |choices| => FeedbackChoice(FeedbackChoiceId(index, k + 1), choices[k]))
  }

  function InlineQuestion(header: Option<ChoiceHeader>): Option<string> {
    if header.Some? then header.value.question else None
  }

  /** Where line `i` starts, and line `i - 1` ends. */
  function Offset(lines: seq<SourceLine>, i: nat): nat
    requires i <= |lines|
  {
    if i == 0 then 0 else lines[i - 1].end
  }

  lemma LineBounds(source: string, lines: seq<SourceLine>, i: nat)
    requires LaidOut(source, lines) && i < |lines|
    ensures lines[i].start == Offset(lines, i) < Offset(lines, i + 1) == lines[i].end <= |source|
  {
    assert LineAt(source, lines, i);
    assert i > 0 ==> lines[..i][i - 1] == lines[i - 1];
  }

  lemma {:induction false} OffsetsAscend(source: string, lines: seq<SourceLine>, i: nat, j: nat)
    requires LaidOut(source, lines) && i <= j <= |lines|
    ensures Offset(lines, i) <= Offset(lines, j) && (i < j ==> Offset(lines, i) < Offset(lines, j))
    decreases j
  {
    if i < j {
      LineBounds(source, lines, j - 1);
      OffsetsAscend(source, lines, i, j - 1);
    }
  }

  function NewGroup(c: Classifier, lines: seq<SourceLine>, before: Region, index: nat, i: nat, g: Scanned): Group
    requires i <= g.lastLine < |lines|
  {
    var inline := InlineQuestion(c.header(lines[i].text));
    Group(
      index, lines[i].start, lines[g.lastLine].end,
      if inline.Some? then inline else c.question(before.source), inline.Some?,
      Identified(index, g.choices))
  }

  /** A line outside fences that opens a group: the group, and the prose before it, are recorded. */
  function AddGroup(c: Classifier, source: string, lines: seq<SourceLine>, s: Progress, i: nat, g: Scanned): (r: Progress)
    requires LaidOut(source, lines) && i <= g.lastLine < |lines| && s.proseStart <= Offset(lines, i)
    ensures r.proseStart == Offset(lines, g.lastLine + 1)
  {
    LineBounds(source, lines, i);
    var before := RegionBetween(source, s.proseStart, lines[i].start);
    var group := NewGroup(c, lines, before, |s.groups| + 1, i, g);
    Progress(None, group.end, s.groups + [group], s.regions + [before], s.spans + [Span(i, g.lastLine)])
  }

  /** One turn of the outer loop: the new state and the line to go on with. */
  datatype Turn = Turn(state: Progress, next: nat)

  /** A line outside fences, with the group it opens. */
  function ProseTurn(c: Classifier, source: string, lines: seq<SourceLine>, s: Progress, i: nat, opens: Option<Scanned>): (t: Turn)
    requires LaidOut(source, lines) && i < |lines| && s.proseStart <= Offset(lines, i)
    requires opens.Some? ==> i <= opens.value.lastLine < |lines|
    ensures i < t.next <= |lines| && t.state.proseStart <= Max(s.proseStart, Offset(lines, t.next))
  {
    match opens
    case None => Turn(s, i + 1)
    case Some(g) => Turn(AddGroup(c, source, lines, s, i, g), g.lastLine + 1)
  }

  function ParseLine(c: Classifier, source: string, lines: seq<SourceLine>, s: Progress, i: nat): (t: Turn)
    requires LaidOut(source, lines) && i < |lines| && s.proseStart <= Offset(lines, i)
    ensures i < t.next <= |lines| && t.state.proseStart <= Max(s.proseStart, Offset(lines, t.next))
  {
    var text := lines[i].text;
    match s.fence
    case Some(open) => Turn(if c.Closes(text, open) then s.(fence := None) else s, i + 1)
    case None =>
      if c.fence(text).Some? then Turn(s.(fence := c.fence(text)), i + 1) else ProseTurn(c, source, lines, s, i, Opens(c, TextsOf(lines), i))
  }

  function ParseFrom(c: Classifier, source: string, lines: seq<SourceLine>, s: Progress, i: nat): (r: Progress)
    requires LaidOut(source, lines) && i <= |lines| && s.proseStart <= Offset(lines, i)
    ensures r.proseStart <= Offset(lines, |lines|)
    decreases |lines| - i
  {
    if i == |lines| then s
    else
      var t := ParseLine(c, source, lines, s, i);
      OffsetsAscend(source, lines, i, t.next);
      ParseFrom(c, source, lines, t.state, t.next)
  }

  const START := Progress(None, 0, [], [], [])

  function Finished(source: string, s: Progress): Option<Document>
    requires s.proseStart <= |source|
  {
    if s.groups == [] then None
    else Some(Document(s.groups, s.regions + [RegionBetween(source, s.proseStart, |source|)]))
  }

  function Parse(c: Classifier, source: string, lines: seq<SourceLine>): Option<Document>
    requires LinesOf(source, lines)
  {
    Finished(source, ParseFrom(c, source, lines, START, 0))
  }

  // ---- what a document is ---------------------------------------------------------------------------

  /** Where the prose before group `k` starts. */
  function ProseFrom(groups: seq<Group>, k: nat): nat
    requires k <= |groups|
  {
    if k == 0 then 0 else groups[k - 1].end
  }

  /** Region `k` is the prose between group `k` and the one before it. */
  ghost predicate Placed(source: string, groups: seq<Group>, regions: seq<Region>, k: nat)
    requires k < |groups| && k < |regions|
  {
    && Between(source, ProseFrom(groups, k), groups[k].start, regions[k])
    && groups[k].start < groups[k].end <= |source| && groups[k].index == k + 1
    && forall n :: 0 <= n < |groups[k].choices| ==> groups[k].choices[n].id == FeedbackChoiceId(k + 1, n + 1)
  }

  /** Regions and groups alternate and cover the source. */
  ghost predicate Tiles(source: string, d: Document) {
    var n := |d.groups|;
    && |d.regions| == n + 1 && n > 0
    && (forall k :: 0 <= k < n ==> Placed(source, d.groups, d.regions, k))
    && Between(source, ProseFrom(d.groups, n), |source|, d.regions[n])
  }

  /** The fence open at line `i` when the scan started at line `from`. */
  function OpenFence(c: Classifier, texts: seq<string>, from: nat, i: nat): Option<Fence>
    requires i <= |texts|
    decreases i
  {
    if i <= from then None
    else
      match OpenFence(c, texts, from, i - 1)
      case Some(open) => if c.Closes(texts[i - 1], open) then None else Some(open)
      case None => c.fence(texts[i - 1])
  }

  /** Line `i` opens a group: it is outside fenced code, is no fence itself, and a group is scanned there. */
  ghost predicate OpensGroup(c: Classifier, texts: seq<string>, from: nat, i: nat)
    requires i < |texts|
  {
    OpenFence(c, texts, from, i).None? && c.fence(texts[i]).None? && Opens(c, texts, i).Some?
  }

  function LineFrom(spans: seq<Span>, k: nat): nat
    requires k <= |spans|
  {
    if k == 0 then 0 else spans[k - 1].lastLine + 1
  }

  ghost predicate OnlyProse(c: Classifier, texts: seq<string>, from: nat, until: nat)
    requires until <= |texts|
  {
    forall i :: from <= i < until ==> !OpensGroup(c, texts, from, i)
  }

  /** Group `k` is the first one to open after the group before it, and takes just the lines it was scanned for. */
  ghost predicate FirstToOpen(c: Classifier, texts: seq<string>, spans: seq<Span>, k: nat)
    requires k < |spans|
  {
    var from, span := LineFrom(spans, k), spans[k];
    && from <= span.line <= span.lastLine < |texts|
    && OpensGroup(c, texts, from, span.line) && OnlyProse(c, texts, from, span.line)
    && span.lastLine == Opens(c, texts, span.line).value.lastLine
  }

  /** The lines of the groups of a note: no group was missed, none was found in fenced code. */
  ghost predicate GroupLines(c: Classifier, texts: seq<string>, spans: seq<Span>) {
    && (forall k :: 0 <= k < |spans| ==> FirstToOpen(c, texts, spans, k))
    && OnlyProse(c, texts, LineFrom(spans, |spans|), |texts|)
  }

  /** Group `k` of the document covers the lines of span `k` and holds the choices scanned there. */
  ghost predicate Covers(c: Classifier, lines: seq<SourceLine>, group: Group, before: Region, span: Span) {
    && span.line <= span.lastLine < |lines| && Opens(c, TextsOf(lines), span.line).Some?
    && group.start == Offset(lines, span.line) && group.end == Offset(lines, span.lastLine + 1)
    && group.choices == Identified(group.index, Opens(c, TextsOf(lines), span.line).value.choices)
    && var inline := InlineQuestion(c.header(lines[span.line].text));
       group.inlineQuestion == inline.Some? && group.question == if inline.Some? then inline else c.question(before.source)
  }

  // ---- the scan builds such a document ----------------------------------------------------------------

  /** What holds before line `i` is looked at. */
  ghost predicate SoFar(c: Classifier, source: string, lines: seq<SourceLine>, s: Progress, i: nat) {
    var n := |s.groups|;
    && i <= |lines| && |s.regions| == n && |s.spans| == n
    && s.proseStart == ProseFrom(s.groups, n) <= Offset(lines, i)
    && (forall k :: 0 <= k < n ==> Placed(source, s.groups, s.regions, k))
    && (forall k :: 0 <= k < n ==> Covers(c, lines, s.groups[k], s.regions[k], s.spans[k]))
    && (forall k :: 0 <= k < n ==> FirstToOpen(c, TextsOf(lines), s.spans, k))
    && LineFrom(s.spans, n) <= i && OnlyProse(c, TextsOf(lines), LineFrom(s.spans, n), i)
    && s.fence == OpenFence(c, TextsOf(lines), LineFrom(s.spans, n), i)
  }

  lemma SoFarNextLine(c: Classifier, source: string, lines: seq<SourceLine>, s: Progress, i: nat, fence: Option<Fence>)
    requires LaidOut(source, lines) && SoFar(c, source, lines, s, i) && i < |lines|
    requires !OpensGroup(c, TextsOf(lines), LineFrom(s.spans, |s.spans|), i)
    requires fence == OpenFence(c, TextsOf(lines), LineFrom(s.spans, |s.spans|), i + 1)
    ensures SoFar(c, source, lines, s.(fence := fence), i + 1)
  {
    hide Placed, Covers, FirstToOpen, OpensGroup;
    LineBounds(source, lines, i);
    var s' := s.(fence := fence);
    assert forall k :: 0 <= k < |s.groups| ==> s'.groups[k] == s.groups[k] && s'.regions[k] == s.regions[k] && s'.spans[k] == s.spans[k];
  }

  lemma NewPlaced(c: Classifier, source: string, lines: seq<SourceLine>, groups: seq<Group>, regions: seq<Region>, i: nat, g: Scanned)
    requires LaidOut(source, lines) && i <= g.lastLine < |lines| && |groups| == |regions|
    requires ProseFrom(groups, |groups|) <= Offset(lines, i)
    requires forall k :: 0 <= k < |groups| ==> Placed(source, groups, regions, k)
    ensures lines[i].start == Offset(lines, i) <= |source|
    ensures var before := RegionBetween(source, ProseFrom(groups, |groups|), lines[i].start);
            var more, all := groups + [NewGroup(c, lines, before, |groups| + 1, i, g)], regions + [before];
            forall k :: 0 <= k < |more| ==> Placed(source, more, all, k)
  {
    hide Between, RegionBetween, LaidOut;
    LineBounds(source, lines, i);
    LineBounds(source, lines, g.lastLine);
    OffsetsAscend(source, lines, i, g.lastLine + 1);
    var before := RegionBetween(source, ProseFrom(groups, |groups|), lines[i].start);
    var more, all := groups + [NewGroup(c, lines, before, |groups| + 1, i, g)], regions + [before];
    forall k | 0 <= k < |more| ensures Placed(source, more, all, k) {
      assert ProseFrom(more, k) == ProseFrom(groups, k);
      if k < |groups| {
        assert Placed(source, groups, regions, k);
      }
    }
  }

  lemma NewCovers(c: Classifier, source: string, lines: seq<SourceLine>, before: Region, index: nat, i: nat, g: Scanned)
    requires LaidOut(source, lines) && i <= g.lastLine < |lines| && Some(g) == Opens(c, TextsOf(lines), i)
    ensures Covers(c, lines, NewGroup(c, lines, before, index, i, g), before, Span(i, g.lastLine))
  {
    hide Opens, LaidOut;
    LineBounds(source, lines, i);
  }

  lemma NewFirst(c: Classifier, texts: seq<string>, spans: seq<Span>, i: nat, g: Scanned)
    requires forall k :: 0 <= k < |spans| ==> FirstToOpen(c, texts, spans, k)
    requires LineFrom(spans, |spans|) <= i <= g.lastLine < |texts| && Some(g) == Opens(c, texts, i)
    requires OpensGroup(c, texts, LineFrom(spans, |spans|), i) && OnlyProse(c, texts, LineFrom(spans, |spans|), i)
    ensures var more := spans + [Span(i, g.lastLine)]; forall k :: 0 <= k < |more| ==> FirstToOpen(c, texts, more, k)
  {
    hide OnlyProse, Opens;
    var more := spans + [Span(i, g.lastLine)];
    forall k | 0 <= k < |more| ensures FirstToOpen(c, texts, more, k) {
      assert LineFrom(more, k) == LineFrom(spans, k);
      if k < |spans| {
        assert FirstToOpen(c, texts, spans, k);
      }
    }
  }

  lemma SoFarGroup(c: Classifier, source: string, lines: seq<SourceLine>, s: Progress, i: nat, g: Scanned)
    requires LaidOut(source, lines) && SoFar(c, source, lines, s, i) && i < |lines|
    requires OpensGroup(c, TextsOf(lines), LineFrom(s.spans, |s.spans|), i)
    requires i <= g.lastLine < |lines| && Some(g) == Opens(c, TextsOf(lines), i)
    ensures SoFar(c, source, lines, AddGroup(c, source, lines, s, i, g), g.lastLine + 1)
  {
    hide Opens, Placed, Covers, FirstToOpen, OpensGroup, RegionBetween, Identified, LaidOut;
    var s', n := AddGroup(c, source, lines, s, i, g), |s.groups|;
    NewPlaced(c, source, lines, s.groups, s.regions, i, g);
    NewCovers(c, source, lines, s'.regions[n], n + 1, i, g);
    NewFirst(c, TextsOf(lines), s.spans, i, g);
    forall k | 0 <= k < n + 1 ensures Covers(c, lines, s'.groups[k], s'.regions[k], s'.spans[k]) {
      if k < n {
        assert Covers(c, lines, s.groups[k], s.regions[k], s.spans[k]);
      }
    }
  }

  lemma ParsesOneLine(c: Classifier, source: string, lines: seq<SourceLine>, s: Progress, i: nat)
    requires LaidOut(source, lines) && i < |lines| && s.proseStart <= Offset(lines, i)
    ensures Offset(lines, i) < Offset(lines, i + 1)
    ensures var text, g, all := lines[i].text, Opens(c, TextsOf(lines), i), ParseFrom(c, source, lines, s, i);
            if s.fence.Some? then
              all == ParseFrom(c, source, lines, if c.Closes(text, s.fence.value) then s.(fence := None) else s, i + 1)
            else if c.fence(text).Some? then all == ParseFrom(c, source, lines, s.(fence := c.fence(text)), i + 1)
            else if g.None? then all == ParseFrom(c, source, lines, s, i + 1)
            else
              && i <= g.value.lastLine < |lines| && g.value.choices != []
              && AddGroup(c, source, lines, s, i, g.value).proseStart == Offset(lines, g.value.lastLine + 1)
              && all == ParseFrom(c, source, lines, AddGroup(c, source, lines, s, i, g.value), g.value.lastLine + 1)
  {
    hide Opens, LaidOut;
    LineBounds(source, lines, i);
  }

  lemma {:induction false} ParseFromKeeps(c: Classifier, source: string, lines: seq<SourceLine>, s: Progress, i: nat)
    requires LinesOf(source, lines) && SoFar(c, source, lines, s, i)
    ensures SoFar(c, source, lines, ParseFrom(c, source, lines, s, i), |lines|)
    decreases |lines| - i
  {
    hide Placed, Covers, FirstToOpen, OnlyProse, AddGroup, LaidOut, Opens;
    if i < |lines| {
      hide ParseFrom;
      ParsesOneLine(c, source, lines, s, i);
      var texts := TextsOf(lines);
      var text, g := texts[i], Opens(c, texts, i);
      if s.fence.Some? || c.fence(text).Some? || g.None? {
        var fence := if s.fence.Some? then (if c.Closes(text, s.fence.value) then None else s.fence) else c.fence(text);
        SoFarNextLine(c, source, lines, s, i, fence);
        assert s.fence.Some? && fence == s.fence ==> s.(fence := fence) == s;
        assert s.fence.None? && c.fence(text).None? ==> s.(fence := fence) == s;
        ParseFromKeeps(c, source, lines, s.(fence := fence), i + 1);
      } else {
        SoFarGroup(c, source, lines, s, i, g.value);
        ParseFromKeeps(c, source, lines, AddGroup(c, source, lines, s, i, g.value), g.value.lastLine + 1);
      }
    }
  }

  /** The whole scan: the groups' lines, and the document laid over them. */
  ghost predicate Describes(c: Classifier, source: string, lines: seq<SourceLine>, d: Document, spans: seq<Span>) {
    && Tiles(source, d) && |spans| == |d.groups| && GroupLines(c, TextsOf(lines), spans)
    && forall k :: 0 <= k < |spans| ==> Covers(c, lines, d.groups[k], d.regions[k], spans[k])
  }

  /**
    The document of a note: regions and groups tile the source, each group covers the lines of the
    first group to open after the one before it, and a note without a document has no such line.
   */
  lemma DocumentTilesItsSource(c: Classifier, source: string, lines: seq<SourceLine>)
    returns (spans: seq<Span>)
    requires LinesOf(source, lines)
    ensures GroupLines(c, TextsOf(lines), spans)
    ensures Parse(c, source, lines).None? <==> spans == []
    ensures Parse(c, source, lines).Some? ==> Describes(c, source, lines, Parse(c, source, lines).value, spans)
  {
    hide Placed, Covers, FirstToOpen, OnlyProse, RegionBetween;
    assert OnlyProse(c, TextsOf(lines), 0, 0) by { NoProse(c, TextsOf(lines)); }
    ParseFromKeeps(c, source, lines, START, 0);
    var s := ParseFrom(c, source, lines, START, 0);
    spans := s.spans;
    if s.groups != [] {
      FinishedTiles(source, s);
      var d := Parse(c, source, lines).value;
      assert forall k :: 0 <= k < |spans| ==> d.regions[k] == s.regions[k];
    }
  }

  lemma NoProse(c: Classifier, texts: seq<string>)
    ensures OnlyProse(c, texts, 0, 0)
  {
  }

  lemma FinishedTiles(source: string, s: Progress)
    requires s.groups != [] && |s.regions| == |s.groups| && s.proseStart == ProseFrom(s.groups, |s.groups|) <= |source|
    requires forall k :: 0 <= k < |s.groups| ==> Placed(source, s.groups, s.regions, k)
    ensures Tiles(source, Finished(source, s).value)
  {
    hide Between, RegionBetween;
    var d := Finished(source, s).value;
    forall k | 0 <= k < |d.groups| ensures Placed(source, d.groups, d.regions, k) {
      assert Placed(source, s.groups, s.regions, k) && d.regions[k] == s.regions[k];
    }
  }

  /** The lines of the groups are settled by the note: there is one such list of spans. */
  lemma GroupLinesAreUnique(c: Classifier, texts: seq<string>, a: seq<Span>, b: seq<Span>)
    requires GroupLines(c, texts, a) && GroupLines(c, texts, b)
    ensures a == b
  {
    NoMoreGroups(c, texts, a, b);
    NoMoreGroups(c, texts, b, a);
    SameSpans(c, texts, a, b, |a|);
    assert a[..|a|] == a && b[..|b|] == b;
  }

  lemma NoMoreGroups(c: Classifier, texts: seq<string>, a: seq<Span>, b: seq<Span>)
    requires GroupLines(c, texts, a) && GroupLines(c, texts, b)
    ensures |b| <= |a|
  {
    hide OpensGroup;
    assert a[..|a|] == a;
    if |a| < |b| {
      assert FirstToOpen(c, texts, b, |a|) && LineFrom(b, |a|) == LineFrom(b[..|a|], |a|);
      SameSpans(c, texts, a, b, |a|);
    }
  }

  lemma {:induction false} SameSpans(c: Classifier, texts: seq<string>, a: seq<Span>, b: seq<Span>, n: nat)
    requires GroupLines(c, texts, a) && GroupLines(c, texts, b) && n <= |a| && n <= |b|
    ensures a[..n] == b[..n]
  {
    hide OpensGroup, Opens;
    if n > 0 {
      SameSpans(c, texts, a, b, n - 1);
      assert FirstToOpen(c, texts, a, n - 1) && FirstToOpen(c, texts, b, n - 1);
      assert n > 1 ==> a[n - 2] == a[..n - 1][n - 2] && b[n - 2] == b[..n - 1][n - 2];
      assert LineFrom(a, n - 1) == LineFrom(b, n - 1);
      assert a[..n] == a[..n - 1] + [a[n - 1]] && b[..n] == b[..n - 1] + [b[n - 1]];
    }
  }

  // ---- putting the pieces back together -------------------------------------------------------------

  function Padding(n: int): string {
    if n <= 0 then "" else Padding(n - 1) + "\n"
  }

  /** A region with the newlines that separate it from its neighbours. */
  function Padded(r: Region, from: nat, until: nat): string {
    Padding(r.sourceStart - from) + r.source + Padding(until - (r.sourceStart + |r.source|))
  }

  /** The pieces up to and including group `k - 1`; `texts` are the groups' own texts. */
  function Rebuilt(d: Document, texts: seq<string>, k: nat): string
    requires k <= |d.groups| == |texts| < |d.regions|
  {
    if k == 0 then ""
    else Rebuilt(d, texts, k - 1) + Padded(d.regions[k - 1], ProseFrom(d.groups, k - 1), d.groups[k - 1].start) + texts[k - 1]
  }

  lemma {:induction false} PaddingIsNewlines(source: string, from: nat, until: nat)
    requires from <= until <= |source| && Newlines(source, from, until)
    ensures Padding(until - from) == source[from..until]
    decreases until - from
  {
    if from < until {
      PaddingIsNewlines(source, from, until - 1);
      assert source[from..until] == source[from..until - 1] + [source[until - 1]];
    }
  }

  lemma PaddedIsSource(source: string, from: nat, until: nat, r: Region)
    requires Between(source, from, until, r)
    ensures Padded(r, from, until) == source[from..until]
  {
    hide Newlines, Padding;
    var end := r.sourceStart + |r.source|;
    PaddingIsNewlines(source, from, r.sourceStart);
    PaddingIsNewlines(source, end, until);
    ThreeParts(source, from, r.sourceStart, end, until);
  }

  lemma ThreeParts(s: string, a: nat, b: nat, c: nat, d: nat)
    requires a <= b <= c <= d <= |s|
    ensures s[a..b] + s[b..c] + s[c..d] == s[a..d]
  {
  }

  function GroupTexts(source: string, groups: seq<Group>): seq<string>
    requires forall k :: 0 <= k < |groups| ==> groups[k].start <= groups[k].end <= |source|
  {
    seq(|groups|, k requires 0 <= k < |groups| => source[groups[k].start..groups[k].end])
  }

  lemma {:induction false} RebuiltIsPrefix(source: string, d: Document, texts: seq<string>, k: nat)
    requires Tiles(source, d) && k <= |d.groups| == |texts|
    requires forall n :: 0 <= n < |d.groups| ==>
               d.groups[n].start <= d.groups[n].end <= |source| && texts[n] == source[d.groups[n].start..d.groups[n].end]
    ensures ProseFrom(d.groups, k) <= |source| && Rebuilt(d, texts, k) == source[..ProseFrom(d.groups, k)]
  {
    hide Between;
    if k > 0 {
      RebuiltIsPrefix(source, d, texts, k - 1);
      assert Placed(source, d.groups, d.regions, k - 1);
      var from, g := ProseFrom(d.groups, k - 1), d.groups[k - 1];
      assert from <= g.start by { BetweenOrders(source, from, g.start, d.regions[k - 1]); }
      PaddedIsSource(source, from, g.start, d.regions[k - 1]);
      ThreeParts(source, 0, from, g.start, g.end);
    }
  }

  lemma BetweenOrders(source: string, from: nat, until: nat, r: Region)
    requires Between(source, from, until, r)
    ensures from <= until <= |source|
  {
  }

  /** Nothing of a note is lost: its regions, padded to their offsets, and its groups make up the source. */
  lemma PiecesGiveBackTheSource(source: string, d: Document)
    requires Tiles(source, d)
    ensures forall k :: 0 <= k < |d.groups| ==> d.groups[k].start <= d.groups[k].end <= |source|
    ensures var texts, n := GroupTexts(source, d.groups), |d.groups|;
            Rebuilt(d, texts, n) + Padded(d.regions[n], ProseFrom(d.groups, n), |source|) == source
  {
    hide Between, Rebuilt, Padded;
    forall k | 0 <= k < |d.groups| ensures d.groups[k].start <= d.groups[k].end <= |source| {
      assert Placed(source, d.groups, d.regions, k);
    }
    var n := |d.groups|;
    var texts, from := GroupTexts(source, d.groups), ProseFrom(d.groups, n);
    RebuiltIsPrefix(source, d, texts, n);
    PaddedIsSource(source, from, |source|, d.regions[n]);
    assert source[..from] + source[from..|source|] == source;
  }

  /** Choice ids tell apart all choices of a document, across groups. */
  lemma IdsTellChoicesApart(source: string, d: Document, g: nat, i: nat, h: nat, j: nat)
    requires Tiles(source, d) && g < |d.groups| && h < |d.groups| && i < |d.groups[g].choices| && j < |d.groups[h].choices|
    requires d.groups[g].choices[i].id == d.groups[h].choices[j].id
    ensures g == h && i == j
  {
    hide FeedbackChoiceId;
    assert Placed(source, d.groups, d.regions, g) && Placed(source, d.groups, d.regions, h);
    ChoiceIdsAreUnique(g + 1, i + 1, h + 1, j + 1);
  }

  // ---- the parser as the source writes it -----------------------------------------------------------

  method ScanLine(c: Classifier, texts: seq<string>, lineIndex: nat) returns (scanned: Option<Scanned>)
    requires lineIndex < |texts|
    ensures scanned == Opens(c, texts, lineIndex)
  {
    hide GroupAt;
    if c.header(texts[lineIndex]).Some? {
      var first := PastBlank(c, texts, lineIndex + 1);
      scanned := ScanGroup(c, texts, first, true);
    } else {
      scanned := ScanGroup(c, texts, lineIndex, false);
    }
  }

  method ParseFeedbackChoices(c: Classifier, source: string) returns (d: Option<Document>)
    ensures forall lines :: LinesOf(source, lines) ==> d == Parse(c, source, lines)
    ensures d.Some? ==> Tiles(source, d.value)
  {
    hide Opens, RegionBetween, LaidOut, ParseFrom, NewGroup, Tiles, GroupLines;
    var lines := SourceLines(source);
    var texts := TextsOf(lines);
    var fence: Option<Fence>, proseStart: nat, groups: seq<Group>, regions: seq<Region> := None, 0, [], [];
    ghost var spans: seq<Span> := [];
    var lineIndex := 0;
    while lineIndex < |lines|
      invariant lineIndex <= |lines| && proseStart <= Offset(lines, lineIndex)
      invariant ParseFrom(c, source, lines, Progress(fence, proseStart, groups, regions, spans), lineIndex)
             == ParseFrom(c, source, lines, START, 0)
    {
      ParsesOneLine(c, source, lines, Progress(fence, proseStart, groups, regions, spans), lineIndex);
      LineBounds(source, lines, lineIndex);
      var text := lines[lineIndex].text;
      if fence.Some? {
        if c.Closes(text, fence.value) {
          fence := None;
        }
        lineIndex := lineIndex + 1;
        continue;
      }
      if c.fence(text).Some? {
        fence := c.fence(text);
        lineIndex := lineIndex + 1;
        continue;
      }
      var scanned := ScanLine(c, texts, lineIndex);
      if scanned.None? || scanned.value.choices == [] {
        lineIndex := lineIndex + 1;
        continue;
      }
      var before := RegionBetween(source, proseStart, lines[lineIndex].start);
      var group := NewGroup(c, lines, before, |groups| + 1, lineIndex, scanned.value);
      groups, regions, proseStart := groups + [group], regions + [before], group.end;
      spans := spans + [Span(lineIndex, scanned.value.lastLine)];
      lineIndex := scanned.value.lastLine + 1;
    }
    if groups == [] {
      d := None;
    } else {
      d := Some(Document(groups, regions + [RegionBetween(source, proseStart, |source|)]));
    }
    ParsedIsDocument(c, source, lines, Progress(fence, proseStart, groups, regions, spans));
  }

  lemma ParsedIsDocument(c: Classifier, source: string, lines: seq<SourceLine>, s: Progress)
    requires LinesOf(source, lines) && s.proseStart <= |source|
    requires ParseFrom(c, source, lines, s, |lines|) == ParseFrom(c, source, lines, START, 0)
    ensures forall other :: LinesOf(source, other) ==> Finished(source, s) == Parse(c, source, other)
    ensures Finished(source, s).Some? ==> Tiles(source, Finished(source, s).value)
  {
    hide LinesOf, Tiles, Finished;
    assert Finished(source, s) == Parse(c, source, lines);
    var _ := DocumentTilesItsSource(c, source, lines);
    forall other | LinesOf(source, other) ensures Finished(source, s) == Parse(c, source, other) {
      LinesAreUnique(source, lines, other);
    }
  }
}
