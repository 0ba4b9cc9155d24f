/** The two scanners that turn a run of lines into choices: Markdown lists and lettered blocks. */
module ChoiceScanner {
  import opened Options
  import opened ChoiceLines

  /** A choice by its place in the note: it starts at `line`, and its details go down to `lastLine`. */
  datatype Choice = Choice(line: nat, lastLine: nat, markdown: string, firstDetails: string, dedent: Option<nat>)

  datatype Scanned = Scanned(choices: seq<Choice>, lastLine: nat)

  // ---- what a scanned group is ----------------------------------------------------------------

  ghost predicate Blanks(c: Classifier, texts: seq<string>, from: nat, to: nat)
    requires to <= |texts|
  {
    forall i :: from <= i < to ==> c.blank(texts[i])
  }

  /** Choice `k` ends before the next one starts, and only blank lines lie between the two. */
  ghost predicate Adjoins(c: Classifier, texts: seq<string>, choices: seq<Choice>, k: nat)
    requires k + 1 < |choices|
  {
    && choices[k].lastLine < choices[k + 1].line < |texts|
    && Blanks(c, texts, choices[k].lastLine + 1, choices[k + 1].line)
  }

  /** The choices share out the lines from `first` to `lastLine`, in order and without overlap. */
  ghost predicate ShareOut(c: Classifier, texts: seq<string>, first: nat, lastLine: nat, choices: seq<Choice>) {
    && choices != [] && choices[0].line == first && choices[|choices| - 1].lastLine == lastLine < |texts|
    && (forall k :: 0 <= k < |choices| ==> choices[k].line <= choices[k].lastLine)
    && (forall k :: 0 <= k < |choices| - 1 ==> Adjoins(c, texts, choices, k))
  }

  lemma ShareOutOne(c: Classifier, texts: seq<string>, choice: Choice)
    requires choice.line <= choice.lastLine < |texts|
    ensures ShareOut(c, texts, choice.line, choice.lastLine, [choice])
  {
  }

  lemma ShareOutMore(c: Classifier, texts: seq<string>, first: nat, lastLine: nat, choices: seq<Choice>, next: Choice)
    requires ShareOut(c, texts, first, lastLine, choices) && lastLine < next.line <= next.lastLine < |texts|
    requires Blanks(c, texts, lastLine + 1, next.line)
    ensures ShareOut(c, texts, first, next.lastLine, choices + [next])
  {
    var more := choices + [next];
    forall k | 0 <= k < |more| - 1 ensures Adjoins(c, texts, more, k) {
      assert more[k] == choices[k];
      assert k < |choices| - 1 ==> Adjoins(c, texts, choices, k);
    }
  }

  /** The last choice reaches further down. */
  function Reach(choices: seq<Choice>, line: nat): (r: seq<Choice>)
    requires choices != []
    ensures |r| == |choices| && forall k :: 0 <= k < |r| - 1 ==> r[k] == choices[k]
  {
    choices[..|choices| - 1] + [choices[|choices| - 1].(lastLine := line)]
  }

  lemma ShareOutReach(c: Classifier, texts: seq<string>, first: nat, lastLine: nat, choices: seq<Choice>, line: nat)
    requires ShareOut(c, texts, first, lastLine, choices) && lastLine <= line < |texts|
    ensures ShareOut(c, texts, first, line, Reach(choices, line))
  {
    var r := Reach(choices, line);
    forall k | 0 <= k < |r| - 1 ensures Adjoins(c, texts, r, k) {
      assert Adjoins(c, texts, choices, k);
      assert r[k] == choices[k] && r[k + 1].line == choices[k + 1].line;
    }
  }

  lemma {:induction false} ChoicesAscend(c: Classifier, texts: seq<string>, first: nat, lastLine: nat, choices: seq<Choice>, j: nat, k: nat)
    requires ShareOut(c, texts, first, lastLine, choices) && j < k < |choices|
    ensures choices[j].lastLine < choices[k].line
    decreases k
  {
    assert Adjoins(c, texts, choices, k - 1);
    if j < k - 1 {
      ChoicesAscend(c, texts, first, lastLine, choices, j, k - 1);
    }
  }

  predicate Holds(choice: Choice, line: nat) {
    choice.line <= line <= choice.lastLine
  }

  lemma {:induction false} SomeChoiceHolds(c: Classifier, texts: seq<string>, first: nat, lastLine: nat, choices: seq<Choice>, line: nat, n: nat)
    requires ShareOut(c, texts, first, lastLine, choices) && 0 < n <= |choices|
    requires first <= line <= choices[n - 1].lastLine && line < |texts| && !c.blank(texts[line])
    ensures exists k :: 0 <= k < |choices| && Holds(choices[k], line)
  {
    if choices[n - 1].line <= line {
      assert Holds(choices[n - 1], line);
    } else {
      assert Adjoins(c, texts, choices, n - 2);
      SomeChoiceHolds(c, texts, first, lastLine, choices, line, n - 1);
    }
  }

  /** Every line of the group that is not blank belongs to exactly one choice; so no text is lost. */
  lemma EveryLineHasOneChoice(c: Classifier, texts: seq<string>, first: nat, lastLine: nat, choices: seq<Choice>, line: nat)
    requires ShareOut(c, texts, first, lastLine, choices)
    requires first <= line <= lastLine && !c.blank(texts[line])
    ensures exists k :: 0 <= k < |choices| && Holds(choices[k], line)
    ensures forall j, k :: 0 <= j < |choices| && 0 <= k < |choices| && Holds(choices[j], line) && Holds(choices[k], line) ==> j == k
  {
    SomeChoiceHolds(c, texts, first, lastLine, choices, line, |choices|);
    forall j, k | 0 <= j < |choices| && 0 <= k < |choices| && Holds(choices[j], line) && Holds(choices[k], line)
      ensures j == k {
      if j < k {
        ChoicesAscend(c, texts, first, lastLine, choices, j, k);
      } else if k < j {
        ChoicesAscend(c, texts, first, lastLine, choices, k, j);
      }
    }
  }

  // ---- Markdown lists ---------------------------------------------------------------------------

  /** `indent` is that of the choice being built. */
  datatype ListScan = ListScan(choices: seq<Choice>, indent: nat, lastLine: nat, blankBefore: bool)

  function ItemChoice(item: ListItem, line: nat): Choice {
    Choice(line, line, item.markdown, "", Some(item.contentColumn))
  }

  /** What one line does to the list; `None` when it ends it. */
  function ListStep(c: Classifier, text: string, ordered: bool, s: ListScan, line: nat): Option<ListScan> {
    if c.blank(text) then Some(s.(blankBefore := true))
    else if s.choices != [] && c.indent(text) >= s.indent + 2 then
      Some(s.(choices := Reach(s.choices, line), lastLine := line, blankBefore := false))
    else
      match c.item(text)
      case Some(item) =>
        if item.ordered != ordered then None
        else Some(ListScan(s.choices + [ItemChoice(item, line)], item.indent, line, false))
      case None =>
        if s.choices != [] && !s.blankBefore && !c.Interrupts(text)
        then Some(s.(choices := Reach(s.choices, line), lastLine := line))
        else None
  }

  function ListFrom(c: Classifier, texts: seq<string>, ordered: bool, s: ListScan, line: nat): ListScan
    requires line <= |texts|
    decreases |texts| - line
  {
    if line == |texts| then s
    else
      match ListStep(c, texts[line], ordered, s, line)
      case Some(next) => ListFrom(c, texts, ordered, next, line + 1)
      case None => s
  }

  function ListAt(c: Classifier, texts: seq<string>, first: nat): Scanned
    requires first < |texts| && c.item(texts[first]).Some?
  {
    var s := ListFrom(c, texts, c.item(texts[first]).value.ordered, ListScan([], 0, first, false), first);
    Scanned(s.choices, s.lastLine)
  }

  /** Every choice starts at a list item of the list's own marker kind and carries its label. */
  ghost predicate OneListKind(c: Classifier, texts: seq<string>, ordered: bool, choices: seq<Choice>) {
    forall k :: 0 <= k < |choices| ==>
      var choice := choices[k];
      && choice.line < |texts| && c.item(texts[choice.line]).Some?
      && var item := c.item(texts[choice.line]).value;
         choice.markdown == item.markdown && choice.firstDetails == "" && choice.dedent == Some(item.contentColumn) && item.ordered == ordered
  }

  ghost predicate ListSoFar(c: Classifier, texts: seq<string>, ordered: bool, first: nat, s: ListScan, line: nat) {
    && ShareOut(c, texts, first, s.lastLine, s.choices) && OneListKind(c, texts, ordered, s.choices)
    && s.lastLine < line <= |texts| && Blanks(c, texts, s.lastLine + 1, line)
  }

  lemma ListStepKeeps(c: Classifier, texts: seq<string>, ordered: bool, first: nat, s: ListScan, line: nat)
    requires ListSoFar(c, texts, ordered, first, s, line) && line < |texts|
    ensures var next := ListStep(c, texts[line], ordered, s, line);
            next.Some? ==> ListSoFar(c, texts, ordered, first, next.value, line + 1)
  {
    hide ShareOut;
    ChoicesExist(c, texts, first, s.lastLine, s.choices);
    if !c.blank(texts[line]) && (c.item(texts[line]).None? || c.indent(texts[line]) >= s.indent + 2) {
      ShareOutReach(c, texts, first, s.lastLine, s.choices, line);
    } else if c.item(texts[line]).Some? {
      ShareOutMore(c, texts, first, s.lastLine, s.choices, ItemChoice(c.item(texts[line]).value, line));
    }
  }

  lemma ChoicesExist(c: Classifier, texts: seq<string>, first: nat, lastLine: nat, choices: seq<Choice>)
    requires ShareOut(c, texts, first, lastLine, choices)
    ensures choices != [] && first <= choices[|choices| - 1].line && lastLine < |texts|
  {
    if |choices| > 1 {
      ChoicesAscend(c, texts, first, lastLine, choices, 0, |choices| - 1);
    }
  }

  lemma {:induction false} ListFromKeeps(c: Classifier, texts: seq<string>, ordered: bool, first: nat, s: ListScan, line: nat)
    requires ListSoFar(c, texts, ordered, first, s, line)
    ensures var r := ListFrom(c, texts, ordered, s, line);
            ShareOut(c, texts, first, r.lastLine, r.choices) && OneListKind(c, texts, ordered, r.choices)
    decreases |texts| - line
  {
    hide ShareOut, OneListKind, ListStep;
    if line < |texts| {
      ListStepKeeps(c, texts, ordered, first, s, line);
      var next := ListStep(c, texts[line], ordered, s, line);
      if next.Some? {
        ListFromKeeps(c, texts, ordered, first, next.value, line + 1);
      }
    }
  }

  /** A scanned list starts at its first item and shares out its lines, all with one kind of marker. */
  lemma ListIsWellScanned(c: Classifier, texts: seq<string>, first: nat)
    requires first < |texts| && c.item(texts[first]).Some? && !c.blank(texts[first])
    ensures var s := ListAt(c, texts, first);
            && ShareOut(c, texts, first, s.lastLine, s.choices)
            && OneListKind(c, texts, c.item(texts[first]).value.ordered, s.choices)
  {
    var item := c.item(texts[first]).value;
    var one := ItemChoice(item, first);
    ShareOutOne(c, texts, one);
    ListFromKeeps(c, texts, item.ordered, first, ListScan([one], item.indent, first, false), first + 1);
    assert [] + [one] == [one];
  }

  method ScanList(c: Classifier, texts: seq<string>, first: nat) returns (r: Scanned)
    requires first < |texts| && c.item(texts[first]).Some?
    ensures r == ListAt(c, texts, first)
  {
    var ordered := c.item(texts[first]).value.ordered;
    var choices: seq<Choice>, indent, lastLine, blankBefore := [], 0, first, false;
    var index := first;
    while index < |texts|
      invariant first <= index <= |texts|
      invariant ListFrom(c, texts, ordered, ListScan(choices, indent, lastLine, blankBefore), index)
             == ListFrom(c, texts, ordered, ListScan([], 0, first, false), first)
    {
      var text := texts[index];
      if c.blank(text) {
        blankBefore := true;
        index := index + 1;
        continue;
      }
      if choices != [] && c.indent(text) >= indent + 2 {
        choices, lastLine, blankBefore := Reach(choices, index), index, false;
        index := index + 1;
        continue;
      }
      var item := c.item(text);
      if item.Some? {
        if item.value.ordered != ordered {
          break;
        }
        choices, indent, lastLine := choices + [ItemChoice(item.value, index)], item.value.indent, index;
        blankBefore := false;
        index := index + 1;
        continue;
      }
      if choices != [] && !blankBefore && !c.Interrupts(text) {
        choices, lastLine := Reach(choices, index), index;
        index := index + 1;
        continue;
      }
      break;
    }
    r := Scanned(choices, lastLine);
  }

  // ---- lettered blocks ----------------------------------------------------------------------------

  /** The first line from `line` on that is outside the paragraph. */
  function ParagraphStop(c: Classifier, texts: seq<string>, line: nat): (r: nat)
    requires line <= |texts|
    ensures line <= r <= |texts|
    decreases |texts| - line
  {
    if line < |texts| && c.InParagraph(texts[line]) then ParagraphStop(c, texts, line + 1) else line
  }

  function SkipBlank(c: Classifier, texts: seq<string>, line: nat): (r: nat)
    requires line <= |texts|
    ensures line <= r <= |texts| && (r < |texts| ==> !c.blank(texts[r])) && Blanks(c, texts, line, r)
    decreases |texts| - line
  {
    if line < |texts| && c.blank(texts[line]) then SkipBlank(c, texts, line + 1) else line
  }

  /** The closing line of a fence, looked for from `line` on, or the last line. */
  function FenceStop(c: Classifier, texts: seq<string>, open: Fence, line: nat): (r: nat)
    requires 0 < line <= |texts|
    ensures line - 1 <= r < |texts| && (r < line ==> line == |texts|)
    decreases |texts| - line
  {
    if line == |texts| then |texts| - 1
    else if c.Closes(texts[line], open) then line
    else FenceStop(c, texts, open, line + 1)
  }

  /** The last line of the paragraph or fenced block that starts at `line`. */
  function UnitEnd(c: Classifier, texts: seq<string>, line: nat): (r: nat)
    requires line < |texts|
    ensures line <= r < |texts|
  {
    match c.fence(texts[line])
    case Some(open) => FenceStop(c, texts, open, line + 1)
    case None => ParagraphStop(c, texts, line + 1) - 1
  }

  predicate IsNext(c: Classifier, text: string, style: string, ordinal: nat) {
    c.lettered(text).Some? && c.lettered(text).value.style == style && c.lettered(text).value.ordinal == ordinal
  }

  /** Looking past a block's own paragraph: how far it reaches, and the next header once it is found. */
  datatype Probe = Probe(lastLine: nat, pendingEnd: Option<nat>, firstUnitEnd: Option<nat>, found: Option<nat>)

  function TakeUnit(p: Probe, indented: bool, end: nat): Probe {
    var first := if p.firstUnitEnd.Some? then p.firstUnitEnd else Some(end);
    if p.pendingEnd.None? && indented then p.(lastLine := end, firstUnitEnd := first)
    else p.(pendingEnd := Some(end), firstUnitEnd := first)
  }

  function FoundNext(p: Probe, line: nat): Probe {
    p.(lastLine := if p.pendingEnd.Some? then p.pendingEnd.value else p.lastLine, found := Some(line))
  }

  predicate EndsRun(c: Classifier, text: string) {
    c.heading(text) || c.header(text).Some? || c.lettered(text).Some?
  }

  function ProbeFrom(c: Classifier, texts: seq<string>, style: string, ordinal: nat, indent: nat, p: Probe, line: nat): Probe
    requires line <= |texts|
    decreases |texts| - line
  {
    var at := SkipBlank(c, texts, line);
    if at == |texts| then p
    else if IsNext(c, texts[at], style, ordinal) then FoundNext(p, at)
    else if EndsRun(c, texts[at]) then p
    else
      var end := UnitEnd(c, texts, at);
      ProbeFrom(c, texts, style, ordinal, indent, TakeUnit(p, c.indent(texts[at]) >= indent + 2, end), end + 1)
  }

  predicate HasDetails(choice: Choice) {
    choice.lastLine > choice.line || choice.firstDetails != ""
  }

  predicate SomeHasDetails(choices: seq<Choice>) {
    exists k :: 0 <= k < |choices| && HasDetails(choices[k])
  }

  /** A block and where the next one starts; past the last line when the run ends here. */
  datatype Block = Block(choice: Choice, next: nat)

  function BlockAt(c: Classifier, texts: seq<string>, style: string, before: seq<Choice>, line: nat): Block
    requires line < |texts| && c.lettered(texts[line]).Some?
  {
    var header, stop := c.lettered(texts[line]).value, ParagraphStop(c, texts, line + 1);
    var headerOnly := stop - 1 == line && header.details == "";
    var p := ProbeFrom(c, texts, style, |before| + 2, header.indent, Probe(stop - 1, None, None, None), stop);
    var last :=
      if p.found.None? && headerOnly && p.lastLine == line && p.firstUnitEnd.Some? && SomeHasDetails(before)
      then p.firstUnitEnd.value else p.lastLine;
    Block(Choice(line, last, header.markdown, header.details, None), if p.found.Some? then p.found.value else |texts|)
  }

  /** How far a probe has claimed lines for its block, should another header follow. */
  function Claimed(p: Probe): nat {
    if p.pendingEnd.Some? then p.pendingEnd.value else p.lastLine
  }

  lemma {:induction false} ProbeReaches(c: Classifier, texts: seq<string>, style: string, ordinal: nat, indent: nat, p: Probe, line: nat)
    requires line <= |texts| && p.lastLine <= Claimed(p) < line && Blanks(c, texts, Claimed(p) + 1, line) && p.found.None?
    requires p.firstUnitEnd.Some? ==> p.firstUnitEnd.value < |texts|
    ensures var r := ProbeFrom(c, texts, style, ordinal, indent, p, line);
            && p.lastLine <= r.lastLine < |texts| && (r.firstUnitEnd.Some? ==> r.firstUnitEnd.value < |texts|)
            && (r.firstUnitEnd.Some? && p.firstUnitEnd.None? ==> line <= r.firstUnitEnd.value)
            && (p.firstUnitEnd.Some? ==> r.firstUnitEnd == p.firstUnitEnd)
            && (r.found.Some? ==>
                  && line <= r.found.value < |texts| && IsNext(c, texts[r.found.value], style, ordinal)
                  && r.lastLine < r.found.value
                  && Blanks(c, texts, r.lastLine + 1, r.found.value))
    decreases |texts| - line
  {
    var at := SkipBlank(c, texts, line);
    if at < |texts| && !IsNext(c, texts[at], style, ordinal) && !EndsRun(c, texts[at]) {
      var end := UnitEnd(c, texts, at);
      ProbeReaches(c, texts, style, ordinal, indent, TakeUnit(p, c.indent(texts[at]) >= indent + 2, end), end + 1);
    }
  }

  lemma BlockIsSound(c: Classifier, texts: seq<string>, style: string, before: seq<Choice>, line: nat)
    requires line < |texts| && c.lettered(texts[line]).Some?
    ensures var b := BlockAt(c, texts, style, before, line);
            && b.choice.line == line <= b.choice.lastLine < |texts| && line < b.next <= |texts|
            && (b.next < |texts| ==>
                  && b.choice.lastLine < b.next && IsNext(c, texts[b.next], style, |before| + 2)
                  && Blanks(c, texts, b.choice.lastLine + 1, b.next))
  {
    hide Blanks, IsNext, SomeHasDetails;
    var header, stop := c.lettered(texts[line]).value, ParagraphStop(c, texts, line + 1);
    assert Blanks(c, texts, stop, stop) by { NoLines(c, texts, stop); }
    ProbeReaches(c, texts, style, |before| + 2, header.indent, Probe(stop - 1, None, None, None), stop);
  }

  lemma NoLines(c: Classifier, texts: seq<string>, line: nat)
    requires line <= |texts|
    ensures Blanks(c, texts, line, line)
  {
  }

  function LetteredFrom(c: Classifier, texts: seq<string>, style: string, choices: seq<Choice>, line: nat): seq<Choice>
    requires line <= |texts|
    decreases |texts| - line
  {
    if line < |texts| && IsNext(c, texts[line], style, |choices| + 1) then
      var b := BlockAt(c, texts, style, choices, line);
      assert line < b.next <= |texts| by { BlockIsSound(c, texts, style, choices, line); }
      LetteredFrom(c, texts, style, choices + [b.choice], b.next)
    else choices
  }

  function LetteredAt(c: Classifier, texts: seq<string>, first: nat): (r: seq<Choice>)
    requires first < |texts| && c.lettered(texts[first]).Some?
  {
    LetteredFrom(c, texts, c.lettered(texts[first]).value.style, [], first)
  }

  /** The choices are headed 1, 2, 3, … in one style, each carrying its header's label and details. */
  ghost predicate Numbered(c: Classifier, texts: seq<string>, style: string, choices: seq<Choice>) {
    forall k :: 0 <= k < |choices| ==>
      var choice := choices[k];
      && choice.line < |texts| && IsNext(c, texts[choice.line], style, k + 1)
      && var header := c.lettered(texts[choice.line]).value;
         choice.markdown == header.markdown && choice.firstDetails == header.details && choice.dedent == None
  }

  lemma NumberedMore(c: Classifier, texts: seq<string>, style: string, choices: seq<Choice>, line: nat)
    requires Numbered(c, texts, style, choices) && line < |texts| && IsNext(c, texts[line], style, |choices| + 1)
    ensures Numbered(c, texts, style, choices + [BlockAt(c, texts, style, choices, line).choice])
  {
    hide ProbeFrom, ParagraphStop, SomeHasDetails;
  }

  lemma NoneNumbered(c: Classifier, texts: seq<string>, style: string)
    ensures Numbered(c, texts, style, [])
  {
  }

  lemma {:induction false} LetteredFromKeeps(c: Classifier, texts: seq<string>, style: string, first: nat, choices: seq<Choice>, line: nat)
    requires line <= |texts| && Numbered(c, texts, style, choices) && choices != []
    requires ShareOut(c, texts, first, choices[|choices| - 1].lastLine, choices)
    requires line < |texts| ==> var last := choices[|choices| - 1].lastLine; last < line && Blanks(c, texts, last + 1, line)
    ensures var r := LetteredFrom(c, texts, style, choices, line);
            && Numbered(c, texts, style, r) && r != [] && ShareOut(c, texts, first, r[|r| - 1].lastLine, r)
            && choices <= r
    decreases |texts| - line
  {
    hide ShareOut, Numbered, Blanks, BlockAt;
    if line < |texts| && IsNext(c, texts[line], style, |choices| + 1) {
      var b := BlockAt(c, texts, style, choices, line);
      BlockIsSound(c, texts, style, choices, line);
      NumberedMore(c, texts, style, choices, line);
      ShareOutMore(c, texts, first, choices[|choices| - 1].lastLine, choices, b.choice);
      LetteredFromKeeps(c, texts, style, first, choices + [b.choice], b.next);
    }
  }

  /** A lettered run is numbered 1 to n in one style and shares out its lines. */
  lemma LetteredIsWellScanned(c: Classifier, texts: seq<string>, first: nat)
    requires first < |texts| && c.lettered(texts[first]).Some? && c.lettered(texts[first]).value.ordinal == 1
    ensures var r := LetteredAt(c, texts, first);
            && Numbered(c, texts, c.lettered(texts[first]).value.style, r)
            && r != [] && ShareOut(c, texts, first, r[|r| - 1].lastLine, r)
  {
    hide ShareOut, BlockAt, Numbered, Blanks;
    var style := c.lettered(texts[first]).value.style;
    var b := BlockAt(c, texts, style, [], first);
    BlockIsSound(c, texts, style, [], first);
    assert Numbered(c, texts, style, [] + [b.choice]) by { NoneNumbered(c, texts, style); NumberedMore(c, texts, style, [], first); }
    ShareOutOne(c, texts, b.choice);
    assert [] + [b.choice] == [b.choice];
    LetteredFromKeeps(c, texts, style, first, [b.choice], b.next);
  }

  // ---- the lettered scanner as the source writes it -----------------------------------------------

  method FenceEnd(c: Classifier, texts: seq<string>, index: nat) returns (end: nat)
    requires index < |texts| && c.fence(texts[index]).Some?
    ensures end == UnitEnd(c, texts, index)
  {
    var open := c.fence(texts[index]).value;
    var next := index + 1;
    while next < |texts|
      invariant index < next <= |texts|
      invariant FenceStop(c, texts, open, next) == FenceStop(c, texts, open, index + 1)
    {
      if c.Closes(texts[next], open) {
        return next;
      }
      next := next + 1;
    }
    return |texts| - 1;
  }

  /** The lines from `from` on that stay in the paragraph; the index of the first that does not. */
  method PastParagraph(c: Classifier, texts: seq<string>, from: nat) returns (index: nat)
    requires from <= |texts|
    ensures index == ParagraphStop(c, texts, from)
  {
    index := from;
    while index < |texts| && c.InParagraph(texts[index])
      invariant from <= index <= |texts| && ParagraphStop(c, texts, index) == ParagraphStop(c, texts, from)
    {
      index := index + 1;
    }
  }

  /** Skips blank lines. */
  method PastBlank(c: Classifier, texts: seq<string>, from: nat) returns (index: nat)
    requires from <= |texts|
    ensures index == SkipBlank(c, texts, from)
  {
    index := from;
    while index < |texts| && c.blank(texts[index])
      invariant from <= index <= |texts| && SkipBlank(c, texts, index) == SkipBlank(c, texts, from)
    {
      index := index + 1;
    }
  }

  method EndOfUnit(c: Classifier, texts: seq<string>, index: nat) returns (end: nat)
    requires index < |texts|
    ensures end == UnitEnd(c, texts, index)
  {
    if c.fence(texts[index]).Some? {
      end := FenceEnd(c, texts, index);
    } else {
      end := PastParagraph(c, texts, index + 1);
      end := end - 1;
    }
  }

  lemma ProbeTakes(c: Classifier, texts: seq<string>, style: string, ordinal: nat, indent: nat, p: Probe, line: nat)
    requires line <= |texts|
    ensures var at, r := SkipBlank(c, texts, line), ProbeFrom(c, texts, style, ordinal, indent, p, line);
            if at == |texts| then r == p
            else if IsNext(c, texts[at], style, ordinal) then r == FoundNext(p, at)
            else if EndsRun(c, texts[at]) then r == p
            else
              var end := UnitEnd(c, texts, at);
              r == ProbeFrom(c, texts, style, ordinal, indent, TakeUnit(p, c.indent(texts[at]) >= indent + 2, end), end + 1)
  {
    hide SkipBlank, UnitEnd, IsNext, EndsRun, TakeUnit, FoundNext;
  }

  /** The paragraphs after a block's own, up to the next header or the end of the run. */
  method ProbeUnits(c: Classifier, texts: seq<string>, style: string, ordinal: nat, indent: nat, own: nat, from: nat)
    returns (lastLine: nat, firstUnitEnd: Option<nat>, foundNext: bool, probe: nat)
    requires from <= |texts|
    ensures var r := ProbeFrom(c, texts, style, ordinal, indent, Probe(own, None, None, None), from);
            lastLine == r.lastLine && firstUnitEnd == r.firstUnitEnd && r.found == if foundNext then Some(probe) else None
  {
    hide ProbeFrom, SkipBlank, UnitEnd, IsNext, Blanks;
    var pendingEnd: Option<nat> := None;
    lastLine, firstUnitEnd, foundNext, probe := own, None, false, from;
    ghost var whole := ProbeFrom(c, texts, style, ordinal, indent, Probe(own, None, None, None), from);
    while true
      invariant probe <= |texts| && !foundNext
      invariant ProbeFrom(c, texts, style, ordinal, indent, Probe(lastLine, pendingEnd, firstUnitEnd, None), probe) == whole
      decreases |texts| - probe
    {
      ProbeTakes(c, texts, style, ordinal, indent, Probe(lastLine, pendingEnd, firstUnitEnd, None), probe);
      probe := PastBlank(c, texts, probe);
      if probe >= |texts| {
        return;
      }
      var text := texts[probe];
      if IsNext(c, text, style, ordinal) {
        if pendingEnd.Some? {
          lastLine := pendingEnd.value;
        }
        foundNext := true;
        return;
      }
      if c.heading(text) || c.header(text).Some? || c.lettered(text).Some? {
        return;
      }
      var unitEnd := EndOfUnit(c, texts, probe);
      if pendingEnd.None? && c.indent(text) >= indent + 2 {
        lastLine := unitEnd;
      } else {
        pendingEnd := Some(unitEnd);
      }
      if firstUnitEnd.None? {
        firstUnitEnd := Some(unitEnd);
      }
      probe := unitEnd + 1;
    }
  }

  method ScanBlock(c: Classifier, texts: seq<string>, style: string, before: seq<Choice>, index: nat) returns (choice: Choice, next: nat)
    requires index < |texts| && c.lettered(texts[index]).Some?
    ensures Block(choice, next) == BlockAt(c, texts, style, before, index)
  {
    hide ProbeFrom, ParagraphStop, SomeHasDetails;
    var header := c.lettered(texts[index]).value;
    var stop := PastParagraph(c, texts, index + 1);
    var headerOnly := stop - 1 == index && header.details == "";
    var lastLine, firstUnitEnd, foundNext, probe := ProbeUnits(c, texts, style, |before| + 2, header.indent, stop - 1, stop);
    if !foundNext && headerOnly && lastLine == index && firstUnitEnd.Some? && SomeHasDetails(before) {
      lastLine := firstUnitEnd.value;
    }
    choice := Choice(index, lastLine, header.markdown, header.details, None);
    next := if foundNext then probe else |texts|;
  }

  method ScanLettered(c: Classifier, texts: seq<string>, first: nat) returns (choices: seq<Choice>)
    requires first < |texts| && c.lettered(texts[first]).Some?
    ensures choices == LetteredAt(c, texts, first)
  {
    hide BlockAt, Blanks;
    var style := c.lettered(texts[first]).value.style;
    choices := [];
    var index := first;
    while index < |texts| && IsNext(c, texts[index], style, |choices| + 1)
      invariant first <= index <= |texts|
      invariant LetteredFrom(c, texts, style, choices, index) == LetteredAt(c, texts, first)
    {
      BlockIsSound(c, texts, style, choices, index);
      var choice, next := ScanBlock(c, texts, style, choices, index);
      choices, index := choices + [choice], next;
    }
  }

  // ---- groups ---------------------------------------------------------------------------------------

  /** What is scanned at `first`: after an explicit header a list or any run, else a run of two blocks or more. */
  function GroupAt(c: Classifier, texts: seq<string>, first: nat, explicitHeader: bool): Option<Scanned>
    requires first <= |texts|
  {
    if first == |texts| then None
    else if explicitHeader && c.item(texts[first]).Some? then Some(ListAt(c, texts, first))
    else if !(c.lettered(texts[first]).Some? && c.lettered(texts[first]).value.ordinal == 1) then None
    else
      var choices := LetteredAt(c, texts, first);
      assert choices != [] by { LetteredIsWellScanned(c, texts, first); }
      if explicitHeader || |choices| >= 2 then Some(Scanned(choices, choices[|choices| - 1].lastLine)) else None
  }

  /** A group starts where it was looked for and shares out its lines among its choices. */
  lemma GroupIsWellScanned(c: Classifier, texts: seq<string>, first: nat, explicitHeader: bool)
    requires first <= |texts| && (explicitHeader && first < |texts| ==> !c.blank(texts[first]))
    ensures var g := GroupAt(c, texts, first, explicitHeader);
            g.Some? ==>
              && first < |texts| && first <= g.value.lastLine < |texts|
              && ShareOut(c, texts, first, g.value.lastLine, g.value.choices)
              && (explicitHeader || |g.value.choices| >= 2)
  {
    hide ShareOut;
    if first < |texts| {
      if explicitHeader && c.item(texts[first]).Some? {
        ListIsWellScanned(c, texts, first);
        GroupReaches(c, texts, first, ListAt(c, texts, first).lastLine, ListAt(c, texts, first).choices);
      } else if c.lettered(texts[first]).Some? && c.lettered(texts[first]).value.ordinal == 1 {
        LetteredIsWellScanned(c, texts, first);
        var choices := LetteredAt(c, texts, first);
        GroupReaches(c, texts, first, choices[|choices| - 1].lastLine, choices);
      }
    }
  }

  lemma GroupReaches(c: Classifier, texts: seq<string>, first: nat, lastLine: nat, choices: seq<Choice>)
    requires ShareOut(c, texts, first, lastLine, choices)
    ensures choices != [] && first <= lastLine < |texts|
  {
    ChoicesExist(c, texts, first, lastLine, choices);
  }

  method ScanGroup(c: Classifier, texts: seq<string>, first: nat, explicitHeader: bool) returns (r: Option<Scanned>)
    requires first <= |texts|
    ensures r == GroupAt(c, texts, first, explicitHeader)
  {
    if first >= |texts| {
      return None;
    }
    if explicitHeader && c.item(texts[first]).Some? {
      var list := ScanList(c, texts, first);
      return Some(list);
    }
    if c.lettered(texts[first]).None? || c.lettered(texts[first]).value.ordinal != 1 {
      return None;
    }
    var choices := ScanLettered(c, texts, first);
    LetteredIsWellScanned(c, texts, first);
    r := if explicitHeader || |choices| >= 2 then Some(Scanned(choices, choices[|choices| - 1].lastLine)) else None;
  }
}
