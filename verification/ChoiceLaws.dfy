/** Which lines of a note start choices, where a list or a lettered run ends, and which lines open a group. */
module ChoiceLaws {
  import opened Options
  import opened ChoiceLines
  import opened ChoiceScanner
  import opened ChoiceDocument

  // ---- lists ------------------------------------------------------------------------------------------

  function ItemIndent(c: Classifier, texts: seq<string>, line: nat): nat
    requires line < |texts|
  {
    match c.item(texts[line])
    case Some(item) => item.indent
    case None => 0
  }

  /** Indented to the content of the item at `above`: part of that item, whatever else it looks like. */
  predicate Under(c: Classifier, texts: seq<string>, above: nat, i: nat)
    requires above < |texts| && i < |texts|
  {
    c.indent(texts[i]) >= ItemIndent(c, texts, above) + 2
  }

  /** A list item that is not part of the item at `above`. */
  predicate StartsItem(c: Classifier, texts: seq<string>, above: nat, i: nat)
    requires above < |texts| && i < |texts|
  {
    !c.blank(texts[i]) && !Under(c, texts, above, i) && c.item(texts[i]).Some?
  }

  /** A line that goes on with the paragraph before it. */
  predicate Lazy(c: Classifier, texts: seq<string>, i: nat)
    requires 0 < i < |texts|
  {
    c.item(texts[i]).None? && !c.blank(texts[i - 1]) && !c.Interrupts(texts[i])
  }

  /** Line `i` belongs to the item at `above` without starting one. */
  predicate GoesOn(c: Classifier, texts: seq<string>, above: nat, i: nat)
    requires above < i < |texts|
  {
    c.blank(texts[i]) || Under(c, texts, above, i) || Lazy(c, texts, i)
  }

  function NextLine(choices: seq<Choice>, k: nat, limit: nat): nat
    requires k < |choices|
  {
    if k + 1 < |choices| then choices[k + 1].line else limit
  }

  /** Up to `limit` choices start exactly at the items of their list, and the lines between belong to the item above. */
  ghost predicate ItemsOnly(c: Classifier, texts: seq<string>, choices: seq<Choice>, limit: nat) {
    && limit <= |texts| && (forall k :: 0 <= k < |choices| ==> choices[k].line < limit)
    && (forall k :: 0 < k < |choices| ==> StartsItem(c, texts, choices[k - 1].line, choices[k].line))
    && (forall k, i :: 0 <= k < |choices| && choices[k].line < i < NextLine(choices, k, limit) && i < |texts| ==>
          GoesOn(c, texts, choices[k].line, i))
  }

  ghost predicate ListState(c: Classifier, texts: seq<string>, s: ListScan, line: nat) {
    && s.choices != [] && ItemsOnly(c, texts, s.choices, line)
    && s.lastLine < line <= |texts| && Blanks(c, texts, s.lastLine + 1, line) && !c.blank(texts[s.lastLine])
    && s.indent == ItemIndent(c, texts, s.choices[|s.choices| - 1].line)
    && (s.blankBefore <==> line > s.lastLine + 1)
    && (forall k :: 0 <= k < |s.choices| ==> s.choices[k].line <= s.lastLine)
  }

  /** The same choices, the last one perhaps reaching further, one line on. */
  lemma ItemsReach(c: Classifier, texts: seq<string>, choices: seq<Choice>, reached: seq<Choice>, line: nat)
    requires choices != [] && ItemsOnly(c, texts, choices, line) && line < |texts|
    requires |reached| == |choices| && forall k :: 0 <= k < |choices| ==> reached[k].line == choices[k].line
    requires GoesOn(c, texts, choices[|choices| - 1].line, line)
    ensures ItemsOnly(c, texts, reached, line + 1)
  {
    hide StartsItem, GoesOn;
    forall k | 0 < k < |reached| ensures StartsItem(c, texts, reached[k - 1].line, reached[k].line) {
      assert StartsItem(c, texts, choices[k - 1].line, choices[k].line);
    }
    forall k, i | 0 <= k < |reached| && reached[k].line < i < NextLine(reached, k, line + 1) && i < |texts|
      ensures GoesOn(c, texts, reached[k].line, i) {
      assert i < line ==> choices[k].line < i < NextLine(choices, k, line);
    }
  }

  lemma ItemsMore(c: Classifier, texts: seq<string>, choices: seq<Choice>, next: Choice, line: nat)
    requires choices != [] && ItemsOnly(c, texts, choices, line) && line < |texts| && next.line == line
    requires StartsItem(c, texts, choices[|choices| - 1].line, line)
    ensures ItemsOnly(c, texts, choices + [next], line + 1)
  {
    hide StartsItem, GoesOn;
    var more := choices + [next];
    forall k | 0 < k < |more| ensures StartsItem(c, texts, more[k - 1].line, more[k].line) {
      if k < |choices| {
        assert StartsItem(c, texts, choices[k - 1].line, choices[k].line);
      }
    }
    forall k, i | 0 <= k < |more| && more[k].line < i < NextLine(more, k, line + 1) && i < |texts|
      ensures GoesOn(c, texts, more[k].line, i) {
      assert k < |choices| && choices[k].line < i < NextLine(choices, k, line);
    }
  }

  lemma ListStepState(c: Classifier, texts: seq<string>, ordered: bool, s: ListScan, line: nat)
    requires ListState(c, texts, s, line) && line < |texts|
    ensures var next := ListStep(c, texts[line], ordered, s, line);
            next.Some? ==> ListState(c, texts, next.value, line + 1)
  {
    hide ItemsOnly;
    var next := ListStep(c, texts[line], ordered, s, line);
    assert s.choices[|s.choices| - 1].line < line by { LastBelow(c, texts, s.choices, line); }
    if next.Some? {
      var r := next.value;
      if |r.choices| > |s.choices| {
        ItemsMore(c, texts, s.choices, r.choices[|s.choices|], line);
      } else {
        assert forall k :: 0 <= k < |s.choices| ==> r.choices[k].line == s.choices[k].line;
        ItemsReach(c, texts, s.choices, r.choices, line);
      }
    }
  }

  lemma LastBelow(c: Classifier, texts: seq<string>, choices: seq<Choice>, line: nat)
    requires choices != [] && ItemsOnly(c, texts, choices, line)
    ensures choices[|choices| - 1].line < line
  {
  }

  /** Why a list is over: nothing is left, or what comes next is an item of the other kind or starts something else. */
  ghost predicate ListIsOver(c: Classifier, texts: seq<string>, ordered: bool, choices: seq<Choice>, lastLine: nat) {
    && choices != [] && lastLine < |texts| && choices[|choices| - 1].line < |texts|
    && var next := SkipBlank(c, texts, lastLine + 1);
       next < |texts| ==>
         && !Under(c, texts, choices[|choices| - 1].line, next)
         && (match c.item(texts[next])
             case Some(item) => item.ordered != ordered
             case None => next > lastLine + 1 || c.Interrupts(texts[next]))
  }

  lemma {:induction false} SkipsTo(c: Classifier, texts: seq<string>, from: nat, line: nat)
    requires from <= line <= |texts| && Blanks(c, texts, from, line) && (line < |texts| ==> !c.blank(texts[line]))
    ensures SkipBlank(c, texts, from) == line
    decreases line - from
  {
    if from < line {
      SkipsTo(c, texts, from + 1, line);
    }
  }

  lemma StopsHere(c: Classifier, texts: seq<string>, ordered: bool, s: ListScan, line: nat)
    requires ListState(c, texts, s, line) && (line < |texts| ==> ListStep(c, texts[line], ordered, s, line).None?)
    ensures ListIsOver(c, texts, ordered, s.choices, s.lastLine)
  {
    hide ItemsOnly;
    LastBelow(c, texts, s.choices, line);
    SkipsTo(c, texts, s.lastLine + 1, line);
  }

  lemma {:induction false} ListFromState(c: Classifier, texts: seq<string>, ordered: bool, s: ListScan, line: nat)
    requires ListState(c, texts, s, line)
    ensures var r := ListFrom(c, texts, ordered, s, line);
            ItemsOnly(c, texts, r.choices, r.lastLine + 1) && ListIsOver(c, texts, ordered, r.choices, r.lastLine)
    decreases |texts| - line
  {
    hide ItemsOnly, ListStep, ListIsOver;
    if line < |texts| && ListStep(c, texts[line], ordered, s, line).Some? {
      ListStepState(c, texts, ordered, s, line);
      ListFromState(c, texts, ordered, ListStep(c, texts[line], ordered, s, line).value, line + 1);
    } else {
      StopsHere(c, texts, ordered, s, line);
      ItemsUpTo(c, texts, s, line);
    }
  }

  lemma ItemsUpTo(c: Classifier, texts: seq<string>, s: ListScan, line: nat)
    requires ListState(c, texts, s, line)
    ensures ItemsOnly(c, texts, s.choices, s.lastLine + 1)
  {
    hide StartsItem, GoesOn;
    forall k, i | 0 <= k < |s.choices| && s.choices[k].line < i < NextLine(s.choices, k, s.lastLine + 1) && i < |texts|
      ensures GoesOn(c, texts, s.choices[k].line, i) {
      assert i < NextLine(s.choices, k, line);
    }
  }

  /**
    A scanned list starts a choice at every item that is not part of the item above it, and nowhere
    else; every other line of it is blank, indented to that item, or goes on with its paragraph. It
    ends only where nothing is left, at an item of the other kind, or at a line that neither belongs
    to the item nor goes on with its paragraph.
   */
  lemma ListStartsAtItsItems(c: Classifier, texts: seq<string>, first: nat)
    requires first < |texts| && c.item(texts[first]).Some? && !c.blank(texts[first])
    ensures var r := ListAt(c, texts, first);
            && r.choices != [] && r.choices[0].line == first && ItemsOnly(c, texts, r.choices, r.lastLine + 1)
            && ListIsOver(c, texts, c.item(texts[first]).value.ordered, r.choices, r.lastLine)
  {
    var item := c.item(texts[first]).value;
    var one := ItemChoice(item, first);
    assert [] + [one] == [one];
    ListFromState(c, texts, item.ordered, ListScan([one], item.indent, first, false), first + 1);
    ListIsWellScanned(c, texts, first);
  }

  // ---- lettered runs ------------------------------------------------------------------------------------

  /** The first line from `line` on that starts a paragraph and ends the run: a heading or any header. */
  function RunStop(c: Classifier, texts: seq<string>, line: nat): (r: nat)
    requires line <= |texts|
    ensures line <= r <= |texts|
    decreases |texts| - line
  {
    var at := SkipBlank(c, texts, line);
    if at == |texts| || EndsRun(c, texts[at]) then at else RunStop(c, texts, UnitEnd(c, texts, at) + 1)
  }

  lemma {:induction false} ProbeFindsTheStop(c: Classifier, texts: seq<string>, style: string, ordinal: nat, indent: nat, p: Probe, line: nat)
    requires line <= |texts| && p.found.None?
    ensures var stop, r := RunStop(c, texts, line), ProbeFrom(c, texts, style, ordinal, indent, p, line);
            r.found == if stop < |texts| && IsNext(c, texts[stop], style, ordinal) then Some(stop) else None
    decreases |texts| - line
  {
    var at := SkipBlank(c, texts, line);
    if at < |texts| && !EndsRun(c, texts[at]) {
      var end := UnitEnd(c, texts, at);
      ProbeFindsTheStop(c, texts, style, ordinal, indent, TakeUnit(p, c.indent(texts[at]) >= indent + 2, end), end + 1);
    }
  }

  /** Where the block at `line` looks for the next header: past its own paragraph. */
  function NextStop(c: Classifier, texts: seq<string>, line: nat): nat
    requires line < |texts|
  {
    RunStop(c, texts, ParagraphStop(c, texts, line + 1))
  }

  lemma BlockFinds(c: Classifier, texts: seq<string>, style: string, before: seq<Choice>, line: nat)
    requires line < |texts| && c.lettered(texts[line]).Some?
    ensures var b, stop := BlockAt(c, texts, style, before, line), NextStop(c, texts, line);
            b.choice.line == line && b.next == if stop < |texts| && IsNext(c, texts[stop], style, |before| + 2) then stop else |texts|
  {
    hide ProbeFrom, RunStop, ParagraphStop, IsNext, SomeHasDetails;
    var header, own := c.lettered(texts[line]).value, ParagraphStop(c, texts, line + 1);
    ProbeFindsTheStop(c, texts, style, |before| + 2, header.indent, Probe(own - 1, None, None, None), own);
  }

  /** Each block's next header is the first line that ends a run after it, and the run is over where that is not the next one. */
  ghost predicate HeadersOnly(c: Classifier, texts: seq<string>, style: string, choices: seq<Choice>, n: nat) {
    && (forall k :: 0 <= k < |choices| ==> choices[k].line < |texts|)
    && (forall k :: 0 <= k < |choices| - 1 ==> choices[k + 1].line == NextStop(c, texts, choices[k].line))
    && (n > 0 && choices != [] ==>
          var stop := NextStop(c, texts, choices[|choices| - 1].line);
          stop < |texts| ==> !IsNext(c, texts[stop], style, n))
  }

  lemma {:induction false} LetteredHeaders(c: Classifier, texts: seq<string>, style: string, choices: seq<Choice>, line: nat)
    requires line <= |texts| && choices != [] && HeadersOnly(c, texts, style, choices, 0)
    requires var stop := NextStop(c, texts, choices[|choices| - 1].line);
             line == if stop < |texts| && IsNext(c, texts[stop], style, |choices| + 1) then stop else |texts|
    ensures var r := LetteredFrom(c, texts, style, choices, line); HeadersOnly(c, texts, style, r, |r| + 1)
    decreases |texts| - line
  {
    hide NextStop, BlockAt, IsNext;
    if line < |texts| {
      NextHasHeader(c, texts[line], style, |choices| + 1);
      var b := BlockAt(c, texts, style, choices, line);
      BlockIsSound(c, texts, style, choices, line);
      BlockFinds(c, texts, style, choices, line);
      LetteredHeaders(c, texts, style, choices + [b.choice], b.next);
    }
  }

  lemma NextHasHeader(c: Classifier, text: string, style: string, ordinal: nat)
    requires IsNext(c, text, style, ordinal)
    ensures c.lettered(text).Some?
  {
  }

  /**
    A lettered run goes on exactly as long as the first run-ending line after each block is the next
    header of its style: no next header is missed, and none is skipped over.
   */
  lemma LetteredTakesEveryHeader(c: Classifier, texts: seq<string>, first: nat)
    requires first < |texts| && c.lettered(texts[first]).Some? && c.lettered(texts[first]).value.ordinal == 1
    ensures var r := LetteredAt(c, texts, first);
            r != [] && r[0].line == first && HeadersOnly(c, texts, c.lettered(texts[first]).value.style, r, |r| + 1)
  {
    hide NextStop, BlockAt;
    var style := c.lettered(texts[first]).value.style;
    var b := BlockAt(c, texts, style, [], first);
    BlockIsSound(c, texts, style, [], first);
    BlockFinds(c, texts, style, [], first);
    assert [] + [b.choice] == [b.choice];
    LetteredHeaders(c, texts, style, [b.choice], b.next);
    LetteredIsWellScanned(c, texts, first);
  }

  /** How far the paragraphs indented under a block reach, when they follow it at once. */
  function IndentedReach(c: Classifier, texts: seq<string>, indent: nat, reached: nat, line: nat): nat
    requires line <= |texts|
    decreases |texts| - line
  {
    var at := SkipBlank(c, texts, line);
    if at == |texts| || EndsRun(c, texts[at]) || c.indent(texts[at]) < indent + 2 then reached
    else IndentedReach(c, texts, indent, UnitEnd(c, texts, at), UnitEnd(c, texts, at) + 1)
  }

  lemma {:induction false} PendingKeepsReach(c: Classifier, texts: seq<string>, style: string, ordinal: nat, indent: nat, p: Probe, line: nat)
    requires line <= |texts| && p.pendingEnd.Some? && p.found.None? && p.firstUnitEnd.Some?
    ensures var r := ProbeFrom(c, texts, style, ordinal, indent, p, line);
            (r.found.None? ==> r.lastLine == p.lastLine) && r.firstUnitEnd == p.firstUnitEnd
    decreases |texts| - line
  {
    var at := SkipBlank(c, texts, line);
    if at < |texts| && !IsNext(c, texts[at], style, ordinal) && !EndsRun(c, texts[at]) {
      var end := UnitEnd(c, texts, at);
      PendingKeepsReach(c, texts, style, ordinal, indent, TakeUnit(p, c.indent(texts[at]) >= indent + 2, end), end + 1);
    }
  }

  /** Without a next header a probe keeps what is indented and remembers the first paragraph it saw. */
  lemma {:induction false} ProbeKeepsIndented(c: Classifier, texts: seq<string>, style: string, ordinal: nat, indent: nat, p: Probe, line: nat)
    requires line <= |texts| && p.pendingEnd.None? && p.found.None?
    ensures var at, r := SkipBlank(c, texts, line), ProbeFrom(c, texts, style, ordinal, indent, p, line);
            && (r.found.None? ==> r.lastLine == IndentedReach(c, texts, indent, p.lastLine, line))
            && (p.firstUnitEnd.Some? ==> r.firstUnitEnd == p.firstUnitEnd)
            && (p.firstUnitEnd.None? ==>
                  r.firstUnitEnd == if at < |texts| && !EndsRun(c, texts[at]) then Some(UnitEnd(c, texts, at)) else None)
    decreases |texts| - line
  {
    var at := SkipBlank(c, texts, line);
    if at < |texts| && !IsNext(c, texts[at], style, ordinal) && !EndsRun(c, texts[at]) {
      var end := UnitEnd(c, texts, at);
      var p' := TakeUnit(p, c.indent(texts[at]) >= indent + 2, end);
      if p'.pendingEnd.None? {
        ProbeKeepsIndented(c, texts, style, ordinal, indent, p', end + 1);
      } else {
        PendingKeepsReach(c, texts, style, ordinal, indent, p', end + 1);
      }
    }
  }

  /**
    How far the last block of a run reaches: its own paragraph and the indented ones that follow at
    once, so trailing prose stays prose; only a bare header without details of its own takes the next
    paragraph instead, when an earlier block has details.
   */
  lemma LastBlockReach(c: Classifier, texts: seq<string>, style: string, before: seq<Choice>, line: nat)
    requires line < |texts| && c.lettered(texts[line]).Some? && BlockAt(c, texts, style, before, line).next == |texts|
    ensures var header, own := c.lettered(texts[line]).value, ParagraphStop(c, texts, line + 1);
            var reach, at := IndentedReach(c, texts, header.indent, own - 1, own), SkipBlank(c, texts, own);
            var bare := own == line + 1 && header.details == "" && reach == line && at < |texts| && !EndsRun(c, texts[at]);
            BlockAt(c, texts, style, before, line).choice.lastLine
            == if bare && SomeHasDetails(before) then UnitEnd(c, texts, at) else reach
  {
    hide ProbeFrom, IndentedReach, ParagraphStop, SomeHasDetails, UnitEnd, IsNext, SkipBlank;
    var header, own := c.lettered(texts[line]).value, ParagraphStop(c, texts, line + 1);
    var p := Probe(own - 1, None, None, None);
    ProbeReachesIn(c, texts, style, |before| + 2, header.indent, p, own);
    ProbeKeepsIndented(c, texts, style, |before| + 2, header.indent, p, own);
  }

  lemma ProbeReachesIn(c: Classifier, texts: seq<string>, style: string, ordinal: nat, indent: nat, p: Probe, line: nat)
    requires 0 < line <= |texts| && p == Probe(line - 1, None, None, None)
    ensures var r := ProbeFrom(c, texts, style, ordinal, indent, p, line); r.found.Some? ==> r.found.value < |texts|
  {
    ProbeReaches(c, texts, style, ordinal, indent, p, line);
  }

  // ---- groups -------------------------------------------------------------------------------------------

  predicate FirstLettered(c: Classifier, text: string) {
    c.lettered(text).Some? && c.lettered(text).value.ordinal == 1
  }

  /** The run that starts at `line` has a second block. */
  predicate HasSecond(c: Classifier, texts: seq<string>, line: nat)
    requires line < |texts| && c.lettered(texts[line]).Some?
  {
    var stop := NextStop(c, texts, line);
    stop < |texts| && IsNext(c, texts[stop], c.lettered(texts[line]).value.style, 2)
  }

  lemma TwoBlocks(c: Classifier, texts: seq<string>, first: nat)
    requires first < |texts| && FirstLettered(c, texts[first])
    ensures |LetteredAt(c, texts, first)| >= 2 <==> HasSecond(c, texts, first)
  {
    hide NextStop, LetteredAt;
    LetteredTakesEveryHeader(c, texts, first);
    LetteredIsWellScanned(c, texts, first);
    var r := LetteredAt(c, texts, first);
    if |r| >= 2 {
      assert r[0 + 1].line == NextStop(c, texts, r[0].line);
    }
  }

  /**
    Which lines open a group outside fences: a choice header whose next line that is not blank is a
    list item or a first lettered header; or, without one, a first lettered header whose run has a
    second block. A list is preferred where both fit.
   */
  lemma OpensExactly(c: Classifier, texts: seq<string>, i: nat)
    requires i < |texts|
    ensures var first := SkipBlank(c, texts, i + 1);
            Opens(c, texts, i).Some? <==>
            if c.header(texts[i]).Some? then first < |texts| && (c.item(texts[first]).Some? || FirstLettered(c, texts[first]))
            else FirstLettered(c, texts[i]) && HasSecond(c, texts, i)
    ensures var first := SkipBlank(c, texts, i + 1);
            c.header(texts[i]).Some? && first < |texts| && c.item(texts[first]).Some? ==> Opens(c, texts, i) == Some(ListAt(c, texts, first))
  {
    hide NextStop, LetteredAt, ListAt, HasSecond;
    if c.header(texts[i]).None? && FirstLettered(c, texts[i]) {
      TwoBlocks(c, texts, i);
    }
  }
}
