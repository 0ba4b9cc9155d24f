/** Cutting a note into lines with source offsets, and what the choice grammar asks of a line. */
module ChoiceLines {
  import opened Options

  datatype SourceLine = SourceLine(start: nat, end: nat, text: string)

  datatype ListItem = ListItem(indent: nat, ordered: bool, contentColumn: nat, markdown: string)

  /** `details` is empty when the header line carries none. */
  datatype LetteredHeader = LetteredHeader(style: string, ordinal: nat, indent: nat, markdown: string, details: string)

  datatype ChoiceHeader = ChoiceHeader(question: Option<string>)

  datatype Fence = Fence(mark: char, length: nat)

  /**
    The line classifiers of the choice grammar. Every result about the scanners holds for any
    classifiers whatever, so nothing depends on the regular expressions behind them.
   */
  datatype Classifier = Classifier(
    blank: string -> bool,
    indent: string -> nat,
    item: string -> Option<ListItem>,
    lettered: string -> Option<LetteredHeader>,
    header: string -> Option<ChoiceHeader>,
    fence: string -> Option<Fence>,
    heading: string -> bool,
    quoteOrBreak: string -> bool,
    question: string -> Option<string>)
  {
    /** Such a line starts something of its own, whatever paragraph stands above it. */
    predicate Interrupts(text: string) {
      fence(text).Some? || heading(text) || quoteOrBreak(text) || header(text).Some?
    }

    /** A line that stays in the paragraph of a lettered block. */
    predicate InParagraph(text: string) {
      !blank(text) && !Interrupts(text) && lettered(text).None?
    }

    predicate Closes(text: string, open: Fence) {
      fence(text).Some? && fence(text).value.mark == open.mark && fence(text).value.length >= open.length
    }
  }

  /** `line` is one line of the source with its newline, if it has one, and `text` is it without. */
  ghost predicate LineOf(source: string, line: SourceLine) {
    && line.start < line.end <= |source|
    && (forall k :: line.start <= k < line.end - 1 ==> source[k] != '\n')
    && (source[line.end - 1] == '\n' || line.end == |source|)
    && line.text == source[line.start..if source[line.end - 1] == '\n' then line.end - 1 else line.end]
  }

  function EndOfLines(lines: seq<SourceLine>): nat {
    if lines == [] then 0 else lines[|lines| - 1].end
  }

  /** Line `i` is a line of the source that starts where the ones before it end. */
  ghost predicate LineAt(source: string, lines: seq<SourceLine>, i: nat)
    requires i < |lines|
  {
    LineOf(source, lines[i]) && lines[i].start == EndOfLines(lines[..i])
  }

  /** Lines laid end to end from the start of the source. */
  ghost predicate LaidOut(source: string, lines: seq<SourceLine>) {
    forall i :: 0 <= i < |lines| ==> LineAt(source, lines, i)
  }

  ghost predicate LinesOf(source: string, lines: seq<SourceLine>) {
    LaidOut(source, lines) && EndOfLines(lines) == |source|
  }

  method SourceLines(source: string) returns (lines: seq<SourceLine>)
    ensures LinesOf(source, lines)
  {
    lines := [];
    var start := 0;
    while start < |source|
      invariant start <= |source| && LaidOut(source, lines) && EndOfLines(lines) == start
    {
      var end := start;
      while end < |source| && source[end] != '\n'
        invariant start <= end <= |source| && forall k :: start <= k < end ==> source[k] != '\n'
      {
        end := end + 1;
      }
      var text := source[start..end];
      if end < |source| {
        end := end + 1;
      }
      var line := SourceLine(start, end, text);
      LaidOutMore(source, lines, line);
      lines, start := lines + [line], end;
    }
  }

  lemma LaidOutMore(source: string, lines: seq<SourceLine>, line: SourceLine)
    requires LaidOut(source, lines) && LineOf(source, line) && line.start == EndOfLines(lines)
    ensures LaidOut(source, lines + [line]) && EndOfLines(lines + [line]) == line.end
  {
    var more := lines + [line];
    forall i | 0 <= i < |more| ensures LineAt(source, more, i) {
      assert more[..i] == lines[..i];
      if i < |lines| {
        assert LineAt(source, lines, i);
      } else {
        assert lines[..i] == lines;
      }
    }
  }

  /** A source has exactly one such cut. */
  lemma LinesAreUnique(source: string, a: seq<SourceLine>, b: seq<SourceLine>)
    requires LinesOf(source, a) && LinesOf(source, b)
    ensures a == b
  {
    NotLonger(source, a, b);
    NotLonger(source, b, a);
    SamePrefix(source, a, b, |a|);
    assert a[..|a|] == a && b[..|b|] == b;
  }

  lemma NotLonger(source: string, a: seq<SourceLine>, b: seq<SourceLine>)
    requires LinesOf(source, a) && LinesOf(source, b)
    ensures |b| <= |a|
  {
    assert a[..|a|] == a;
    if |a| < |b| {
      assert LineAt(source, b, |a|);
      SamePrefix(source, a, b, |a|);
    }
  }

  lemma {:induction false} SamePrefix(source: string, a: seq<SourceLine>, b: seq<SourceLine>, n: nat)
    requires LaidOut(source, a) && LaidOut(source, b) && n <= |a| && n <= |b|
    ensures a[..n] == b[..n]
  {
    hide LineOf, EndOfLines;
    if n > 0 {
      SamePrefix(source, a, b, n - 1);
      var x, y := a[n - 1], b[n - 1];
      assert LineAt(source, a, n - 1) && LineAt(source, b, n - 1);
      SameLine(source, x, y);
      assert a[..n] == a[..n - 1] + [x] && b[..n] == b[..n - 1] + [y];
    }
  }

  lemma SameLine(source: string, x: SourceLine, y: SourceLine)
    requires LineOf(source, x) && LineOf(source, y) && x.start == y.start
    ensures x == y
  {
    assert x.end < y.end ==> x.start <= x.end - 1 < y.end - 1;
    assert y.end < x.end ==> y.start <= y.end - 1 < x.end - 1;
  }

  function TextsOf(lines: seq<SourceLine>): (texts: seq<string>)
    ensures |texts| == |lines| && forall i :: 0 <= i < |lines| ==> texts[i] == lines[i].text
  {
    seq(|lines|, i requires 0 <= i < |lines| => lines[i].text)
  }
}
