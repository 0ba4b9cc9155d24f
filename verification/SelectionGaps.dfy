/** How many messages a saved selection left out (`conversationSelectionGaps`). */
module SelectionGaps {
  import opened Options
  import opened Transcript
  import opened MessageOrder

  /** The scan over the transcript: gaps found, whether a selected message was seen, messages hidden since the last. */
  datatype Scan = Scan(gaps: map<string, int>, started: bool, hidden: int)

  function Prior(prior: map<string, int>, id: string): (p: int)
    ensures p >= 0
  {
    if id in prior then Max(0, prior[id]) else 0
  }

  function ScanStep(s: Scan, id: string, selected: set<string>, prior: map<string, int>): Scan {
    var p := Prior(prior, id);
    if id !in selected then s.(hidden := s.hidden + p + 1)
    else Scan(if s.started && s.hidden + p > 0 then s.gaps[id := s.hidden + p] else s.gaps, true, 0)
  }

  /** `shown` are the message ids in transcript order. */
  function ScanAll(shown: seq<string>, selected: set<string>, prior: map<string, int>): Scan {
    if shown == [] then Scan(map[], false, 0)
    else ScanStep(ScanAll(shown[..|shown| - 1], selected, prior), shown[|shown| - 1], selected, prior)
  }

  function Gaps(shown: seq<string>, selected: set<string>, prior: map<string, int>): map<string, int> {
    ScanAll(shown, selected, prior).gaps
  }

  function IdsOf(ms: seq<Message>): (ids: seq<string>)
    ensures |ids| == |ms| && forall i :: 0 <= i < |ms| ==> ids[i] == ms[i].id
  {
    seq(|ms|, i requires 0 <= i < |ms| => ms[i].id)
  }

  /** The gaps of a selection from a conversation's messages, which are put in transcript order first. */
  function MessageGaps(ms: seq<Message>, selected: set<string>, prior: map<string, int>): map<string, int> {
    Gaps(IdsOf(TranscriptOrder(ms)), selected, prior)
  }

  method ConversationSelectionGaps(ms: seq<Message>, selected: set<string>, prior: map<string, int>) returns (gaps: map<string, int>)
    ensures gaps == MessageGaps(ms, selected, prior)
  {
    hide TranscriptOrder;
    gaps := map[];
    var started, hidden := false, 0;
    var messages := TranscriptOrder(ms);
    ghost var shown := IdsOf(messages);
    for i := 0 to |messages|
      invariant Scan(gaps, started, hidden) == ScanAll(shown[..i], selected, prior)
    {
      assert shown[..i + 1][..i] == shown[..i];
      var id := messages[i].id;
      var p := Prior(prior, id);
      if id !in selected {
        hidden := hidden + p + 1;
        continue;
      }
      if started && hidden + p > 0 {
        gaps := gaps[id := hidden + p];
      }
      started := true;
      hidden := 0;
    }
    assert shown[..|shown|] == shown;
  }

  // ---- what a gap counts ----------------------------------------------------------------------------

  /** The messages between two places of the transcript, each with what it already hid itself. */
  function HiddenBetween(shown: seq<string>, from: nat, until: nat, prior: map<string, int>): int
    requires from <= until <= |shown|
  {
    if from == until then 0 else HiddenBetween(shown, from, until - 1, prior) + Prior(prior, shown[until - 1]) + 1
  }

  ghost predicate Distinct(shown: seq<string>) {
    forall i, j :: 0 <= i < j < |shown| ==> shown[i] != shown[j]
  }

  /** `i` is the last selected place before `n`. */
  ghost predicate LastSelected(shown: seq<string>, selected: set<string>, i: nat, n: nat) {
    i < n <= |shown| && shown[i] in selected && forall k :: i < k < n ==> shown[k] !in selected
  }

  lemma {:induction false} ScanHides(shown: seq<string>, selected: set<string>, prior: map<string, int>)
    returns (last: nat)
    ensures var s := ScanAll(shown, selected, prior);
            && s.hidden >= 0 && s.gaps.Keys <= (set k | 0 <= k < |shown| :: shown[k])
            && (s.started <==> exists k :: 0 <= k < |shown| && shown[k] in selected)
            && (s.started ==> LastSelected(shown, selected, last, |shown|) && s.hidden == HiddenBetween(shown, last + 1, |shown|, prior))
  {
    last := 0;
    if shown != [] {
      var n := |shown| - 1;
      var before := ScanHides(shown[..n], selected, prior);
      if shown[n] in selected {
        last := n;
      } else {
        last := before;
        if ScanAll(shown[..n], selected, prior).started {
          SameHidden(shown, n, before + 1, n, prior);
        }
      }
      assert forall k :: 0 <= k < n ==> shown[..n][k] == shown[k];
    }
  }

  lemma {:induction false} SameHidden(shown: seq<string>, n: nat, from: nat, until: nat, prior: map<string, int>)
    requires from <= until <= n <= |shown|
    ensures HiddenBetween(shown[..n], from, until, prior) == HiddenBetween(shown, from, until, prior)
  {
    if from < until {
      SameHidden(shown, n, from, until - 1, prior);
    }
  }

  lemma {:induction false} GapsCount(shown: seq<string>, selected: set<string>, prior: map<string, int>, i: nat, j: nat)
    requires Distinct(shown) && j < |shown| && shown[j] in selected && LastSelected(shown, selected, i, j)
    ensures var count := HiddenBetween(shown, i + 1, j, prior) + Prior(prior, shown[j]);
            var gaps := Gaps(shown, selected, prior);
            if count > 0 then shown[j] in gaps && gaps[shown[j]] == count else shown[j] !in gaps
    decreases |shown|
  {
    var n := |shown| - 1;
    var front := shown[..n];
    var last := ScanHides(front, selected, prior);
    if j == n {
      assert front[i] in selected;
      assert last == i;
      SameHidden(shown, n, i + 1, n, prior);
    } else {
      assert Distinct(front) && LastSelected(front, selected, i, j);
      GapsCount(front, selected, prior, i, j);
      SameHidden(shown, n, i + 1, j, prior);
      assert shown[n] != shown[j];
    }
  }

  // ---- reopening a selection --------------------------------------------------------------------------

  /** The transcript of a reopened selection: the selected messages, in order. */
  function Kept(shown: seq<string>, selected: set<string>): seq<string> {
    if shown == [] then []
    else
      var before := Kept(shown[..|shown| - 1], selected);
      if shown[|shown| - 1] in selected then before + [shown[|shown| - 1]] else before
  }

  lemma ScanMore(shown: seq<string>, id: string, selected: set<string>, prior: map<string, int>)
    ensures ScanAll(shown + [id], selected, prior) == ScanStep(ScanAll(shown, selected, prior), id, selected, prior)
  {
    assert (shown + [id])[..|shown|] == shown;
  }

  /** `whole` has the gaps of every prefix, since no id comes twice. */
  lemma {:induction false} GapsOfPrefix(shown: seq<string>, n: nat, selected: set<string>, prior: map<string, int>, k: nat)
    requires Distinct(shown) && k < n <= |shown|
    ensures var part, whole := Gaps(shown[..n], selected, prior), Gaps(shown, selected, prior);
            (shown[k] in part <==> shown[k] in whole) && (shown[k] in part ==> part[shown[k]] == whole[shown[k]])
    decreases |shown|
  {
    if n < |shown| {
      var front := shown[..|shown| - 1];
      assert front[..n] == shown[..n] && shown[k] != shown[|shown| - 1] && front[k] == shown[k];
      GapsOfPrefix(front, n, selected, prior, k);
    } else {
      assert shown[..n] == shown;
    }
  }

  /** Three scans side by side: the selection's, the sub-selection's, and the sub-selection's over the reopened transcript. */
  ghost predicate InStep(outer: Scan, direct: Scan, inner: Scan) {
    && inner.gaps == direct.gaps && inner.started == direct.started
    && (direct.started ==> outer.started && direct.hidden == inner.hidden + outer.hidden)
  }

  lemma StepInStep(outer: Scan, direct: Scan, inner: Scan, id: string, selected: set<string>, sub: set<string>, prior: map<string, int>, again: map<string, int>)
    requires InStep(outer, direct, inner) && sub <= selected
    requires id in selected && outer.started ==> Prior(again, id) == outer.hidden + Prior(prior, id)
    ensures InStep(ScanStep(outer, id, selected, prior), ScanStep(direct, id, sub, prior),
                   if id in selected then ScanStep(inner, id, sub, again) else inner)
  {
    hide Prior;
  }

  /** The sub-selection scanned over the reopened transcript keeps step with the same scan over the whole one. */
  lemma {:induction false} ReopenedKeepsStep(shown: seq<string>, n: nat, selected: set<string>, sub: set<string>, prior: map<string, int>)
    requires Distinct(shown) && sub <= selected && n <= |shown|
    ensures InStep(ScanAll(shown[..n], selected, prior), ScanAll(shown[..n], sub, prior),
                   ScanAll(Kept(shown[..n], selected), sub, Gaps(shown, selected, prior)))
  {
    if n > 0 {
      hide InStep, ScanStep, Distinct, Gaps;
      var id, again, front := shown[n - 1], Gaps(shown, selected, prior), shown[..n - 1];
      ReopenedKeepsStep(shown, n - 1, selected, sub, prior);
      if id in selected {
        PriorOfReopened(shown, n, selected, prior);
      }
      StepInStep(ScanAll(front, selected, prior), ScanAll(front, sub, prior), ScanAll(Kept(front, selected), sub, again),
                 id, selected, sub, prior, again);
      assert shown[..n] == front + [id];
      ScanMore(front, id, selected, prior);
      ScanMore(front, id, sub, prior);
      ScanMore(Kept(front, selected), id, sub, again);
      KeptMore(front, id, selected);
    }
  }

  lemma KeptMore(shown: seq<string>, id: string, selected: set<string>)
    ensures Kept(shown + [id], selected) == if id in selected then Kept(shown, selected) + [id] else Kept(shown, selected)
  {
    assert (shown + [id])[..|shown|] == shown;
  }

  /** What a reopened selection says a message hid is what lay before it. */
  lemma PriorOfReopened(shown: seq<string>, n: nat, selected: set<string>, prior: map<string, int>)
    requires Distinct(shown) && 0 < n <= |shown| && shown[n - 1] in selected
    ensures var outer := ScanAll(shown[..n - 1], selected, prior);
            outer.started ==> Prior(Gaps(shown, selected, prior), shown[n - 1]) == outer.hidden + Prior(prior, shown[n - 1])
  {
    var outer := ScanAll(shown[..n - 1], selected, prior);
    var _ := ScanHides(shown[..n - 1], selected, prior);
    assert shown[..n][..n - 1] == shown[..n - 1];
    GapsOfPrefix(shown, n, selected, prior, n - 1);
    assert forall k :: 0 <= k < n - 1 ==> shown[..n - 1][k] == shown[k] != shown[n - 1];
  }

  lemma ShownGapsCompose(shown: seq<string>, selected: set<string>, sub: set<string>, prior: map<string, int>)
    requires Distinct(shown) && sub <= selected
    ensures Gaps(Kept(shown, selected), sub, Gaps(shown, selected, prior)) == Gaps(shown, sub, prior)
  {
    assert shown[..|shown|] == shown;
    ReopenedKeepsStep(shown, |shown|, selected, sub, prior);
  }

  // ---- over messages ----------------------------------------------------------------------------------

  lemma {:induction false} KeptIsChosen(ms: seq<Message>, selected: set<string>)
    ensures IdsOf(Chosen(ms, selected)) == Kept(IdsOf(ms), selected)
  {
    if ms != [] {
      var front, m := ms[..|ms| - 1], ms[|ms| - 1];
      KeptIsChosen(front, selected);
      assert ms == front + [m] && IdsOf(ms) == IdsOf(front) + [m.id];
      ChosenMore(front, m, selected);
      KeptMore(IdsOf(front), m.id, selected);
    }
  }

  ghost predicate DistinctIds(ms: seq<Message>) {
    forall i, j :: 0 <= i < j < |ms| ==> ms[i].id != ms[j].id
  }

  lemma {:induction false} PlaceDistinct(shown: seq<Message>, m: Message)
    requires DistinctIds(shown) && forall x :: x in shown ==> x.id != m.id
    ensures DistinctIds(Place(shown, m))
  {
    if shown != [] && Overtakes(m, shown[|shown| - 1]) {
      var front, last := shown[..|shown| - 1], shown[|shown| - 1];
      PlaceDistinct(front, m);
      PlaceHolds(front, m);
      forall x | x in Place(front, m) ensures x.id != last.id {
        assert x in multiset(Place(front, m));
      }
    }
  }

  lemma {:induction false} ArrangedDistinct(ms: seq<Message>)
    requires DistinctIds(ms)
    ensures DistinctIds(Arranged(ms))
  {
    if ms != [] {
      var front, m := ms[..|ms| - 1], ms[|ms| - 1];
      ArrangedDistinct(front);
      ArrangedInOrder(front);
      forall x | x in Arranged(front) ensures x.id != m.id {
        assert x in multiset(Arranged(front));
      }
      PlaceDistinct(Arranged(front), m);
    }
  }

  lemma ShownDistinct(ms: seq<Message>)
    requires DistinctIds(ms)
    ensures Distinct(IdsOf(TranscriptOrder(ms)))
  {
    hide TranscriptOrder, Arranged;
    TranscriptOrderIsArranged(ms);
    ArrangedDistinct(ms);
  }

  /**
    What a gap is: a selected message with a selected one shown before it is marked with the number
    of messages shown between the two, those they hid themselves included, and is unmarked when
    that is none.
   */
  lemma GapsCountWhatIsBetween(ms: seq<Message>, selected: set<string>, prior: map<string, int>, i: nat, j: nat)
    requires DistinctIds(ms) && j < |TranscriptOrder(ms)| && TranscriptOrder(ms)[j].id in selected
    requires LastSelected(IdsOf(TranscriptOrder(ms)), selected, i, j)
    ensures var shown, gaps := IdsOf(TranscriptOrder(ms)), MessageGaps(ms, selected, prior);
            var count := HiddenBetween(shown, i + 1, j, prior) + Prior(prior, shown[j]);
            if count > 0 then shown[j] in gaps && gaps[shown[j]] == count else shown[j] !in gaps
  {
    hide TranscriptOrder;
    ShownDistinct(ms);
    GapsCount(IdsOf(TranscriptOrder(ms)), selected, prior, i, j);
  }

  /**
    Gaps compose: selecting again from a reopened selection, with the gaps it was saved with, marks
    exactly what selecting straight from the whole conversation marks, whether the selection was
    saved in array order or in displayed order.
   */
  lemma GapsCompose(ms: seq<Message>, selected: set<string>, sub: set<string>, prior: map<string, int>)
    requires DistinctIds(ms) && sub <= selected
    ensures var again := MessageGaps(ms, selected, prior);
            && MessageGaps(Chosen(ms, selected), sub, again) == MessageGaps(ms, sub, prior)
            && MessageGaps(Chosen(TranscriptOrder(ms), selected), sub, again) == MessageGaps(ms, sub, prior)
  {
    hide TranscriptOrder;
    SelectingCommutesWithOrdering(ms, selected);
    KeptIsChosen(TranscriptOrder(ms), selected);
    ShownDistinct(ms);
    ShownGapsCompose(IdsOf(TranscriptOrder(ms)), selected, sub, prior);
  }
}
