/**
  What a transcript says about the order things came in: numbers given later are higher, a message no
  turn writes to stays as it is, and the activity kept is the newest fifty items.
 */
module TranscriptReceipts {
  import opened Options
  import opened Transcript

  // ---- later numbers are higher -------------------------------------------------------------------

  /** Message `i` of `s` has no number yet, or is not there yet. */
  predicate Unnumbered(s: State, i: nat) {
    i < |s.messages| ==> s.messages[i].sequence.None?
  }

  /** Every number of `r` that `s` had not given is `from` or higher. */
  ghost predicate NumbersOn(s: State, r: State, from: nat) {
    && |s.messages| <= |r.messages|
    && (forall i :: 0 <= i < |r.messages| && r.messages[i].sequence.Some? && Unnumbered(s, i) ==> from <= r.messages[i].sequence.value)
    && (forall i :: 0 <= i < |s.messages| && s.messages[i].sequence.Some? ==> r.messages[i].sequence == s.messages[i].sequence)
    && (forall j :: 0 <= j < |r.activity| && r.activity[j].sequence.Some? && r.activity[j].sequence.value < from ==>
          r.activity[j] in s.activity)
  }

  lemma NumbersOnItself(s: State, from: nat)
    ensures NumbersOn(s, s, from)
  {
  }

  lemma NumbersOnTwice(s: State, m: State, r: State, from: nat, later: nat)
    requires NumbersOn(s, m, from) && NumbersOn(m, r, later) && from <= later
    ensures NumbersOn(s, r, from)
  {
    forall i | 0 <= i < |r.messages| && r.messages[i].sequence.Some? && Unnumbered(s, i) ensures from <= r.messages[i].sequence.value {
      if !Unnumbered(m, i) {
        assert r.messages[i].sequence == m.messages[i].sequence;
      }
    }
    forall j | 0 <= j < |r.activity| && r.activity[j].sequence.Some? && r.activity[j].sequence.value < from ensures r.activity[j] in s.activity {
      assert r.activity[j] in m.activity;
    }
  }

  lemma NormalizeNumbersOn(s: State)
    ensures NumbersOn(s, Normalize(s), Limit(s)) && Limit(s) <= Limit(Normalize(s))
  {
    hide Missing, Highest, FirstNumber;
    NumberedSlots(s);
    hide Filled;
    var r, first := Normalize(s), FirstNumber(s);
    forall i | 0 <= i < |r.messages| && r.messages[i].sequence.Some? && Unnumbered(s, i) ensures Limit(s) <= r.messages[i].sequence.value {
      FilledSlot(MessageSlots(s.messages), Waiting(s.messages, s.activeAssistant), first, i);
    }
    forall j | 0 <= j < |r.activity| && r.activity[j].sequence.Some? && r.activity[j].sequence.value < Limit(s) ensures r.activity[j] in s.activity {
      FilledSlot(ActivitySlots(s.activity), Never(|s.activity|), first + MissingMessages(s), j);
      assert r.activity[j] == s.activity[j];
    }
  }

  /** After numbering, a step gives at most the next number. */
  lemma EventNumbersOn(s: State, event: Event, turn: Option<string>)
    ensures NumbersOn(s, ApplyEvent(s, event, turn), Limit(s)) && Limit(s) <= Limit(ApplyEvent(s, event, turn))
  {
    hide Normalize, FindMessage, NumbersOn;
    var o, r := Normalize(s), ApplyEvent(s, event, turn);
    NormalizeNumbersOn(s);
    NumbersOnItself(s, Limit(s));
    if r != s {
      assert NumbersOn(o, r, Limit(o)) && Limit(o) <= Limit(r) by { AppliedNumbersOn(s, event, turn); }
      NumbersOnTwice(s, o, r, Limit(s), Limit(o));
    }
  }

  lemma NormalizedCounter(s: State)
    ensures Normalize(s).nextSequence.Some?
  {
    hide FirstNumber, Missing;
  }

  lemma AppliedNumbersOn(s: State, event: Event, turn: Option<string>)
    requires ApplyEvent(s, event, turn) != s
    ensures var o, r := Normalize(s), ApplyEvent(s, event, turn); NumbersOn(o, r, Limit(o)) && Limit(o) <= Limit(r)
  {
    NormalizedCounter(s);
    hide Normalize, FindMessage, AddTokens;
  }

  lemma BeginNumbersOn(s: State, id: string, content: string)
    ensures var o, r := Normalize(s), Begin(s, id, content); NumbersOn(o, r, Limit(o)) && Limit(o) <= Limit(r)
  {
    NormalizedCounter(s);
    hide Normalize;
  }

  lemma ActivityNumbersOn(s: State, id: string, summary: string)
    requires ApplyActivity(s, id, summary) != s
    ensures var o, r := Normalize(s), ApplyActivity(s, id, summary); NumbersOn(o, r, Limit(o)) && Limit(o) <= Limit(r)
  {
    NormalizedCounter(s);
    hide Normalize;
  }

  lemma StepNumbersOn(s: State, step: Step)
    ensures NumbersOn(s, Next(s, step), Limit(s)) && Limit(s) <= Limit(Next(s, step))
  {
    hide Normalize, NumbersOn, Limit, ApplyEvent, ApplyActivity, Begin;
    var o, r := Normalize(s), Next(s, step);
    NormalizeNumbersOn(s);
    NumbersOnItself(s, Limit(s));
    match step
    case TurnEvent(event, turn) => EventNumbersOn(s, event, turn);
    case TurnBegins(id, content) =>
      BeginNumbersOn(s, id, content);
      NumbersOnTwice(s, o, r, Limit(s), Limit(o));
    case ActivityArrives(id, summary) =>
      if r != s {
        ActivityNumbersOn(s, id, summary);
        NumbersOnTwice(s, o, r, Limit(s), Limit(o));
      }
  }

  /**
    Numbers follow receipt: over every run, whatever gets its number later than some moment gets one
    at or above that moment's next number, and what had one keeps it.
   */
  lemma {:induction false} LaterNumbersAreHigher(s: State, steps: seq<Step>)
    ensures NumbersOn(s, Run(s, steps), Limit(s)) && Limit(s) <= Limit(Run(s, steps))
  {
    hide Next, NumbersOn, Limit;
    if steps == [] {
      NumbersOnItself(s, Limit(s));
    } else {
      var before, step := Run(s, steps[..|steps| - 1]), steps[|steps| - 1];
      LaterNumbersAreHigher(s, steps[..|steps| - 1]);
      StepNumbersOn(before, step);
      NumbersOnTwice(s, before, Next(before, step), Limit(s), Limit(before));
    }
  }

  // ---- messages no turn writes to -----------------------------------------------------------------

  /** Message `i` of `s` is unchanged in `r`, but for a number it may have got. */
  ghost predicate Untouched(s: State, r: State, i: nat) {
    i < |s.messages| && i < |r.messages| && r.messages[i].(sequence := None) == s.messages[i].(sequence := None)
  }

  lemma NormalizeTouchesNone(s: State, i: nat)
    requires i < |s.messages|
    ensures Untouched(s, Normalize(s), i) && |Normalize(s).messages| == |s.messages| && Normalize(s).activeAssistant == s.activeAssistant
  {
    hide FirstNumber, FilledAt, Missing;
  }

  lemma EventTouchesOnlyTheActive(s: State, event: Event, turn: Option<string>, i: nat)
    requires i < |s.messages| && s.activeAssistant != Some(s.messages[i].id)
    ensures var r := ApplyEvent(s, event, turn);
            Untouched(s, r, i) && (r.activeAssistant == s.activeAssistant || r.activeAssistant.None?)
  {
    NormalizeTouchesNone(s, i);
    hide Normalize, AddTokens;
    var o := Normalize(s);
    if ActiveIndex(o).Some? {
      assert ActiveIndex(o).value != i by { assert o.messages[i].id == s.messages[i].id; }
    }
    hide FindMessage, ActiveIndex;
  }

  lemma StepTouchesOnlyTheActive(s: State, step: Step, i: nat)
    requires i < |s.messages| && s.activeAssistant != Some(s.messages[i].id)
    ensures Untouched(s, Next(s, step), i)
    ensures var r := Next(s, step);
            r.activeAssistant == s.activeAssistant || r.activeAssistant.None? || (step.TurnBegins? && r.activeAssistant == Some(step.id + "-assistant"))
  {
    NormalizeTouchesNone(s, i);
    hide Normalize, ApplyEvent;
    match step
    case TurnEvent(event, turn) => EventTouchesOnlyTheActive(s, event, turn, i);
    case _ =>
  }

  /** A message of the user, or of a turn that is over, is never written to again, whatever comes. */
  lemma {:induction false} OtherMessagesStay(s: State, steps: seq<Step>, i: nat)
    requires i < |s.messages| && s.activeAssistant != Some(s.messages[i].id)
    requires forall j :: 0 <= j < |steps| && steps[j].TurnBegins? ==> steps[j].id + "-assistant" != s.messages[i].id
    ensures var r := Run(s, steps); Untouched(s, r, i) && r.activeAssistant != Some(s.messages[i].id)
  {
    hide Next;
    if steps != [] {
      OtherMessagesStay(s, steps[..|steps| - 1], i);
      var before := Run(s, steps[..|steps| - 1]);
      assert before.messages[i].id == s.messages[i].id by { assert before.messages[i].(sequence := None).id == s.messages[i].id; }
      StepTouchesOnlyTheActive(before, steps[|steps| - 1], i);
    }
  }

  lemma BeginAsks(s: State, id: string, content: string)
    ensures var r, k := Begin(s, id, content), |s.messages|;
            && |r.messages| == k + 2 && r.messages[k].(sequence := None) == Message(id, User, content, Unset, None, None)
            && r.messages[k].sequence.Some? && r.activeAssistant == Some(id + "-assistant")
  {
    hide FirstNumber, Missing, FilledAt;
  }

  /** What the user said stays as it was said, numbered at once, whatever the turn and later ones bring. */
  lemma QuestionStays(s: State, id: string, content: string, steps: seq<Step>)
    requires forall j :: 0 <= j < |steps| && steps[j].TurnBegins? ==> steps[j].id + "-assistant" != id
    ensures var r, k := Run(Begin(s, id, content), steps), |s.messages|;
            && k < |r.messages| && r.messages[k].(sequence := None) == Message(id, User, content, Unset, None, None)
            && r.messages[k].sequence == Begin(s, id, content).messages[k].sequence && r.messages[k].sequence.Some?
  {
    BeginAsks(s, id, content);
    hide Begin, Run;
    assert |id + "-assistant"| > |id|;
    var begun := Begin(s, id, content);
    assert begun.messages[|s.messages|].id == id by { assert begun.messages[|s.messages|].(sequence := None).id == id; }
    OtherMessagesStay(begun, steps, |s.messages|);
    LaterNumbersAreHigher(begun, steps);
  }

  // ---- the activity kept --------------------------------------------------------------------------

  /** Activity without its numbers. */
  datatype Item = Item(id: string, summary: string)

  function Listed(items: seq<Activity>): (r: seq<Item>)
    ensures |r| == |items| && forall i :: 0 <= i < |r| ==> r[i] == Item(items[i].id, items[i].summary)
  {
    seq(|items|, i requires 0 <= i < |items| => Item(items[i].id, items[i].summary))
  }

  /** The activity list read off the steps alone: a repeated item is ignored, and only the newest fifty stay. */
  function Feed(items: seq<Item>, steps: seq<Step>): seq<Item> {
    if steps == [] then items
    else
      var before, step := Feed(items, steps[..|steps| - 1]), steps[|steps| - 1];
      if !step.ActivityArrives? || (exists i :: 0 <= i < |before| && before[i].id == step.id) then before
      else if |before| < 50 then before + [Item(step.id, step.summary)]
      else before[|before| - 49..] + [Item(step.id, step.summary)]
  }

  lemma NormalizeKeepsActivity(s: State)
    ensures Listed(Normalize(s).activity) == Listed(s.activity)
  {
    hide FirstNumber, FilledAt, Missing;
  }

  lemma OthersKeepActivity(s: State, step: Step)
    requires !step.ActivityArrives?
    ensures Listed(Next(s, step).activity) == Listed(s.activity)
  {
    NormalizeKeepsActivity(s);
    hide Normalize, FindMessage, AddTokens, Listed;
  }

  lemma ArrivalListed(s: State, id: string, summary: string)
    ensures var before, after := Listed(s.activity), Listed(ApplyActivity(s, id, summary).activity);
            if exists i :: 0 <= i < |before| && before[i].id == id then after == before
            else if |before| < 50 then after == before + [Item(id, summary)]
            else after == before[|before| - 49..] + [Item(id, summary)]
  {
    NormalizeKeepsActivity(s);
    hide Normalize;
    var o, before := Normalize(s), Listed(s.activity);
    assert forall i :: 0 <= i < |before| ==> before[i].id == o.activity[i].id by {
      assert forall i :: 0 <= i < |before| ==> before[i] == Listed(o.activity)[i];
    }
  }

  lemma {:induction false} ActivityIsTheNewestFifty(s: State, steps: seq<Step>)
    ensures Listed(Run(s, steps).activity) == Feed(Listed(s.activity), steps)
  {
    hide Next, Listed;
    if steps != [] {
      ActivityIsTheNewestFifty(s, steps[..|steps| - 1]);
      var before, step := Run(s, steps[..|steps| - 1]), steps[|steps| - 1];
      if step.ActivityArrives? {
        assert Next(before, step) == ApplyActivity(before, step.id, step.summary) by { ActivityStep(before, step.id, step.summary); }
        ArrivalListed(before, step.id, step.summary);
      } else {
        OthersKeepActivity(before, step);
      }
    }
  }

  lemma ActivityStep(s: State, id: string, summary: string)
    ensures Next(s, ActivityArrives(id, summary)) == ApplyActivity(s, id, summary)
  {
  }
}
