/** A conversation's transcript: receipt numbers for messages and activity, and the turn they belong to. */
module Transcript {
  import opened Options

  datatype Role = User | Assistant

  datatype Status = Unset | Streaming | Completed | FailedTurn | Interrupted

  datatype Tokens = Tokens(tokensIn: nat, tokensOut: nat)

  datatype Message = Message(id: string, role: Role, content: string, status: Status, usage: Option<Tokens>, sequence: Option<nat>)

  datatype Activity = Activity(id: string, summary: string, sequence: Option<nat>)

  datatype State = State(
    messages: seq<Message>,
    activity: seq<Activity>,
    activeAssistant: Option<string>,
    activeTurn: Option<string>,
    nextSequence: Option<nat>)

  const EMPTY := State([], [], None, None, None)
  const ACTIVITY_LIMIT: nat := 50

  // ---- numbering --------------------------------------------------------------------------------

  type Slots = seq<Option<nat>>

  function MessageSlots(ms: seq<Message>): (r: Slots)
    ensures |r| == |ms| && forall i :: 0 <= i < |r| ==> r[i] == ms[i].sequence
  {
    seq(|ms|, i requires 0 <= i < |ms| => ms[i].sequence)
  }

  function ActivitySlots(items: seq<Activity>): (r: Slots)
    ensures |r| == |items| && forall i :: 0 <= i < |r| ==> r[i] == items[i].sequence
  {
    seq(|items|, i requires 0 <= i < |items| => items[i].sequence)
  }

  /** The highest number given so far, or -1. */
  function Highest(slots: Slots): (h: int)
    ensures h >= -1 && forall i :: 0 <= i < |slots| && slots[i].Some? ==> slots[i].value <= h
  {
    if slots == [] then -1
    else
      var last := slots[|slots| - 1];
      Max(Highest(slots[..|slots| - 1]), if last.Some? then last.value else -1)
  }

  /** An assistant message still waiting for its first text gets no number yet. */
  predicate Waits(m: Message, active: Option<string>) {
    active == Some(m.id) && m.content == ""
  }

  function Waiting(ms: seq<Message>, active: Option<string>): (r: seq<bool>)
    ensures |r| == |ms| && forall i :: 0 <= i < |r| ==> r[i] == Waits(ms[i], active)
  {
    seq(|ms|, i requires 0 <= i < |ms| => Waits(ms[i], active))
  }

  function Never(n: nat): (r: seq<bool>)
    ensures |r| == n && forall i :: 0 <= i < n ==> !r[i]
  {
    seq(n, i => false)
  }

  /** How many of the first `n` slots are to be filled. */
  function Missing(slots: Slots, keep: seq<bool>, n: nat): nat
    requires n <= |slots| == |keep|
  {
    if n == 0 then 0 else Missing(slots, keep, n - 1) + if slots[n - 1].Some? || keep[n - 1] then 0 else 1
  }

  /** Empty slots are numbered on from `next`, in order. */
  function FilledAt(slots: Slots, keep: seq<bool>, next: nat, i: nat): Option<nat>
    requires i < |slots| == |keep|
  {
    if slots[i].Some? || keep[i] then slots[i] else Some(next + Missing(slots, keep, i))
  }

  function NumberMessages(ms: seq<Message>, active: Option<string>, next: nat): (r: seq<Message>)
    ensures |r| == |ms|
    ensures forall i :: 0 <= i < |r| ==> r[i] == ms[i].(sequence := FilledAt(MessageSlots(ms), Waiting(ms, active), next, i))
  {
    seq(|ms|, i requires 0 <= i < |ms| => ms[i].(sequence := FilledAt(MessageSlots(ms), Waiting(ms, active), next, i)))
  }

  function NumberActivity(items: seq<Activity>, next: nat): (r: seq<Activity>)
    ensures |r| == |items|
    ensures forall i :: 0 <= i < |r| ==> r[i] == items[i].(sequence := FilledAt(ActivitySlots(items), Never(|items|), next, i))
  {
    seq(|items|, i requires 0 <= i < |items| => items[i].(sequence := FilledAt(ActivitySlots(items), Never(|items|), next, i)))
  }

  function FirstNumber(s: State): nat {
    Max(if s.nextSequence.Some? then s.nextSequence.value else 0,
        Max(Highest(MessageSlots(s.messages)), Highest(ActivitySlots(s.activity))) + 1)
  }

  function MissingMessages(s: State): nat {
    Missing(MessageSlots(s.messages), Waiting(s.messages, s.activeAssistant), |s.messages|)
  }

  function MissingActivity(s: State): nat {
    Missing(ActivitySlots(s.activity), Never(|s.activity|), |s.activity|)
  }

  function Normalize(s: State): State {
    var first := FirstNumber(s);
    var second := first + MissingMessages(s);
    s.(messages := NumberMessages(s.messages, s.activeAssistant, first),
       activity := NumberActivity(s.activity, second),
       nextSequence := Some(second + MissingActivity(s)))
  }

  /** Numbering as the source writes it, one counter over both lists. */
  method NormalizeConversationSequence(s: State) returns (r: State)
    ensures r == Normalize(s)
  {
    hide NumberMessages, NumberActivity, Missing, FirstNumber, MessageSlots, ActivitySlots, Waiting, Never;
    var first := FirstNumber(s);
    var messages, second := NumberEachMessage(s.messages, s.activeAssistant, first);
    var activity, next := NumberEachActivity(s.activity, second);
    r := s.(messages := messages, activity := activity, nextSequence := Some(next));
  }

  lemma NoneMissing(slots: Slots, keep: seq<bool>)
    requires |slots| == |keep|
    ensures Missing(slots, keep, 0) == 0
  {
  }

  /** The counter before and after slot `i`, and what the slot gets. */
  lemma CountOne(slots: Slots, keep: seq<bool>, next: nat, i: nat)
    requires i < |slots| == |keep|
    ensures Missing(slots, keep, i + 1) == Missing(slots, keep, i) + if slots[i].Some? || keep[i] then 0 else 1
    ensures FilledAt(slots, keep, next, i) == if slots[i].Some? || keep[i] then slots[i] else Some(next + Missing(slots, keep, i))
  {
  }

  method NumberEachMessage(ms: seq<Message>, active: Option<string>, first: nat) returns (messages: seq<Message>, next: nat)
    ensures messages == NumberMessages(ms, active, first)
    ensures next == first + Missing(MessageSlots(ms), Waiting(ms, active), |ms|)
  {
    hide NumberMessages, MessageSlots, Waiting, Missing, FilledAt;
    ghost var slots, keep := MessageSlots(ms), Waiting(ms, active);
    messages, next := [], first;
    assert Missing(slots, keep, 0) == 0 by { NoneMissing(slots, keep); }
    for i := 0 to |ms|
      invariant |messages| == i && next == first + Missing(slots, keep, i)
      invariant forall j :: 0 <= j < i ==> messages[j] == ms[j].(sequence := FilledAt(slots, keep, first, j))
    {
      CountOne(slots, keep, first, i);
      var message := ms[i];
      if message.sequence.None? && !(active == Some(message.id) && message.content == "") {
        message := message.(sequence := Some(next));
        next := next + 1;
      }
      messages := messages + [message];
    }
  }

  method NumberEachActivity(items: seq<Activity>, first: nat) returns (activity: seq<Activity>, next: nat)
    ensures activity == NumberActivity(items, first)
    ensures next == first + Missing(ActivitySlots(items), Never(|items|), |items|)
  {
    hide NumberActivity, ActivitySlots, Never, Missing, FilledAt;
    ghost var slots, keep := ActivitySlots(items), Never(|items|);
    activity, next := [], first;
    assert Missing(slots, keep, 0) == 0 by { NoneMissing(slots, keep); }
    for i := 0 to |items|
      invariant |activity| == i && next == first + Missing(slots, keep, i)
      invariant forall j :: 0 <= j < i ==> activity[j] == items[j].(sequence := FilledAt(slots, keep, first, j))
    {
      CountOne(slots, keep, first, i);
      var item := items[i];
      if item.sequence.None? {
        item := item.(sequence := Some(next));
        next := next + 1;
      }
      activity := activity + [item];
    }
  }

  // ---- turns --------------------------------------------------------------------------------------

  datatype Event =
    | PermissionAsked
    | NativeActivity
    | Usage(tokens: Tokens, costs: bool)
    | Output(content: string)
    | Done(status: Status, filler: string)
    | Unknown

  /** Whether an event correlated to `turn` belongs to the running turn. */
  predicate Accepts(s: State, turn: Option<string>) {
    turn.None? || (s.activeAssistant.Some? && (s.activeTurn.None? || s.activeTurn == turn))
  }

  function NextOf(s: State): nat {
    if s.nextSequence.Some? then s.nextSequence.value else 0
  }

  function Begin(s: State, id: string, content: string): State {
    var o := Normalize(s);
    o.(messages := o.messages + [
         Message(id, User, content, Unset, None, Some(NextOf(o))),
         Message(id + "-assistant", Assistant, "", Streaming, None, None)],
       nextSequence := Some(NextOf(o) + 1),
       activeAssistant := Some(id + "-assistant"),
       activeTurn := Some(id))
  }

  function FindMessage(ms: seq<Message>, id: string): (r: Option<nat>)
    ensures r.Some? ==> r.value < |ms| && ms[r.value].id == id
    ensures r.None? ==> forall i :: 0 <= i < |ms| ==> ms[i].id != id
  {
    if ms == [] then None
    else if ms[0].id == id then Some(0)
    else
      var rest := FindMessage(ms[1..], id);
      if rest.Some? then Some(rest.value + 1) else None
  }

  function ActiveIndex(s: State): (r: Option<nat>)
    ensures r.Some? ==> r.value < |s.messages|
  {
    if s.activeAssistant.Some? then FindMessage(s.messages, s.activeAssistant.value) else None
  }

  /** The message takes the next number unless it has one; `s` is already normalized. */
  function Replace(s: State, i: nat, m: Message): State
    requires i < |s.messages|
  {
    var numbered := m.(sequence := if s.messages[i].sequence.Some? then s.messages[i].sequence else Some(NextOf(s)));
    s.(messages := s.messages[i := numbered],
       nextSequence := if s.messages[i].sequence.None? then Some(NextOf(s) + 1) else s.nextSequence)
  }

  function AddTokens(a: Option<Tokens>, b: Tokens): Option<Tokens> {
    if a.Some? then Some(Tokens(a.value.tokensIn + b.tokensIn, a.value.tokensOut + b.tokensOut)) else Some(b)
  }

  /** `filler` is what an ended turn without text says instead. */
  function ApplyEvent(s: State, event: Event, turn: Option<string>): State {
    if !Accepts(s, turn) then s
    else
      var o := Normalize(s);
      var index := ActiveIndex(o);
      match event
      case Usage(tokens, costs) =>
        if index.None? || (tokens == Tokens(0, 0) && !costs) then s
        else
          var m := o.messages[index.value];
          o.(messages := o.messages[index.value := m.(usage := AddTokens(m.usage, tokens))])
      case Output(content) =>
        if index.None? then s
        else
          var m := o.messages[index.value];
          Replace(o, index.value, m.(content := m.content + content, status := Streaming))
      case Done(status, filler) =>
        var ended :=
          if index.None? then o
          else
            var m := o.messages[index.value];
            Replace(o, index.value, m.(status := status, content := if m.content != "" then m.content else filler));
        ended.(activeAssistant := None, activeTurn := None)
      case _ => s
  }

  function ApplyActivity(s: State, id: string, summary: string): State {
    var o := Normalize(s);
    if exists i :: 0 <= i < |o.activity| && o.activity[i].id == id then s
    else
      var all := o.activity + [Activity(id, summary, Some(NextOf(o)))];
      o.(activity := if |all| > ACTIVITY_LIMIT then all[|all| - ACTIVITY_LIMIT..] else all, nextSequence := Some(NextOf(o) + 1))
  }

  datatype Step =
    | TurnBegins(id: string, content: string)
    | TurnEvent(event: Event, turn: Option<string>)
    | ActivityArrives(id: string, summary: string)

  function Next(s: State, step: Step): State {
    match step
    case TurnBegins(id, content) => Begin(s, id, content)
    case TurnEvent(event, turn) => ApplyEvent(s, event, turn)
    case ActivityArrives(id, summary) => ApplyActivity(s, id, summary)
  }

  function Run(s: State, steps: seq<Step>): State {
    if steps == [] then s else Next(Run(s, steps[..|steps| - 1]), steps[|steps| - 1])
  }

  // ---- numbers are distinct and below the counter ---------------------------------------------------

  ghost predicate Unique(slots: Slots, bound: nat) {
    && (forall i :: 0 <= i < |slots| && slots[i].Some? ==> slots[i].value < bound)
    && (forall i, j :: 0 <= i < j < |slots| && slots[i].Some? && slots[j].Some? ==> slots[i] != slots[j])
  }

  ghost predicate Apart(a: Slots, b: Slots) {
    forall i, j :: 0 <= i < |a| && 0 <= j < |b| && a[i].Some? && b[j].Some? ==> a[i] != b[j]
  }

  /** A conversation without a counter, such as a reopened one, goes on past its highest number. */
  function Limit(s: State): nat {
    if s.nextSequence.Some? then s.nextSequence.value else FirstNumber(s)
  }

  /** All numbers given out are different and below the next one. */
  ghost predicate WellNumbered(s: State) {
    && Unique(MessageSlots(s.messages), Limit(s)) && Unique(ActivitySlots(s.activity), Limit(s))
    && Apart(MessageSlots(s.messages), ActivitySlots(s.activity))
  }

  /** Without a counter being well-numbered is having no number twice. */
  lemma ReopenedIsWellNumbered(s: State)
    requires s.nextSequence.None? && Apart(MessageSlots(s.messages), ActivitySlots(s.activity))
    requires var a := MessageSlots(s.messages); forall i, j :: 0 <= i < j < |a| && a[i].Some? && a[j].Some? ==> a[i] != a[j]
    requires var b := ActivitySlots(s.activity); forall i, j :: 0 <= i < j < |b| && b[i].Some? && b[j].Some? ==> b[i] != b[j]
    ensures WellNumbered(s)
  {
    hide Highest;
  }

  function Filled(slots: Slots, keep: seq<bool>, next: nat): (r: Slots)
    requires |slots| == |keep|
    ensures |r| == |slots| && forall i :: 0 <= i < |r| ==> r[i] == FilledAt(slots, keep, next, i)
  {
    seq(|slots|, i requires 0 <= i < |slots| => FilledAt(slots, keep, next, i))
  }

  lemma {:induction false} MissingGrows(slots: Slots, keep: seq<bool>, i: nat, j: nat)
    requires i < j <= |slots| == |keep|
    ensures Missing(slots, keep, i) <= Missing(slots, keep, j)
    ensures slots[i].None? && !keep[i] ==> Missing(slots, keep, i) < Missing(slots, keep, j)
  {
    if i < j - 1 {
      MissingGrows(slots, keep, i, j - 1);
    }
  }

  /** Filling keeps old numbers and gives new ones from `next` on. */
  lemma FilledSlot(slots: Slots, keep: seq<bool>, next: nat, i: nat)
    requires i < |slots| == |keep|
    ensures var f := Filled(slots, keep, next)[i];
            && (slots[i].Some? ==> f == slots[i])
            && (slots[i].None? && f.Some? ==> next <= f.value < next + Missing(slots, keep, |slots|))
            && (f.None? ==> keep[i])
  {
    MissingGrows(slots, keep, i, |slots|);
  }

  lemma FillKeepsUnique(slots: Slots, keep: seq<bool>, next: nat)
    requires |slots| == |keep| && Unique(slots, next)
    ensures Unique(Filled(slots, keep, next), next + Missing(slots, keep, |slots|))
  {
    var r := Filled(slots, keep, next);
    forall i | 0 <= i < |r| && r[i].Some? ensures r[i].value < next + Missing(slots, keep, |slots|) {
      FilledSlot(slots, keep, next, i);
    }
    forall i, j | 0 <= i < j < |r| && r[i].Some? && r[j].Some? ensures r[i] != r[j] {
      FilledSlot(slots, keep, next, i);
      FilledSlot(slots, keep, next, j);
      MissingGrows(slots, keep, i, j);
    }
  }

  lemma MoreRoom(slots: Slots, bound: nat, more: nat)
    requires Unique(slots, bound) && bound <= more
    ensures Unique(slots, more)
  {
  }

  lemma NumberedSlots(s: State)
    ensures var first := FirstNumber(s);
            var r := Normalize(s);
            && MessageSlots(r.messages) == Filled(MessageSlots(s.messages), Waiting(s.messages, s.activeAssistant), first)
            && ActivitySlots(r.activity) == Filled(ActivitySlots(s.activity), Never(|s.activity|), first + MissingMessages(s))
            && Limit(s) <= first && r.nextSequence == Some(first + MissingMessages(s) + MissingActivity(s))
  {
    hide Missing, FilledAt, Highest, Waiting, Never;
  }

  lemma NormalizeNumbers(s: State)
    requires WellNumbered(s)
    ensures WellNumbered(Normalize(s)) && Limit(s) <= Limit(Normalize(s)) && Normalize(s).nextSequence.Some?
  {
    hide Unique, Apart, Filled, Missing, Normalize, FirstNumber, Waiting, Never;
    var a, b := MessageSlots(s.messages), ActivitySlots(s.activity);
    var ka, kb := Waiting(s.messages, s.activeAssistant), Never(|s.activity|);
    var first := FirstNumber(s);
    var second := first + MissingMessages(s);
    NumberedSlots(s);
    MoreRoom(a, Limit(s), first);
    MoreRoom(b, Limit(s), second);
    FillKeepsUnique(a, ka, first);
    FillKeepsUnique(b, kb, second);
    MoreRoom(Filled(a, ka, first), second, NextOf(Normalize(s)));
    FilledApart(a, ka, b, kb, Limit(s), first, second);
  }

  lemma FilledApart(a: Slots, ka: seq<bool>, b: Slots, kb: seq<bool>, bound: nat, first: nat, second: nat)
    requires |a| == |ka| && |b| == |kb| && Unique(a, bound) && Unique(b, bound) && Apart(a, b)
    requires bound <= first && second == first + Missing(a, ka, |a|)
    ensures Apart(Filled(a, ka, first), Filled(b, kb, second))
  {
    forall i, j | 0 <= i < |a| && 0 <= j < |b| && Filled(a, ka, first)[i].Some? && Filled(b, kb, second)[j].Some?
      ensures Filled(a, ka, first)[i] != Filled(b, kb, second)[j] {
      FilledSlot(a, ka, first, i);
      FilledSlot(b, kb, second, j);
    }
  }

  /** A message in place takes the next number, or keeps its own. */
  lemma ReplaceNumbers(s: State, i: nat, m: Message)
    requires WellNumbered(s) && i < |s.messages| && s.nextSequence.Some?
    ensures WellNumbered(Replace(s, i, m))
  {
    var r := Replace(s, i, m);
    var a, b := MessageSlots(s.messages), MessageSlots(r.messages);
    assert forall k :: 0 <= k < |b| && k != i ==> b[k] == a[k];
    assert b[i] == if a[i].Some? then a[i] else Some(NextOf(s));
  }

  lemma BeginNumbers(s: State, id: string, content: string)
    requires WellNumbered(s)
    ensures WellNumbered(Begin(s, id, content))
  {
    hide Normalize;
    NormalizeNumbers(s);
    var o, r := Normalize(s), Begin(s, id, content);
    var a, b := MessageSlots(o.messages), MessageSlots(r.messages);
    assert b == a + [Some(NextOf(o)), None];
  }

  lemma UsageNumbers(s: State, i: nat, usage: Option<Tokens>)
    requires WellNumbered(s) && i < |s.messages| && s.nextSequence.Some?
    ensures WellNumbered(s.(messages := s.messages[i := s.messages[i].(usage := usage)]))
  {
    var r := s.(messages := s.messages[i := s.messages[i].(usage := usage)]);
    assert MessageSlots(r.messages) == MessageSlots(s.messages);
  }

  lemma EventNumbers(s: State, event: Event, turn: Option<string>)
    requires WellNumbered(s)
    ensures WellNumbered(ApplyEvent(s, event, turn))
  {
    hide Normalize, Replace, WellNumbered;
    NormalizeNumbers(s);
    var o := Normalize(s);
    var index := ActiveIndex(o);
    if index.Some? && Accepts(s, turn) {
      var m := o.messages[index.value];
      match event
      case Usage(tokens, _) => UsageNumbers(o, index.value, AddTokens(m.usage, tokens));
      case Output(content) => ReplaceNumbers(o, index.value, m.(content := m.content + content, status := Streaming));
      case Done(status, filler) =>
        ReplaceNumbers(o, index.value, m.(status := status, content := if m.content != "" then m.content else filler));
        SameNumbers(Replace(o, index.value, m.(status := status, content := if m.content != "" then m.content else filler)), ApplyEvent(s, event, turn));
      case _ =>
    } else if event.Done? && Accepts(s, turn) {
      SameNumbers(o, ApplyEvent(s, event, turn));
    }
  }

  lemma SameNumbers(s: State, r: State)
    requires WellNumbered(s) && r.messages == s.messages && r.activity == s.activity && r.nextSequence == s.nextSequence
    ensures WellNumbered(r)
  {
  }

  /** One more number at the end, and the oldest ones dropped. */
  lemma DroppedUnique(a: Slots, b: Slots, other: Slots, from: nat, next: nat)
    requires Unique(a, next) && Unique(other, next) && Apart(other, a) && from + |b| == |a| + 1
    requires forall k :: 0 <= k < |b| ==> b[k] == if from + k < |a| then a[from + k] else Some(next)
    ensures Unique(b, next + 1) && Unique(other, next + 1) && Apart(other, b)
  {
  }

  lemma SlotsOfTail(items: seq<Activity>, item: Activity, from: nat)
    requires from <= |items| + 1 && item.sequence.Some?
    ensures var a, b := ActivitySlots(items), ActivitySlots((items + [item])[from..]);
            && from + |b| == |a| + 1
            && forall k :: 0 <= k < |b| ==> b[k] == if from + k < |a| then a[from + k] else item.sequence
  {
  }

  lemma ActivityNumbers(s: State, id: string, summary: string)
    requires WellNumbered(s)
    ensures WellNumbered(ApplyActivity(s, id, summary))
  {
    hide Normalize, Unique, Apart, ActivitySlots, MessageSlots;
    NormalizeNumbers(s);
    var o, r := Normalize(s), ApplyActivity(s, id, summary);
    if r != s {
      var item := Activity(id, summary, Some(NextOf(o)));
      var all := o.activity + [item];
      var from := if |all| > ACTIVITY_LIMIT then |all| - ACTIVITY_LIMIT else 0;
      assert all[0..] == all;
      SlotsOfTail(o.activity, item, from);
      DroppedUnique(ActivitySlots(o.activity), ActivitySlots(r.activity), MessageSlots(o.messages), from, NextOf(o));
    }
  }

  /** From any well-numbered conversation, new or reopened, every run keeps numbers distinct and below the counter. */
  lemma {:induction false} EveryRunIsWellNumbered(s: State, steps: seq<Step>)
    requires WellNumbered(s)
    ensures WellNumbered(Run(s, steps))
  {
    hide ApplyEvent, ApplyActivity, Begin, WellNumbered;
    if steps != [] {
      var before := Run(s, steps[..|steps| - 1]);
      EveryRunIsWellNumbered(s, steps[..|steps| - 1]);
      match steps[|steps| - 1]
      case TurnBegins(id, content) => BeginNumbers(before, id, content);
      case TurnEvent(event, turn) => EventNumbers(before, event, turn);
      case ActivityArrives(id, summary) => ActivityNumbers(before, id, summary);
    }
  }

  // ---- what was received stays where it is ------------------------------------------------------------

  /** The same messages, later: numbers kept, text only added to. */
  ghost predicate Grown(a: seq<Message>, b: seq<Message>) {
    && |a| <= |b|
    && forall i :: 0 <= i < |a| ==>
         && b[i].id == a[i].id && b[i].role == a[i].role && a[i].content <= b[i].content
         && (a[i].sequence.Some? ==> b[i].sequence == a[i].sequence)
  }

  lemma NormalizeGrows(s: State)
    ensures Grown(s.messages, Normalize(s).messages)
  {
    hide Highest, Missing;
  }

  lemma ReplaceGrows(s: State, i: nat, m: Message)
    requires i < |s.messages| && m.id == s.messages[i].id && m.role == s.messages[i].role && s.messages[i].content <= m.content
    ensures Grown(s.messages, Replace(s, i, m).messages)
  {
  }

  lemma EventGrows(s: State, event: Event, turn: Option<string>)
    ensures Grown(s.messages, ApplyEvent(s, event, turn).messages)
  {
    hide Normalize, Replace, Grown;
    var o, r := Normalize(s), ApplyEvent(s, event, turn);
    NormalizeGrows(s);
    GrownItself(s.messages);
    var index := ActiveIndex(o);
    if Accepts(s, turn) && index.Some? {
      var m := o.messages[index.value];
      match event
      case Usage(tokens, _) =>
        UsageGrows(o, index.value, AddTokens(m.usage, tokens));
        GrownTwice(s.messages, o.messages, o.messages[index.value := m.(usage := AddTokens(m.usage, tokens))]);
      case Output(content) =>
        ReplaceGrows(o, index.value, m.(content := m.content + content, status := Streaming));
        GrownTwice(s.messages, o.messages, r.messages);
      case Done(status, filler) =>
        ReplaceGrows(o, index.value, m.(status := status, content := if m.content != "" then m.content else filler));
        GrownTwice(s.messages, o.messages, r.messages);
      case _ =>
    }
  }

  lemma GrownItself(a: seq<Message>)
    ensures Grown(a, a)
  {
  }

  lemma UsageGrows(s: State, i: nat, usage: Option<Tokens>)
    requires i < |s.messages|
    ensures Grown(s.messages, s.messages[i := s.messages[i].(usage := usage)])
  {
  }

  lemma StepGrows(s: State, step: Step)
    ensures Grown(s.messages, Next(s, step).messages)
  {
    hide Normalize, ApplyEvent;
    NormalizeGrows(s);
    match step
    case TurnBegins(id, content) =>
    case TurnEvent(event, turn) => EventGrows(s, event, turn);
    case ActivityArrives(id, summary) =>
  }

  lemma GrownTwice(a: seq<Message>, b: seq<Message>, c: seq<Message>)
    requires Grown(a, b) && Grown(b, c)
    ensures Grown(a, c)
  {
  }

  /** A number, once given, is never changed, and text once received is never lost. */
  lemma {:induction false} TranscriptOnlyGrows(s: State, steps: seq<Step>)
    ensures Grown(s.messages, Run(s, steps).messages)
  {
    hide Next;
    if steps != [] {
      hide Grown;
      TranscriptOnlyGrows(s, steps[..|steps| - 1]);
      StepGrows(Run(s, steps[..|steps| - 1]), steps[|steps| - 1]);
      GrownTwice(s.messages, Run(s, steps[..|steps| - 1]).messages, Run(s, steps).messages);
    }
  }

  // ---- late and repeated events ----------------------------------------------------------------------

  /** The run without the events that were stale when they came. */
  function Live(s: State, steps: seq<Step>): seq<Step> {
    if steps == [] then []
    else
      var before, step := Live(s, steps[..|steps| - 1]), steps[|steps| - 1];
      if step.TurnEvent? && !Accepts(Run(s, steps[..|steps| - 1]), step.turn) then before else before + [step]
  }

  /** Stale events leave no trace: without them the run ends in the same conversation. */
  lemma {:induction false} StaleEventsLeaveNoTrace(s: State, steps: seq<Step>)
    ensures Run(s, Live(s, steps)) == Run(s, steps)
  {
    if steps != [] {
      var front, step := steps[..|steps| - 1], steps[|steps| - 1];
      StaleEventsLeaveNoTrace(s, front);
      if step.TurnEvent? && !Accepts(Run(s, front), step.turn) {
        assert Next(Run(s, front), step) == Run(s, front);
      } else {
        assert (Live(s, front) + [step])[..|Live(s, front)|] == Live(s, front);
      }
    }
  }

  /**
    What a turn's assistant message should be, read off the steps alone: its text, its status, the
    tokens used, whether anything of it was received, and whether the turn is over (it ended, or
    another began).
   */
  datatype TurnText = TurnText(text: string, status: Status, used: bool, tokensIn: nat, tokensOut: nat, started: bool, over: bool)

  predicate Concerns(turn: Option<string>, id: string) {
    turn.None? || turn == Some(id)
  }

  function TextOf(steps: seq<Step>, id: string): TurnText {
    if steps == [] then TurnText("", Streaming, false, 0, 0, false, false)
    else
      var before, step := TextOf(steps[..|steps| - 1], id), steps[|steps| - 1];
      if step.TurnBegins? then before.(over := true)
      else if before.over || !step.TurnEvent? || !Concerns(step.turn, id) then before
      else Heard(before, step.event)
  }

  function Heard(t: TurnText, event: Event): TurnText {
    match event
    case Usage(tokens, costs) =>
      if tokens == Tokens(0, 0) && !costs then t
      else t.(used := true, tokensIn := t.tokensIn + tokens.tokensIn, tokensOut := t.tokensOut + tokens.tokensOut)
    case Output(content) => t.(text := t.text + content, status := Streaming, started := true)
    case Done(status, filler) =>
      t.(text := if t.text != "" then t.text else filler, status := status, started := true, over := true)
    case _ => t
  }

  /** The message is what the steps say; it has its number exactly from its first output on. */
  ghost predicate Shows(m: Message, t: TurnText) {
    && m.role == Assistant && m.content == t.text && m.status == t.status
    && m.usage == (if t.used then Some(Tokens(t.tokensIn, t.tokensOut)) else None)
    && (t.started ==> m.sequence.Some?)
    && (!t.started && !t.over ==> m.sequence.None? && t.text == "")
    && (!t.used ==> t.tokensIn == 0 && t.tokensOut == 0)
  }

  /** The active turn is `id` unless that is over. */
  predicate RunsUnlessOver(s: State, id: string, over: bool) {
    if over then s.activeAssistant != Some(id + "-assistant")
    else s.activeAssistant == Some(id + "-assistant") && s.activeTurn == Some(id)
  }

  /** The assistant message of turn `id` is at `k`, and the turn runs unless it is over. */
  ghost predicate Follows(s: State, id: string, k: nat, t: TurnText) {
    && k < |s.messages| && FindMessage(s.messages, id + "-assistant") == Some(k) && Shows(s.messages[k], t)
    && RunsUnlessOver(s, id, t.over)
  }

  lemma {:induction false} SameIdsSameFind(a: seq<Message>, b: seq<Message>, id: string)
    requires |a| == |b| && forall i :: 0 <= i < |a| ==> a[i].id == b[i].id
    ensures FindMessage(a, id) == FindMessage(b, id)
  {
    if a != [] {
      SameIdsSameFind(a[1..], b[1..], id);
    }
  }

  lemma NormalizeFollows(s: State, id: string, k: nat, t: TurnText)
    requires Follows(s, id, k, t)
    ensures Follows(Normalize(s), id, k, t)
  {
    hide Highest, Missing, FindMessage;
    SameIdsSameFind(s.messages, Normalize(s).messages, id + "-assistant");
  }

  lemma UpdateFollows(s: State, r: State, id: string, k: nat, t: TurnText, t': TurnText)
    requires Follows(s, id, k, t) && |r.messages| == |s.messages| && r.messages == s.messages[k := r.messages[k]]
    requires r.messages[k].id == s.messages[k].id && Shows(r.messages[k], t') && RunsUnlessOver(r, id, t'.over)
    ensures Follows(r, id, k, t')
  {
    hide FindMessage;
    SameIdsSameFind(s.messages, r.messages, id + "-assistant");
  }

  /** A change to another message. */
  lemma OtherFollows(s: State, r: State, id: string, k: nat, t: TurnText, j: nat)
    requires Follows(s, id, k, t) && t.over && j < |s.messages| && j != k
    requires |r.messages| == |s.messages| && r.messages == s.messages[j := r.messages[j]] && r.messages[j].id == s.messages[j].id
    requires r.activeAssistant.None? || r.activeAssistant == s.activeAssistant
    ensures Follows(r, id, k, t)
  {
    hide FindMessage;
    SameIdsSameFind(s.messages, r.messages, id + "-assistant");
  }

  /** After the turn's end, or once another began, no event reaches its message. */
  lemma OverFollows(s: State, event: Event, turn: Option<string>, id: string, k: nat, t: TurnText)
    requires Follows(s, id, k, t) && t.over
    ensures Follows(ApplyEvent(s, event, turn), id, k, t)
  {
    hide FindMessage, Accepts, AddTokens, NumberMessages, NumberActivity, FirstNumber, MissingMessages, MissingActivity;
    NormalizeFollows(s, id, k, t);
    var o, r := Normalize(s), ApplyEvent(s, event, turn);
    var index := ActiveIndex(o);
    assert o.activeAssistant == s.activeAssistant;
    hide Normalize;
    if index.Some? {
      OtherIndex(o, id, k, t);
      if r != s && (event.Usage? || event.Output? || event.Done?) {
        OtherFollows(o, r, id, k, t, index.value);
      }
    }
  }

  /** The active message of another turn is another message. */
  lemma OtherIndex(s: State, id: string, k: nat, t: TurnText)
    requires Follows(s, id, k, t) && t.over && ActiveIndex(s).Some?
    ensures ActiveIndex(s).value != k
  {
    var found := FindMessage(s.messages, id + "-assistant");
    assert s.messages[k].id == id + "-assistant";
    assert s.messages[ActiveIndex(s).value].id == s.activeAssistant.value;
  }

  lemma RunningIndex(s: State, turn: Option<string>, id: string, k: nat, t: TurnText)
    requires Follows(s, id, k, t) && !t.over && Concerns(turn, id)
    ensures Accepts(s, turn) && Follows(Normalize(s), id, k, t) && ActiveIndex(Normalize(s)) == Some(k)
  {
    hide FindMessage, Highest, Missing;
    NormalizeFollows(s, id, k, t);
  }

  lemma OutputFollows(s: State, content: string, turn: Option<string>, id: string, k: nat, t: TurnText)
    requires Follows(s, id, k, t) && !t.over && Concerns(turn, id)
    ensures Follows(ApplyEvent(s, Output(content), turn), id, k, Heard(t, Output(content)))
  {
    hide Normalize, FindMessage, Accepts, ActiveIndex;
    RunningIndex(s, turn, id, k, t);
    UpdateFollows(Normalize(s), ApplyEvent(s, Output(content), turn), id, k, t, Heard(t, Output(content)));
  }

  lemma DoneFollows(s: State, status: Status, filler: string, turn: Option<string>, id: string, k: nat, t: TurnText)
    requires Follows(s, id, k, t) && !t.over && Concerns(turn, id)
    ensures Follows(ApplyEvent(s, Done(status, filler), turn), id, k, Heard(t, Done(status, filler)))
  {
    hide Normalize, FindMessage, Accepts, ActiveIndex;
    RunningIndex(s, turn, id, k, t);
    UpdateFollows(Normalize(s), ApplyEvent(s, Done(status, filler), turn), id, k, t, Heard(t, Done(status, filler)));
  }

  lemma UsageFollows(s: State, tokens: Tokens, costs: bool, turn: Option<string>, id: string, k: nat, t: TurnText)
    requires Follows(s, id, k, t) && !t.over && Concerns(turn, id)
    ensures Follows(ApplyEvent(s, Usage(tokens, costs), turn), id, k, Heard(t, Usage(tokens, costs)))
  {
    hide Normalize, FindMessage, Accepts, ActiveIndex;
    RunningIndex(s, turn, id, k, t);
    if tokens != Tokens(0, 0) || costs {
      UpdateFollows(Normalize(s), ApplyEvent(s, Usage(tokens, costs), turn), id, k, t, Heard(t, Usage(tokens, costs)));
    }
  }

  lemma EventFollows(s: State, event: Event, turn: Option<string>, id: string, k: nat, steps: seq<Step>)
    requires Follows(s, id, k, TextOf(steps, id))
    ensures Follows(ApplyEvent(s, event, turn), id, k, TextOf(steps + [TurnEvent(event, turn)], id))
  {
    assert (steps + [TurnEvent(event, turn)])[..|steps|] == steps;
    var t := TextOf(steps, id);
    if t.over {
      OverFollows(s, event, turn, id, k, t);
    } else if !Concerns(turn, id) {
      assert !Accepts(s, turn);
    } else {
      hide Follows, Normalize;
      match event
      case Usage(tokens, costs) => UsageFollows(s, tokens, costs, turn, id, k, t);
      case Output(content) => OutputFollows(s, content, turn, id, k, t);
      case Done(status, filler) => DoneFollows(s, status, filler, turn, id, k, t);
      case _ =>
    }
  }

  lemma ActivityFollows(s: State, activity: string, summary: string, id: string, k: nat, t: TurnText)
    requires Follows(s, id, k, t)
    ensures Follows(ApplyActivity(s, activity, summary), id, k, t)
  {
    hide Normalize, FindMessage;
    NormalizeFollows(s, id, k, t);
  }

  lemma {:induction false} FindPrefix(ms: seq<Message>, more: seq<Message>, id: string)
    requires FindMessage(ms, id).Some?
    ensures FindMessage(ms + more, id) == FindMessage(ms, id)
  {
    assert (ms + more)[0] == ms[0] && (ms + more)[1..] == ms[1..] + more;
    if ms[0].id != id {
      FindPrefix(ms[1..], more, id);
    }
  }

  /** Another turn begins: this one is over, with the text it has. */
  lemma BeginOther(s: State, other: string, content: string, id: string, k: nat, t: TurnText)
    requires Follows(s, id, k, t) && other != id
    ensures Follows(Begin(s, other, content), id, k, t.(over := true))
  {
    hide Normalize, FindMessage;
    NormalizeFollows(s, id, k, t);
    var o, r := Normalize(s), Begin(s, other, content);
    FindPrefix(o.messages, r.messages[|o.messages|..], id + "-assistant");
    assert r.messages == o.messages + r.messages[|o.messages|..];
    SuffixTells(other, id);
  }

  lemma SuffixTells(a: string, b: string)
    requires a != b
    ensures a + "-assistant" != b + "-assistant"
  {
    var x, y := a + "-assistant", b + "-assistant";
    if |a| == |b| {
      assert x[..|a|] == a && y[..|b|] == b;
    } else {
      assert |x| != |y|;
    }
  }

  lemma StepFollows(s: State, step: Step, id: string, k: nat, steps: seq<Step>)
    requires Follows(s, id, k, TextOf(steps, id)) && (step.TurnBegins? ==> step.id != id)
    ensures Follows(Next(s, step), id, k, TextOf(steps + [step], id))
  {
    hide Follows, ApplyEvent, ApplyActivity, Begin;
    assert (steps + [step])[..|steps|] == steps;
    match step
    case TurnBegins(other, content) => BeginOther(s, other, content, id, k, TextOf(steps, id));
    case TurnEvent(event, turn) => EventFollows(s, event, turn, id, k, steps);
    case ActivityArrives(activity, summary) => ActivityFollows(s, activity, summary, id, k, TextOf(steps, id));
  }

  lemma {:induction false} FindAppended(ms: seq<Message>, a: Message, b: Message)
    requires (forall i :: 0 <= i < |ms| ==> ms[i].id != b.id) && a.id != b.id
    ensures FindMessage(ms + [a, b], b.id) == Some(|ms| + 1)
  {
    if ms == [] {
      assert ms + [a, b] == [a, b] && [a, b][1..] == [b];
    } else {
      assert (ms + [a, b])[1..] == ms[1..] + [a, b];
      FindAppended(ms[1..], a, b);
    }
  }

  lemma BeginFollows(s: State, id: string, content: string)
    requires forall i :: 0 <= i < |s.messages| ==> s.messages[i].id != id + "-assistant"
    ensures Follows(Begin(s, id, content), id, |s.messages| + 1, TextOf([], id))
  {
    hide Highest, Missing, FindMessage;
    var o, r := Normalize(s), Begin(s, id, content);
    FindAppended(o.messages, r.messages[|s.messages|], r.messages[|s.messages| + 1]);
  }

  /**
    An assistant's message is its own turn's events: over every run after a turn began, whatever other
    turns follow and whatever events come late or twice, its message holds the outputs of that turn up
    to its end or to the next turn's start, in order, or the filler when it ended without any; its
    status is the turn's, its tokens add up, and it gets its number with its first output, not before.
   */
  lemma {:induction false} TextIsItsTurnsOutputs(s: State, id: string, content: string, steps: seq<Step>)
    requires forall i :: 0 <= i < |s.messages| ==> s.messages[i].id != id + "-assistant"
    requires forall i :: 0 <= i < |steps| && steps[i].TurnBegins? ==> steps[i].id != id
    ensures var r, k := Run(Begin(s, id, content), steps), |s.messages| + 1;
            Follows(r, id, k, TextOf(steps, id)) && Shows(r.messages[k], TextOf(steps, id))
  {
    hide Begin, Next, FindMessage;
    if steps == [] {
      BeginFollows(s, id, content);
    } else {
      var front, step := steps[..|steps| - 1], steps[|steps| - 1];
      TextIsItsTurnsOutputs(s, id, content, front);
      StepFollows(Run(Begin(s, id, content), front), step, id, |s.messages| + 1, front);
      assert front + [step] == steps;
    }
  }
}
