/**
  Focus-loss autosave (`createFocusLossAutosave`): typing only records a draft, `flush` sends it, and
  until the server has confirmed the newest draft a recovery copy of exactly that draft stays held.
 */
module Autosave {
  import opened Options

  /** One call of `schedule`; `id` counts the calls and stands for the identity of its recovery object. */
  datatype Draft<V> = Draft(id: nat, value: V, destination: Option<string>, capturable: bool, predecessor: Option<Sending<V>>)

  /** What a new draft is told about the save under way. */
  datatype Sending<V> = Sending(destination: Option<string>, value: V)

  datatype Outcome = Accepted | Refused | Failed

  datatype Save<V> = Save(draft: Draft<V>, captured: Option<Draft<V>>, outcome: Option<Outcome>)

  /** A call of `flush`: it owns a save, waits for one it found running, or is over. */
  datatype Call = Owns(save: nat) | Awaits(save: nat) | Answered(saved: bool, about: Option<nat>) | Threw

  /** The closure variables, then the history of drafts, local copies, saves and flush calls. */
  datatype State<V> = State(
    timer: bool,
    queued: Option<Draft<V>>,
    active: Option<nat>,
    recovery: Option<Draft<V>>,
    inFlight: Option<nat>,
    drafts: seq<Draft<V>>,
    cancelled: nat,
    persisted: seq<Draft<V>>,
    saves: seq<Save<V>>,
    calls: seq<Call>)

  function Fresh<V>(): State<V> {
    State(false, None, None, None, None, [], 0, [], [], [])
  }

  /** `save` returns a promise, or throws at once. */
  datatype Reaction = Promised | ThrowsAtOnce

  datatype Step<V> =
    | Schedule(value: V, destination: Option<string>, capturable: bool)
    | Flush(reaction: Reaction)
    | SaveSettles(outcome: Outcome)
    | CallResumes(call: nat, reaction: Reaction)
    | TimerFires
    | Cancel

  function PersistNow<V>(a: State<V>): State<V> {
    a.(timer := false, persisted := if a.queued.Some? then a.persisted + [a.queued.value] else a.persisted)
  }

  function Scheduled<V>(a: State<V>, value: V, destination: Option<string>, capturable: bool): State<V> {
    var sending :=
      if a.inFlight.Some? && a.inFlight.value < |a.saves| then
        var d := a.saves[a.inFlight.value].draft; Some(Sending(d.destination, d.value))
      else None;
    var draft := Draft(|a.drafts|, value, destination, capturable, sending);
    a.(timer := true, queued := Some(draft), recovery := Some(draft), drafts := a.drafts + [draft])
  }

  /** One pass of `flush` up to its first `await`: the new state and where the call stands. */
  function Pass<V>(a: State<V>, reaction: Reaction): (State<V>, Call) {
    if a.active.Some? then (a, Awaits(a.active.value))
    else if a.queued.None? then (a, Answered(true, None))
    else
      var p, n := PersistNow(a), |a.saves|;
      var sent := p.(queued := None);
      match reaction
      case Promised =>
        (sent.(active := Some(n), inFlight := Some(n), saves := a.saves + [Save(a.queued.value, a.recovery, None)]), Owns(n))
      case ThrowsAtOnce =>
        (sent.(saves := a.saves + [Save(a.queued.value, a.recovery, Some(Failed))]), Threw)
  }

  function Verdict(outcome: Outcome, save: nat): Call {
    if outcome == Failed then Threw else Answered(outcome == Accepted, Some(save))
  }

  function Answer(calls: seq<Call>, save: nat, verdict: Call): (r: seq<Call>)
    ensures |r| == |calls|
    ensures forall i :: 0 <= i < |r| ==> r[i] == if calls[i] == Owns(save) then verdict else calls[i]
  {
    seq(|calls|, i requires 0 <= i < |calls| => if calls[i] == Owns(save) then verdict else calls[i])
  }

  function Settled<V(==)>(a: State<V>, outcome: Outcome): State<V> {
    if a.active.None? || a.active.value >= |a.saves| then a
    else
      var n := a.active.value;
      var save := a.saves[n];
      a.(active := None,
         inFlight := if a.inFlight == Some(n) then None else a.inFlight,
         recovery := if outcome == Accepted && a.recovery == save.captured then None else a.recovery,
         saves := a.saves[n := save.(outcome := Some(outcome))],
         calls := Answer(a.calls, n, Verdict(outcome, n)))
  }

  /** A call that waited goes on once the save it waited for has settled. */
  function Resumed<V>(a: State<V>, call: nat, reaction: Reaction): State<V> {
    if call >= |a.calls| || !a.calls[call].Awaits? then a
    else
      var n := a.calls[call].save;
      if n >= |a.saves| || a.saves[n].outcome.None? then a
      else if a.saves[n].outcome.value == Failed || a.queued.None? then
        a.(calls := a.calls[call := Verdict(a.saves[n].outcome.value, n)])
      else
        var (b, standing) := Pass(a, reaction);
        b.(calls := b.calls[call := standing])
  }

  function Cancelled<V>(a: State<V>): State<V> {
    a.(timer := false, queued := None, recovery := None, inFlight := None, cancelled := |a.drafts|)
  }

  function Next<V(==)>(a: State<V>, step: Step<V>): State<V> {
    match step
    case Schedule(value, destination, capturable) => Scheduled(a, value, destination, capturable)
    case Flush(reaction) => var (b, call) := Pass(a, reaction); b.(calls := b.calls + [call])
    case SaveSettles(outcome) => Settled(a, outcome)
    case CallResumes(call, reaction) => Resumed(a, call, reaction)
    case TimerFires => if a.timer then PersistNow(a) else a
    case Cancel => Cancelled(a)
  }

  function Run<V(==)>(a: State<V>, steps: seq<Step<V>>): State<V> {
    if steps == [] then a else Next(Run(a, steps[..|steps| - 1]), steps[|steps| - 1])
  }

  // ---- the closure as the source writes it ------------------------------------------------------

  class FocusLossAutosave<V(==)> {
    var timer: bool
    var queued: Option<Draft<V>>
    var active: Option<nat>
    var recovery: Option<Draft<V>>
    var inFlight: Option<nat>
    var drafts: seq<Draft<V>>
    var saves: seq<Save<V>>
    var calls: seq<Call>
    ghost var cancelled: nat
    ghost var persisted: seq<Draft<V>>

    ghost function View(): State<V>
      reads this
    {
      State(timer, queued, active, recovery, inFlight, drafts, cancelled, persisted, saves, calls)
    }

    constructor ()
      ensures View() == Fresh()
    {
      timer, queued, active, recovery, inFlight := false, None, None, None, None;
      drafts, saves, calls, cancelled, persisted := [], [], [], 0, [];
    }

    method OnSchedule(value: V, destination: Option<string>, capturable: bool)
      modifies this
      ensures View() == Scheduled(old(View()), value, destination, capturable)
    {
      var sending := None;
      if inFlight.Some? && inFlight.value < |saves| {
        var draft := saves[inFlight.value].draft;
        sending := Some(Sending(draft.destination, draft.value));
      }
      var draft := Draft(|drafts|, value, destination, capturable, sending);
      recovery := Some(draft);
      queued := Some(draft);
      timer := true;
      drafts := drafts + [draft];
    }

    method Persist()
      modifies this
      ensures View() == PersistNow(old(View()))
    {
      timer := false;
      if queued.Some? {
        persisted := persisted + [queued.value];
      }
    }

    method FlushPass(reaction: Reaction) returns (call: Call)
      modifies this
      ensures (View(), call) == Pass(old(View()), reaction)
    {
      if active.Some? {
        return Awaits(active.value);
      }
      if queued.None? {
        return Answered(true, None);
      }
      Persist();
      var draft, captured := queued.value, recovery;
      queued := None;
      if reaction == ThrowsAtOnce {
        saves := saves + [Save(draft, captured, Some(Failed))];
        return Threw;
      }
      saves := saves + [Save(draft, captured, None)];
      active := Some(|saves| - 1);
      inFlight := Some(|saves| - 1);
      call := Owns(|saves| - 1);
    }

    method OnSettled(outcome: Outcome)
      modifies this
      ensures View() == Settled(old(View()), outcome)
    {
      if active.Some? && active.value < |saves| {
        var n := active.value;
        var save := saves[n];
        if outcome == Accepted && recovery == save.captured {
          recovery := None;
        }
        active := None;
        if inFlight == Some(n) {
          inFlight := None;
        }
        saves := saves[n := save.(outcome := Some(outcome))];
        calls := Answer(calls, n, Verdict(outcome, n));
      }
    }

    /** A new call of `flush`. */
    method OnFlush(reaction: Reaction)
      modifies this
      ensures View() == Next(old(View()), Flush(reaction))
    {
      var call := FlushPass(reaction);
      calls := calls + [call];
    }

    /** A call of `flush` goes on after the save it waited for. */
    method OnResume(call: nat, reaction: Reaction)
      modifies this
      ensures View() == Resumed(old(View()), call, reaction)
    {
      if call < |calls| && calls[call].Awaits? && calls[call].save < |saves| && saves[calls[call].save].outcome.Some? {
        var n := calls[call].save;
        var outcome := saves[n].outcome.value;
        if outcome == Failed || queued.None? {
          calls := calls[call := Verdict(outcome, n)];
        } else {
          var standing := FlushPass(reaction);
          calls := calls[call := standing];
        }
      }
    }

    method OnCancel()
      modifies this
      ensures View() == Cancelled(old(View()))
    {
      timer, queued, recovery, inFlight := false, None, None, None;
      cancelled := |drafts|;
    }

    /** What `captureRecovery` captures: a draft, nothing, or (an error) a draft that cannot be captured. */
    method CaptureRecovery() returns (captured: Option<Draft<V>>, error: bool)
      ensures captured == (if recovery.Some? && recovery.value.capturable then recovery else None)
      ensures error <==> recovery.Some? && !recovery.value.capturable
    {
      if recovery.None? {
        return None, false;
      }
      if !recovery.value.capturable {
        return None, true;
      }
      return recovery, false;
    }
  }

  // ---- what every run keeps -----------------------------------------------------------------------

  /** The newest draft since the last cancel. */
  function Newest<V>(a: State<V>): Option<Draft<V>> {
    if |a.drafts| > a.cancelled then Some(a.drafts[|a.drafts| - 1]) else None
  }

  /** The server confirmed a save of this draft. */
  predicate Confirmed<V(==)>(a: State<V>, draft: Draft<V>) {
    exists k :: 0 <= k < |a.saves| && a.saves[k].draft == draft && a.saves[k].outcome == Some(Accepted)
  }

  /** Drafts are numbered; saves are of drafts, in order, each at most once. */
  ghost predicate Ordered<V(!new)>(a: State<V>) {
    && (forall i :: 0 <= i < |a.drafts| ==> a.drafts[i].id == i)
    && (forall k :: 0 <= k < |a.saves| ==>
          var d := a.saves[k].draft; d.id < |a.drafts| && a.drafts[d.id] == d && a.saves[k].captured == Some(d))
    && (forall j, k :: 0 <= j < k < |a.saves| ==> a.saves[j].draft.id < a.saves[k].draft.id)
    && a.cancelled <= |a.drafts|
    && (a.queued.Some? ==>
          && a.queued == Newest(a)
          && forall k :: 0 <= k < |a.saves| ==> a.saves[k].draft.id < a.queued.value.id)
  }

  /** Only the newest save can be running, and `active` says whether it is. */
  ghost predicate OneRunning<V(!new)>(a: State<V>) {
    && (a.active.Some? ==> |a.saves| > 0 && a.active.value == |a.saves| - 1)
    && (forall k :: 0 <= k < |a.saves| ==> (a.saves[k].outcome.None? <==> a.active == Some(k)))
  }

  /** The recovery copy is exactly the newest draft, for as long as the server has not confirmed it. */
  ghost predicate Recoverable<V(!new)>(a: State<V>) {
    && a.recovery == (if Newest(a).Some? && !Confirmed(a, Newest(a).value) then Newest(a) else None)
    && (Newest(a).Some? && a.queued.None? ==> |a.saves| > 0 && Some(a.saves[|a.saves| - 1].draft) == Newest(a))
  }

  /** A new draft hears of the running save exactly when no cancel came after that save's draft. */
  ghost predicate Authority<V(!new)>(a: State<V>) {
    a.inFlight == if a.active.Some? && a.active.value < |a.saves| && a.saves[a.active.value].draft.id >= a.cancelled then a.active else None
  }

  /** A queued draft has its local copy or a timer for it; a draft is copied before it is sent. */
  ghost predicate CopiedLocally<V(!new)>(a: State<V>) {
    && (a.queued.Some? ==> a.timer || (|a.persisted| > 0 && Some(a.persisted[|a.persisted| - 1]) == a.queued))
    && (a.timer ==> a.queued.Some?)
    && (forall k :: 0 <= k < |a.saves| ==> a.saves[k].draft in a.persisted)
  }

  /** Where a flush call stands fits the save it is about. */
  ghost predicate Stands<V(!new)>(a: State<V>, call: Call) {
    match call
    case Owns(k) => a.active == Some(k)
    case Awaits(k) => k < |a.saves|
    case Answered(saved, about) =>
      if about.Some? then
        about.value < |a.saves| && a.saves[about.value].outcome == Some(if saved then Accepted else Refused)
      else saved
    case Threw => true
  }

  ghost predicate Inv<V(!new)>(a: State<V>) {
    Ordered(a) && OneRunning(a) && Recoverable(a) && Authority(a) && CopiedLocally(a)
    && AllStand(a)
  }

  ghost predicate AllStand<V(!new)>(a: State<V>) {
    forall c :: 0 <= c < |a.calls| ==> Stands(a, a.calls[c])
  }

  /** Calls stand as they stood while their saves do not change. */
  lemma SameStanding<V(!new)>(a: State<V>, b: State<V>)
    requires AllStand(a) && b.calls == a.calls && a.saves <= b.saves && (a.active.Some? ==> b.active == a.active)
    ensures AllStand(b)
  {
    forall c | 0 <= c < |b.calls| ensures Stands(b, b.calls[c]) {
      assert Stands(a, a.calls[c]);
    }
  }

  lemma SameConfirmed<V(!new)>(a: State<V>, b: State<V>, draft: Draft<V>)
    requires a.saves <= b.saves && forall k :: |a.saves| <= k < |b.saves| ==> b.saves[k].outcome != Some(Accepted)
    ensures Confirmed(b, draft) <==> Confirmed(a, draft)
  {
  }

  lemma ScheduleKeeps<V(!new)>(a: State<V>, value: V, destination: Option<string>, capturable: bool)
    requires Inv(a)
    ensures Inv(Scheduled(a, value, destination, capturable))
  {
    hide Stands;
    var b := Scheduled(a, value, destination, capturable);
    SameStanding(a, b);
  }

  lemma PassOrders<V(!new)>(a: State<V>, reaction: Reaction)
    requires Ordered(a) && OneRunning(a) && CopiedLocally(a) && Recoverable(a)
    ensures var b := Pass(a, reaction).0; Ordered(b) && OneRunning(b) && CopiedLocally(b)
  {
    hide Confirmed;
    if a.active.None? && a.queued.Some? {
      assert a.recovery == a.queued by { NotSentYet(a, a.queued.value); }
      hide Recoverable;
      PassSends(a, reaction);
    }
  }

  /** Sending the queued draft. */
  lemma PassSends<V(!new)>(a: State<V>, reaction: Reaction)
    requires Ordered(a) && OneRunning(a) && CopiedLocally(a) && a.active.None? && a.queued.Some? && a.recovery == a.queued
    ensures var b := Pass(a, reaction).0; Ordered(b) && OneRunning(b) && CopiedLocally(b)
  {
    var b := Pass(a, reaction).0;
    assert Newest(b) == Newest(a);
    assert OneRunning(b);
  }

  lemma NotSentYet<V(!new)>(a: State<V>, draft: Draft<V>)
    requires Ordered(a) && a.queued == Some(draft)
    ensures !Confirmed(a, draft)
  {
  }

  lemma PassKeeps<V(!new)>(a: State<V>, reaction: Reaction)
    requires Inv(a)
    ensures var (b, call) := Pass(a, reaction);
            Inv(b) && Stands(b, call) && b.calls == a.calls
  {
    hide Confirmed, Ordered, OneRunning, CopiedLocally, AllStand;
    var (b, call) := Pass(a, reaction);
    PassOrders(a, reaction);
    PassStands(a, reaction);
    if a.active.None? && a.queued.Some? {
      SameStanding(a, b);
      SameConfirmed(a, b, a.queued.value);
      QueuedIsNewest(a);
    }
  }

  lemma PassStands<V(!new)>(a: State<V>, reaction: Reaction)
    requires OneRunning(a)
    ensures var (b, call) := Pass(a, reaction); Stands(b, call)
  {
  }

  lemma QueuedIsNewest<V(!new)>(a: State<V>)
    requires Ordered(a) && a.queued.Some?
    ensures a.queued == Newest(a) && a.queued.value.id >= a.cancelled
  {
  }

  lemma SettleOrders<V(!new)>(a: State<V>, outcome: Outcome)
    requires Ordered(a) && OneRunning(a) && CopiedLocally(a) && a.active.Some?
    ensures var b := Settled(a, outcome); Ordered(b) && OneRunning(b) && CopiedLocally(b)
  {
    hide Answer;
    var b := Settled(a, outcome);
    assert forall k :: 0 <= k < |b.saves| ==> b.saves[k].draft == a.saves[k].draft && b.saves[k].captured == a.saves[k].captured;
  }

  lemma SettleRecovers<V(!new)>(a: State<V>, outcome: Outcome)
    requires Ordered(a) && OneRunning(a) && Recoverable(a) && a.active.Some?
    ensures Recoverable(Settled(a, outcome))
  {
    var b, n := Settled(a, outcome), a.active.value;
    forall d ensures Confirmed(b, d) <==> Confirmed(a, d) || (outcome == Accepted && a.saves[n].draft == d) {
      SettleConfirms(a, outcome, d);
    }
  }

  lemma SettleConfirms<V(!new)>(a: State<V>, outcome: Outcome, d: Draft<V>)
    requires OneRunning(a) && a.active.Some?
    ensures Confirmed(Settled(a, outcome), d) <==>
            Confirmed(a, d) || (outcome == Accepted && a.saves[a.active.value].draft == d)
  {
    var b, n := Settled(a, outcome), a.active.value;
    assert b.saves[n].draft == a.saves[n].draft && b.saves[n].outcome == Some(outcome);
    if Confirmed(a, d) {
      var k :| 0 <= k < |a.saves| && a.saves[k].draft == d && a.saves[k].outcome == Some(Accepted);
      assert k != n && b.saves[k] == a.saves[k];
    }
  }

  lemma SettleStands<V(!new)>(a: State<V>, outcome: Outcome)
    requires AllStand(a) && OneRunning(a) && a.active.Some?
    ensures AllStand(Settled(a, outcome))
  {
    var b, n := Settled(a, outcome), a.active.value;
    forall c | 0 <= c < |b.calls| ensures Stands(b, b.calls[c]) {
      assert Stands(a, a.calls[c]);
    }
  }

  lemma SettleKeeps<V(!new)>(a: State<V>, outcome: Outcome)
    requires Inv(a)
    ensures Inv(Settled(a, outcome))
  {
    if a.active.Some? {
      hide Ordered, Recoverable, CopiedLocally, AllStand;
      SettleOrders(a, outcome);
      SettleRecovers(a, outcome);
      SettleStands(a, outcome);
    }
  }

  lemma ResumeKeeps<V(!new)>(a: State<V>, call: nat, reaction: Reaction)
    requires Inv(a)
    ensures Inv(Resumed(a, call, reaction))
  {
    var b := Resumed(a, call, reaction);
    if b != a {
      hide Ordered, OneRunning, Recoverable, CopiedLocally, Pass;
      PassKeeps(a, reaction);
      var n := a.calls[call].save;
      if a.saves[n].outcome.value == Failed || a.queued.None? {
        ReplaceCall(a, call, Verdict(a.saves[n].outcome.value, n));
      } else {
        ReplaceCall(Pass(a, reaction).0, call, Pass(a, reaction).1);
      }
    }
  }

  lemma ReplaceCall<V(!new)>(a: State<V>, call: nat, standing: Call)
    requires Inv(a) && call < |a.calls| && Stands(a, standing)
    ensures Inv(a.(calls := a.calls[call := standing]))
  {
    var b := a.(calls := a.calls[call := standing]);
    assert Ordered(b) && OneRunning(b) && CopiedLocally(b);
    SameStands(a, b);
  }

  lemma SameStands<V(!new)>(a: State<V>, b: State<V>)
    requires b == a.(calls := b.calls)
    ensures forall call :: Stands(a, call) <==> Stands(b, call)
  {
  }

  lemma AddCall<V(!new)>(a: State<V>, standing: Call)
    requires Inv(a) && Stands(a, standing)
    ensures Inv(a.(calls := a.calls + [standing]))
  {
    var b := a.(calls := a.calls + [standing]);
    assert Ordered(b) && OneRunning(b) && CopiedLocally(b);
    SameStands(a, b);
  }

  lemma StepKeeps<V(!new)>(a: State<V>, step: Step<V>)
    requires Inv(a)
    ensures Inv(Next(a, step))
  {
    match step
    case Schedule(value, destination, capturable) => ScheduleKeeps(a, value, destination, capturable);
    case Flush(reaction) =>
      hide Inv, Pass, Stands;
      PassKeeps(a, reaction);
      AddCall(Pass(a, reaction).0, Pass(a, reaction).1);
    case SaveSettles(outcome) => SettleKeeps(a, outcome);
    case CallResumes(call, reaction) => ResumeKeeps(a, call, reaction);
    case TimerFires => TimerKeeps(a);
    case Cancel => CancelKeeps(a);
  }

  lemma TimerKeeps<V(!new)>(a: State<V>)
    requires Inv(a)
    ensures Inv(PersistNow(a))
  {
    hide Stands;
    SameStanding(a, PersistNow(a));
  }

  lemma CancelKeeps<V(!new)>(a: State<V>)
    requires Inv(a)
    ensures Inv(Cancelled(a))
  {
    hide Stands;
    SameStanding(a, Cancelled(a));
  }

  // ---- every run --------------------------------------------------------------------------------------

  lemma {:induction false} EveryRunKeepsTheInvariant<V(!new)>(steps: seq<Step<V>>)
    ensures Inv(Run(Fresh(), steps))
  {
    hide Next;
    if steps != [] {
      hide Inv;
      EveryRunKeepsTheInvariant(steps[..|steps| - 1]);
      StepKeeps(Run(Fresh(), steps[..|steps| - 1]), steps[|steps| - 1]);
    }
  }

  /** The value last scheduled and not cancelled since, read off the steps alone. */
  function LatestValue<V>(steps: seq<Step<V>>): Option<V> {
    if steps == [] then None
    else
      match steps[|steps| - 1]
      case Schedule(value, _, _) => Some(value)
      case Cancel => None
      case _ => LatestValue(steps[..|steps| - 1])
  }

  /** The values scheduled so far, in order. */
  function Values<V>(steps: seq<Step<V>>): seq<V> {
    if steps == [] then []
    else
      var before := Values(steps[..|steps| - 1]);
      match steps[|steps| - 1]
      case Schedule(value, _, _) => before + [value]
      case _ => before
  }

  function DraftValues<V>(drafts: seq<Draft<V>>): (r: seq<V>)
    ensures |r| == |drafts| && forall i :: 0 <= i < |r| ==> r[i] == drafts[i].value
  {
    seq(|drafts|, i requires 0 <= i < |drafts| => drafts[i].value)
  }

  lemma OnlySchedulingDrafts<V(!new)>(a: State<V>, step: Step<V>)
    ensures var b := Next(a, step);
            && b.cancelled == (if step.Cancel? then |a.drafts| else a.cancelled)
            && (if step.Schedule? then |b.drafts| == |a.drafts| + 1 && b.drafts[..|a.drafts|] == a.drafts && b.drafts[|a.drafts|].value == step.value
                else b.drafts == a.drafts)
  {
  }

  lemma MoreDraftValues<V(!new)>(a: seq<Draft<V>>, b: seq<Draft<V>>)
    requires |b| == |a| + 1 && b[..|a|] == a
    ensures DraftValues(b) == DraftValues(a) + [b[|a|].value]
  {
    assert forall i :: 0 <= i < |a| ==> b[i] == a[i];
  }

  lemma {:induction false} DraftsAreWhatWasScheduled<V(!new)>(steps: seq<Step<V>>)
    ensures var a := Run(Fresh(), steps);
            && DraftValues(a.drafts) == Values(steps) && a.cancelled <= |a.drafts|
            && (LatestValue(steps).Some? <==> Newest(a).Some?)
            && (Newest(a).Some? ==> LatestValue(steps).value == Newest(a).value.value)
  {
    hide Next;
    if steps != [] {
      hide DraftValues;
      var before, step := Run(Fresh(), steps[..|steps| - 1]), steps[|steps| - 1];
      DraftsAreWhatWasScheduled(steps[..|steps| - 1]);
      OnlySchedulingDrafts(before, step);
      if step.Schedule? {
        MoreDraftValues(before.drafts, Next(before, step).drafts);
      }
    }
  }

  /**
    Recovery: after any run, what `captureRecovery` holds is the value scheduled last and not
    cancelled since, exactly as long as the server has not confirmed a save of it.
   */
  lemma RecoveryHoldsTheLatestValue<V(!new)>(steps: seq<Step<V>>)
    ensures var a := Run(Fresh(), steps);
            && (a.recovery.Some? ==> LatestValue(steps) == Some(a.recovery.value.value) && !Confirmed(a, a.recovery.value))
            && (a.recovery.None? && LatestValue(steps).Some? ==>
                  Newest(a).Some? && Newest(a).value.value == LatestValue(steps).value && Confirmed(a, Newest(a).value))
  {
    EveryRunKeepsTheInvariant(steps);
    DraftsAreWhatWasScheduled(steps);
  }

  /**
    What a call of `schedule` records: the draft as given, queued and held, and told of the save under
    way exactly when one runs whose draft was not cancelled.
   */
  lemma NewDraftHearsOfTheRunningSave<V(!new)>(steps: seq<Step<V>>, value: V, destination: Option<string>, capturable: bool)
    ensures var a := Run(Fresh(), steps);
            var b, draft := Next(a, Schedule(value, destination, capturable)), Draft(|Values(steps)|, value, destination, capturable, UnderWay(a));
            b.drafts == a.drafts + [draft] && b.queued == Some(draft) && b.recovery == Some(draft) && b.timer && b.saves == a.saves && b.calls == a.calls
  {
    hide Run, Values, Recoverable, Ordered, CopiedLocally, AllStand;
    EveryRunKeepsTheInvariant(steps);
    DraftsAreWhatWasScheduled(steps);
  }

  /** The save still running, unless a cancel came after its draft. */
  function UnderWay<V>(a: State<V>): Option<Sending<V>> {
    var n := |a.saves|;
    if n > 0 && a.saves[n - 1].outcome.None? && a.saves[n - 1].draft.id >= a.cancelled
    then Some(Sending(a.saves[n - 1].draft.destination, a.saves[n - 1].draft.value))
    else None
  }

  /** At most one save runs at a time, and the values sent are a subsequence of the values scheduled. */
  lemma SavesFollowTheSchedule<V(!new)>(steps: seq<Step<V>>)
    returns (place: seq<nat>)
    ensures var a := Run(Fresh(), steps);
            && (forall j, k :: 0 <= j < |a.saves| && 0 <= k < |a.saves| && a.saves[j].outcome.None? && a.saves[k].outcome.None? ==> j == k)
            && |place| == |a.saves|
            && (forall j, k :: 0 <= j < k < |place| ==> place[j] < place[k])
            && (forall k :: 0 <= k < |place| ==> place[k] < |Values(steps)| && a.saves[k].draft.value == Values(steps)[place[k]])
  {
    EveryRunKeepsTheInvariant(steps);
    DraftsAreWhatWasScheduled(steps);
    var a := Run(Fresh(), steps);
    place := seq(|a.saves|, k requires 0 <= k < |a.saves| => a.saves[k].draft.id);
  }

  /** The latest value is never lost: it is queued, being sent, confirmed, or its save failed and recovery holds it. */
  lemma LatestValueIsSomewhere<V(!new)>(steps: seq<Step<V>>)
    requires LatestValue(steps).Some?
    ensures var a := Run(Fresh(), steps);
            && Newest(a).Some?
            && var d := Newest(a).value;
               || a.queued == Some(d)
               || (a.active.Some? && a.active.value < |a.saves| && a.saves[a.active.value].draft == d)
               || Confirmed(a, d)
               || a.recovery == Some(d)
  {
    EveryRunKeepsTheInvariant(steps);
    DraftsAreWhatWasScheduled(steps);
  }

  /** A flush that answers about a save reports that save's own outcome. */
  lemma AnswersReportTheirSave<V(!new)>(steps: seq<Step<V>>, call: nat)
    ensures var a := Run(Fresh(), steps);
            call < |a.calls| && a.calls[call].Answered? && a.calls[call].about.Some? ==>
              var k := a.calls[call].about.value;
              k < |a.saves| && a.saves[k].outcome == Some(if a.calls[call].saved then Accepted else Refused)
  {
    EveryRunKeepsTheInvariant(steps);
    var a := Run(Fresh(), steps);
    assert call < |a.calls| ==> Stands(a, a.calls[call]);
  }

  /** The last save sent came back accepted. */
  predicate LastSaveAccepted<V>(a: State<V>) {
    |a.saves| > 0 && a.saves[|a.saves| - 1].outcome == Some(Accepted)
  }

  /** The newest draft is on the server exactly when nothing is queued and the last save sent was accepted. */
  lemma NewestIsSavedExactly<V(!new)>(a: State<V>)
    requires Inv(a) && Newest(a).Some?
    ensures Confirmed(a, Newest(a).value) <==> a.queued.None? && LastSaveAccepted(a)
  {
    hide AllStand, CopiedLocally;
    var d := Newest(a).value;
    if a.queued.Some? {
      NotSentYet(a, d);
    } else {
      var n := |a.saves| - 1;
      assert a.saves[n].draft == d;
      if Confirmed(a, d) {
        var k :| 0 <= k < |a.saves| && a.saves[k].draft == d && a.saves[k].outcome == Some(Accepted);
        assert k == n;
      }
    }
  }

  /** A flush call that now owns the save of the newest draft. */
  ghost predicate OwnsNewest<V(!new)>(a: State<V>, b: State<V>, call: nat) {
    && call < |b.calls| && b.calls[call] == Owns(|a.saves|)
    && |b.saves| == |a.saves| + 1 && Some(b.saves[|a.saves|].draft) == Newest(a)
  }

  /** The newest draft, if there is one, is on the server. */
  predicate NewestSaved<V(==)>(a: State<V>) {
    Newest(a).Some? ==> Confirmed(a, Newest(a).value)
  }

  /**
    What a flush called while no save runs can promise: with a draft queued it owns the save of the
    newest one; with none queued it answers true at once, and then the newest draft is on the server
    exactly when the last save sent was accepted.
   */
  lemma FlushWithNothingRunning<V(!new)>(steps: seq<Step<V>>)
    requires Run(Fresh(), steps).active.None?
    ensures var a := Run(Fresh(), steps);
            var b := Next(a, Flush(Promised));
            && (a.queued.Some? ==> OwnsNewest(a, b, |a.calls|))
            && (a.queued.None? ==>
                  && b.calls == a.calls + [Answered(true, None)]
                  && (NewestSaved(b) <==> Newest(a).None? || LastSaveAccepted(a)))
  {
    hide Run, Confirmed;
    EveryRunKeepsTheInvariant(steps);
    var a := Run(Fresh(), steps);
    var b := Next(a, Flush(Promised));
    if a.queued.None? && Newest(a).Some? {
      NewestIsSavedExactly(a);
      SameConfirmed(a, b, Newest(a).value);
    }
  }

  /**
    What a flush that waited for a save answers once that save has settled. With nothing queued it
    answers that save's own result, and a true answer means that the newest draft is on the server
    exactly when the last save sent was accepted, as it is when the save waited for is the last one.
    With a draft queued it owns the newest draft's save, or waits again for a save that runs.
   */
  lemma FlushThatWaited<V(!new)>(steps: seq<Step<V>>, call: nat, n: nat)
    requires var a := Run(Fresh(), steps);
             call < |a.calls| && a.calls[call] == Awaits(n) && n < |a.saves| && a.saves[n].outcome.Some?
    ensures var a := Run(Fresh(), steps);
            var b := Next(a, CallResumes(call, Promised));
            && (a.saves[n].outcome == Some(Failed) ==> b.calls == a.calls[call := Threw])
            && (a.saves[n].outcome != Some(Failed) && a.queued.None? ==>
                  b.calls == a.calls[call := Answered(a.saves[n].outcome == Some(Accepted), Some(n))])
            && (a.saves[n].outcome == Some(Accepted) && a.queued.None? ==>
                  && (NewestSaved(b) <==> Newest(a).None? || LastSaveAccepted(a))
                  && (n == |a.saves| - 1 ==> NewestSaved(b)))
            && (a.saves[n].outcome != Some(Failed) && a.queued.Some? ==>
                  if a.active.None? then OwnsNewest(a, b, call) else b.calls == a.calls[call := Awaits(a.active.value)])
  {
    hide Run, Confirmed;
    EveryRunKeepsTheInvariant(steps);
    var a := Run(Fresh(), steps);
    var b := Next(a, CallResumes(call, Promised));
    if a.queued.None? && Newest(a).Some? {
      NewestIsSavedExactly(a);
      SameConfirmed(a, b, Newest(a).value);
    }
  }

  lemma {:induction false} RunsCompose<V(!new)>(a: State<V>, s: seq<Step<V>>, t: seq<Step<V>>)
    ensures Run(a, s + t) == Run(Run(a, s), t)
  {
    if t == [] {
      assert s + t == s;
    } else {
      RunsCompose(a, s, t[..|t| - 1]);
      assert (s + t)[..|s + t| - 1] == s + t[..|t| - 1];
    }
  }

  lemma RunThree<V(!new)>(a: State<V>, x: Step<V>, y: Step<V>, z: Step<V>)
    ensures Run(a, [x, y, z]) == Next(Next(Next(a, x), y), z)
  {
    hide Next;
    assert [x][..0] == [] && [x, y][..1] == [x] && [x, y, z][..2] == [x, y];
    assert Run(a, [x]) == Next(a, x);
    assert Run(a, [x, y]) == Next(Next(a, x), y);
  }

  /** One save is running, a newer draft waits, and two flush calls wait for the save. */
  function TwoWaiters<V>(x: V, y: V): State<V> {
    var dx, dy := Draft(0, x, None, true, None), Draft(1, y, None, true, Some(Sending(None, x)));
    State(true, Some(dy), Some(0), Some(dy), Some(0), [dx, dy], 0, [dx], [Save(dx, Some(dx), None)], [Owns(0), Awaits(0), Awaits(0)])
  }

  lemma TwoWaitersReached<V(!new)>(x: V, y: V)
    ensures Run(Fresh(), [Schedule(x, None, true), Flush(Promised), Schedule(y, None, true)] + [Flush(Promised), Flush(Promised), TimerFires])
            == PersistNow(TwoWaiters(x, y))
  {
    var s := [Schedule(x, None, true), Flush(Promised), Schedule(y, None, true)];
    var t: seq<Step<V>> := [Flush(Promised), Flush(Promised), TimerFires];
    RunsCompose(Fresh(), s, t);
    RunThree(Fresh(), s[0], s[1], s[2]);
    RunThree(Run(Fresh(), s), t[0], t[1], t[2]);
  }

  /** From there, the second waiter answers true with the old save's result while the newer draft is on its way. */
  lemma SecondWaiterHearsTheOldSave<V(!new)>(x: V, y: V)
    ensures var a := Run(PersistNow(TwoWaiters(x, y)), [SaveSettles(Accepted), CallResumes(1, Promised), CallResumes(2, Promised)]);
            && a.calls == [Answered(true, Some(0)), Owns(1), Answered(true, Some(0))]
            && a.recovery.Some? && a.recovery.value.value == y && a.active == Some(1)
  {
    var start := PersistNow(TwoWaiters(x, y));
    RunThree(start, SaveSettles(Accepted), CallResumes(1, Promised), CallResumes(2, Promised));
    var settled := Next(start, SaveSettles(Accepted));
    assert settled.calls == [Answered(true, Some(0)), Awaits(0), Awaits(0)];
  }

  /** A flush right after a refused save answers true although the draft is unsaved; recovery still holds it. */
  lemma FlushAfterRefusalAnswersTrue<V(!new)>(x: V)
    ensures var a := Run(Fresh(), [Schedule(x, None, true), Flush(Promised), SaveSettles(Refused)] + [Flush(Promised)]);
            a.calls == [Answered(false, Some(0)), Answered(true, None)] && a.recovery.Some? && a.recovery.value.value == x
  {
    var s: seq<Step<V>> := [Schedule(x, None, true), Flush(Promised), SaveSettles(Refused)];
    RunsCompose(Fresh(), s, [Flush(Promised)]);
    RunThree(Fresh(), s[0], s[1], s[2]);
    var more: seq<Step<V>> := [Flush(Promised)];
    assert more[..0] == [];
    assert Run(Fresh(), s).calls == [Answered(false, Some(0))];
  }
}
