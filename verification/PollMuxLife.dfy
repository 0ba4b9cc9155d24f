/** The whole life of a poll, shared and direct: continuing it ends within a real bound. */
module PollMuxLife {
  import opened Options
  import opened Deliveries
  import opened PollMux
  import opened PollMuxSafety
  import opened PollMuxTurns

  // ---- one step of any mode ---------------------------------------------------------------------

  /** What a step did before it filled any slot: nobody started, and old polls only left. */
  ghost predicate Settling(m: Mux, mid: Mux) {
    && Accounted(mid) && Slots(mid) && mid.starts == m.starts && mid.nextId >= m.nextId
    && forall x: Entry :: x.id < m.nextId && x in mid.pending ==> x in m.pending
  }

  /** The step ends there, or goes on to fill the free slots. */
  ghost predicate Leads(mid: Mux, m': Mux, now: int) {
    m' == mid || (mid.direct && m' == Drain(mid, now))
  }

  lemma EmptySlots(m: Mux)
    requires m.active == []
    ensures Slots(m)
  {
  }

  lemma SharedPoll(m: Mux, t: Tick) returns (mid: Mux)
    requires Inv(m) && !m.direct && t.step.PollStep?
    ensures Settling(m, mid) && Leads(mid, Next(m, t), t.now) && mid.active == m.active
  {
    hide Accounted, Slots;
    EnrolledKeeps(m, t.step.key, t.step.since, t.step.deadline);
    EnrolledOnlyAdds(m, t.step.key, t.step.since, t.step.deadline);
    mid := Schedule(Enrolled(m, t.step.key, t.step.since, t.step.deadline));
    SameAccounts(Enrolled(m, t.step.key, t.step.since, t.step.deadline), mid);
    EmptySlots(mid);
  }

  lemma SharedAbort(m: Mux, t: Tick) returns (mid: Mux)
    requires Inv(m) && !m.direct && t.step.AbortStep?
    ensures Settling(m, mid) && Leads(mid, Next(m, t), t.now) && mid.active == m.active
  {
    hide Accounted, Slots;
    mid := Next(m, t);
    if t.step.entry in m.pending {
      SettleKeeps(m, t.step.entry, Rejected(Aborted));
      SameAccounts(Settle(m, t.step.entry, Rejected(Aborted)), mid);
    }
    EmptySlots(mid);
  }

  lemma SharedTimer(m: Mux, t: Tick) returns (mid: Mux)
    requires Inv(m) && !m.direct && t.step.TimerStep?
    ensures Settling(m, mid) && Leads(mid, Next(m, t), t.now) && mid.active == m.active
  {
    hide Accounted, Slots, Drain, SameMembers;
    if m.timer && |m.pending| > CHANGE_MUX_MAX_POLLS && !(m.inflight.Some? && SameMembers(m.inflight.value.members, m.pending)) {
      mid := m.(timer := false, inflight := None, direct := true);
    } else {
      mid := Next(m, t);
    }
    SameAccounts(m, mid);
    EmptySlots(mid);
  }

  lemma {:induction false} FailAllOnlyRemoves(m: Mux, members: seq<Entry>)
    ensures forall x :: x in FailAll(m, members).pending ==> x in m.pending
  {
    if members != [] {
      FailAllOnlyRemoves(m, members[..|members| - 1]);
      WithoutMembers(FailAll(m, members[..|members| - 1]).pending, members[|members| - 1]);
    }
  }

  lemma SharedAnswer(m: Mux, t: Tick) returns (mid: Mux)
    requires Inv(m) && !m.direct && t.step.AnswerStep?
    ensures Settling(m, mid) && Leads(mid, Next(m, t), t.now) && mid.active == m.active
  {
    hide Accounted, Slots, Drain;
    mid := m;
    if m.inflight.Some? && m.inflight.value.id == t.step.id {
      var members, idle := m.inflight.value.members, m.(inflight := None);
      SameAccounts(m, idle);
      match t.step.answer
      case Unsupported =>
        mid := m.(timer := false, inflight := None, direct := true);
        SameAccounts(m, mid);
      case Unusable =>
        FailAllKeeps(idle, members);
        FailAllOnlyRemoves(idle, members);
        mid := Rescheduled(FailAll(idle, members));
        SameAccounts(FailAll(idle, members), mid);
      case Results(rs) =>
        if rs == [] {
          mid := m.(timer := false, inflight := None, direct := true);
          SameAccounts(m, mid);
        } else {
          SettleResultsKeeps(idle, members, rs);
          ResultsAreOwn(idle, members, rs);
          mid := Rescheduled(SettleResults(idle, members, rs));
          SameAccounts(SettleResults(idle, members, rs), mid);
        }
    }
    EmptySlots(mid);
  }

  /** A step of either mode, with what it does to a poll's count and budget before slots are filled. */
  lemma StepSettles(m: Mux, t: Tick) returns (mid: Mux)
    requires Inv(m)
    ensures Settling(m, mid) && Leads(mid, Next(m, t), t.now)
    ensures m.direct ==> mid == Mid(m, t)
    ensures !m.direct ==> mid.active == m.active
  {
    hide Accounted, Slots, SlotsUsed, Mid, Drain, Poll, Abort, TimerFires, AnswerArrives;
    if m.direct {
      NextFillsSlots(m, t);
      MidKeeps(m, t);
      mid := Mid(m, t);
    } else {
      match t.step
      case PollStep(_, _, _) => mid := SharedPoll(m, t);
      case AbortStep(_) => mid := SharedAbort(m, t);
      case TimerStep => mid := SharedTimer(m, t);
      case AnswerStep(_, _) => mid := SharedAnswer(m, t);
      case DoneStep(_, _) => mid := m;
    }
  }

  // ---- counting a poll's starts -------------------------------------------------------------------

  lemma CountPrefix(a: seq<Entry>, b: seq<Entry>, e: Entry)
    requires a <= b
    ensures Count(b, e) == Count(a, e) + Count(b[|a|..], e)
  {
    assert b == a + b[|a|..];
    CountAppend(a, b[|a|..], e);
  }

  lemma {:induction false} CountNone(es: seq<Entry>, e: Entry)
    requires e !in es
    ensures Count(es, e) == 0
  {
    if es != [] {
      CountNone(es[..|es| - 1], e);
    }
  }

  /** Filling slots keeps the account of a poll. */
  lemma LeadsWithin(mid: Mux, m': Mux, now: int, e: Entry, limit: nat)
    requires Accounted(mid) && Slots(mid) && Leads(mid, m', now) && Within(mid, e, Count(mid.starts, e), now, limit)
    ensures mid.starts <= m'.starts && Within(m', e, Count(m'.starts, e), now, limit)
  {
    hide Accounted, Slots, Within, Count, Drain;
    if m' != mid {
      var k := MidDrain(mid, now);
      DrainWithin(mid, m', k, now, e, Count(mid.starts, e), limit);
      CountPrefix(mid.starts, m'.starts, e);
    }
  }

  lemma StepLife(m: Mux, t: Tick, e: Entry, before: int, limit: nat)
    requires Inv(m) && before <= t.now && Within(m, e, Count(m.starts, e), before, limit)
    ensures Within(Next(m, t), e, Count(Next(m, t).starts, e), t.now, limit)
  {
    hide Accounted, Slots, SlotsUsed, Count, Leads, Next, Mid;
    var mid := StepSettles(m, t);
    if m.direct {
      MidWithin(m, t, e, Count(m.starts, e), before, limit);
    } else {
      WithinKnows(m, e, Count(m.starts, e), before, limit);
      SameSlotsWithin(m, mid, e, Count(m.starts, e), before, t.now, limit);
    }
    LeadsWithin(mid, Next(m, t), t.now, e, limit);
  }

  lemma WithinKnows(m: Mux, e: Entry, count: nat, now: int, limit: nat)
    requires Within(m, e, count, now, limit)
    ensures e.id < m.nextId && count <= limit
  {
  }

  ghost predicate ClockRuns(ticks: seq<Tick>) {
    forall i, j :: 0 <= i < j < |ticks| ==> ticks[i].now <= ticks[j].now
  }

  /** From a state where the account holds at the clock of the tick before, it holds for good. */
  lemma {:induction false} RunLife(m: Mux, ticks: seq<Tick>, e: Entry, from: int, limit: nat)
    requires Inv(m) && Within(m, e, Count(m.starts, e), from, limit)
    requires ClockRuns(ticks) && (ticks != [] ==> from <= ticks[0].now)
    ensures var now := if ticks == [] then from else ticks[|ticks| - 1].now;
            Within(Run(m, ticks), e, Count(Run(m, ticks).starts, e), now, limit)
  {
    hide Inv, Next, Within, Count;
    if ticks != [] {
      var front, t := ticks[..|ticks| - 1], ticks[|ticks| - 1];
      RunLife(m, front, e, from, limit);
      EveryRunKeepsTheInvariant(m, front);
      StepLife(Run(m, front), t, e, if front == [] then from else front[|front| - 1].now, limit);
    }
  }

  // ---- the first start ------------------------------------------------------------------------------

  /** Only polls that were made have been started. */
  ghost predicate StartsKnown(m: Mux) {
    forall x :: x in m.starts ==> x.id < m.nextId
  }

  lemma LeadsKnown(mid: Mux, m': Mux, now: int)
    requires Accounted(mid) && Slots(mid) && Leads(mid, m', now) && StartsKnown(mid)
    ensures StartsKnown(m')
  {
    hide Slots, Drain, Waiting;
    if m' != mid {
      var k := MidDrain(mid, now);
      WaitingMembers(mid.pending, mid.active);
      assert forall x :: x in m'.starts ==> x in mid.starts || x in Waiting(mid.pending, mid.active);
    }
  }

  lemma {:induction false} RunKnown(directOnly: bool, ticks: seq<Tick>)
    ensures Inv(Run(Fresh(directOnly), ticks)) && StartsKnown(Run(Fresh(directOnly), ticks))
  {
    hide Inv, Next, Leads, Accounted, Slots;
    FreshKeeps(directOnly);
    EveryRunKeepsTheInvariant(Fresh(directOnly), ticks);
    if ticks != [] {
      var front, t := ticks[..|ticks| - 1], ticks[|ticks| - 1];
      RunKnown(directOnly, front);
      var m := Run(Fresh(directOnly), front);
      var mid := StepSettles(m, t);
      LeadsKnown(mid, Next(m, t), t.now);
    }
  }

  function PolledAt(m: Mux, t: Tick): Entry
    requires t.step.PollStep?
  {
    Entry(m.nextId, t.step.key, t.step.since, t.step.deadline)
  }

  /** A poll just made has its whole time before it, whether or not it gets a slot at once. */
  lemma PollBegins(m: Mux, t: Tick)
    requires Inv(m) && StartsKnown(m) && t.step.PollStep?
    ensures var e, m' := PolledAt(m, t), Next(m, t);
            Within(m', e, Count(m'.starts, e), t.now, Budget(e.deadline - t.now))
  {
    hide Accounted, Slots, SlotsUsed, Count, Leads, Budget, Waiting, Next;
    var e := PolledAt(m, t);
    var mid := StepSettles(m, t);
    PollJoins(m, t, mid);
    CountNone(m.starts, e);
    LeadsWithin(mid, Next(m, t), t.now, e, Budget(e.deadline - t.now));
  }

  lemma PollJoins(m: Mux, t: Tick, mid: Mux)
    requires Inv(m) && t.step.PollStep? && Settling(m, mid) && Leads(mid, Next(m, t), t.now)
    requires (m.direct ==> mid == Mid(m, t)) && (!m.direct ==> mid.active == m.active)
    ensures var e := PolledAt(m, t); Within(mid, e, 0, t.now, Budget(e.deadline - t.now))
  {
    hide Accounted, SlotsUsed, Waiting, Budget, Drain, DistinctSlots;
    var e := PolledAt(m, t);
    if !m.direct {
      StaysShared(m, t, mid);
    }
    EnrolledOnlyAdds(m, t.step.key, t.step.since, t.step.deadline);
    assert forall i :: 0 <= i < |mid.active| ==> mid.active[i].entry.id < m.nextId;
  }

  lemma StaysShared(m: Mux, t: Tick, mid: Mux)
    requires Inv(m) && !m.direct && t.step.PollStep? && Leads(mid, Next(m, t), t.now)
    ensures mid == Next(m, t) && mid.nextId == m.nextId + 1
  {
    hide Accounted, Slots, Drain;
    DrainStaysDirect(mid, t.now);
  }

  // ---- every run ------------------------------------------------------------------------------------

  lemma {:induction false} RunSplit(m: Mux, ticks: seq<Tick>, k: nat)
    requires k <= |ticks|
    ensures Run(m, ticks) == Run(Run(m, ticks[..k]), ticks[k..])
    decreases |ticks|
  {
    hide Next;
    if k == |ticks| {
      assert ticks[..k] == ticks;
    } else {
      var front := ticks[..|ticks| - 1];
      RunSplit(m, front, k);
      assert front[..k] == ticks[..k] && ticks[k..][..|ticks[k..]| - 1] == front[k..];
    }
  }

  /**
    Continuation terminates, over the whole life of every poll: with a clock that never goes back, a
    poll made with r milliseconds to its deadline is started at most ceil(r / 500) + 8 times in all,
    whether it finds a free slot, waits for one or is made while polls are still shared, and however
    often its direct poll comes back empty.
   */
  lemma ContinuationEnds(directOnly: bool, ticks: seq<Tick>, k: nat)
    requires k < |ticks| && ticks[k].step.PollStep? && ClockRuns(ticks)
    ensures var e := PolledAt(Run(Fresh(directOnly), ticks[..k]), ticks[k]);
            Count(Run(Fresh(directOnly), ticks).starts, e) <= (Max(0, e.deadline - ticks[k].now) + 499) / 500 + 8
  {
    hide Run, Next, Inv, Within, Budget, Count;
    var start, t := Fresh(directOnly), ticks[k];
    var m := Run(start, ticks[..k]);
    var e, limit := PolledAt(m, t), Budget(t.step.deadline - t.now);
    RunKnown(directOnly, ticks[..k]);
    PollBegins(m, t);
    assert Run(start, ticks[..k + 1]) == Next(m, t) by { RunMore(start, ticks, k); }
    StepKeeps(m, t);
    RunLife(Next(m, t), ticks[k + 1..], e, t.now, limit);
    RunSplit(start, ticks, k + 1);
    var m' := Run(start, ticks);
    WithinKnows(m', e, Count(m'.starts, e), if k + 1 == |ticks| then t.now else ticks[|ticks| - 1].now, limit);
    BudgetBound(e.deadline - t.now);
  }

  lemma RunMore(m: Mux, ticks: seq<Tick>, k: nat)
    requires k < |ticks|
    ensures Run(m, ticks[..k + 1]) == Next(Run(m, ticks[..k]), ticks[k])
  {
    hide Next;
    assert ticks[..k + 1][..k] == ticks[..k];
  }
}
