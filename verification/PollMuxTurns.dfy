/**
  The direct-mode scheduler of the poll multiplexer: a waiting poll is passed over at most as
  often as there were polls ahead of it, and what a poll's remaining time lets it be started.
 */
module PollMuxTurns {
  import opened Options
  import opened Deliveries
  import opened PollMux
  import opened PollMuxSafety

  // ---- places in the waiting list -----------------------------------------------------------

  /** How many entries stand before `e`. */
  function Ahead(es: seq<Entry>, e: Entry): nat {
    if es == [] || es[0] == e then 0 else 1 + Ahead(es[1..], e)
  }

  lemma {:induction false} AheadWithout(es: seq<Entry>, e: Entry, gone: Entry)
    requires e in es && e != gone
    ensures Ahead(Without(es, gone), e) <= Ahead(es, e)
  {
    if es[0] != e {
      assert es == [es[0]] + es[1..];
      AheadWithout(es[1..], e, gone);
      if es[0] != gone {
        assert Without(es, gone)[1..] == Without(es[1..], gone);
      }
    }
  }

  lemma {:induction false} AheadAppend(es: seq<Entry>, more: seq<Entry>, e: Entry)
    requires e in es
    ensures Ahead(es + more, e) == Ahead(es, e) < |es|
  {
    if es[0] != e {
      assert es == [es[0]] + es[1..];
      assert (es + more)[1..] == es[1..] + more;
      AheadAppend(es[1..], more, e);
    }
  }

  lemma {:induction false} AheadDrop(es: seq<Entry>, k: nat, e: Entry)
    requires e in es && k <= |es|
    ensures if Ahead(es, e) < k then e in es[..k] else e in es[k..] && Ahead(es[k..], e) == Ahead(es, e) - k
  {
    if k == 0 {
      assert es[0..] == es;
    } else if es[0] != e {
      assert es == [es[0]] + es[1..];
      AheadDrop(es[1..], k - 1, e);
      assert es[k..] == es[1..][k - 1..] && es[..k] == [es[0]] + es[1..][..k - 1];
    } else {
      assert es[..k][0] == e;
    }
  }

  // ---- one step: a change of the list, then the slots are filled -----------------------------

  /** The state a direct-mode step reaches before it fills the free slots. */
  function Mid(m: Mux, t: Tick): Mux {
    match t.step
    case PollStep(key, since, deadline) => Enrolled(m, key, since, deadline)
    case AbortStep(e) => if e in m.pending then Settle(m, e, Rejected(Aborted)) else m
    case TimerStep => m.(timer := false)
    case AnswerStep(_, _) => m
    case DoneStep(slot, reply) => if slot < |m.active| then AfterDone(m, slot, reply, t.now) else m
  }

  lemma NextFillsSlots(m: Mux, t: Tick)
    requires Inv(m) && m.direct
    ensures Next(m, t) == Drain(Mid(m, t), t.now)
  {
    hide Accounted, Slots, Waiting;
  }

  /** Slots survive while pending polls only leave. */
  lemma SlotsKept(m: Mux, m': Mux)
    requires Slots(m) && m'.active == m.active && m'.nextId == m.nextId
    requires forall x :: x in m'.pending ==> x in m.pending
    ensures Slots(m')
  {
    hide DistinctSlots;
  }

  lemma DoneOnlyRemoves(m: Mux, i: nat, reply: Reply, now: int)
    requires i < |m.active|
    ensures var mid := AfterDone(m, i, reply, now);
            && mid.starts == m.starts && mid.nextId == m.nextId
            && forall x :: x in mid.pending ==> x in m.pending
  {
    hide Continues;
    WithoutMembers(m.pending, m.active[i].entry);
  }

  lemma EnrolledOnlyAdds(m: Mux, key: string, since: Option<nat>, deadline: int)
    ensures var mid := Enrolled(m, key, since, deadline);
            && mid.starts == m.starts && mid.direct == m.direct && mid.nextId == m.nextId + 1
            && forall x: Entry :: x.id < m.nextId && x in mid.pending ==> x in m.pending
  {
    var previous := FindKey(m.pending, key);
    if previous.Some? {
      WithoutMembers(m.pending, previous.value);
    }
  }

  lemma MidKeeps(m: Mux, t: Tick)
    requires Inv(m) && m.direct
    ensures var mid := Mid(m, t);
            && Accounted(mid) && Slots(mid) && mid.direct && mid.starts == m.starts && mid.nextId >= m.nextId
            && forall x: Entry :: x.id < m.nextId && x in mid.pending ==> x in m.pending
  {
    hide Accounted, Slots, SlotsUsed, Enrolled, AfterDone;
    match t.step
    case PollStep(key, since, deadline) =>
      EnrolledKeeps(m, key, since, deadline);
      EnrolledOnlyAdds(m, key, since, deadline);
    case AbortStep(e) =>
      if e in m.pending {
        SettleKeeps(m, e, Rejected(Aborted));
        SlotsKept(m, Mid(m, t));
      }
    case TimerStep =>
      SameAccounts(m, Mid(m, t));
      SlotsKept(m, Mid(m, t));
    case AnswerStep(_, _) =>
    case DoneStep(slot, reply) =>
      if slot < |m.active| {
        AfterDoneKeeps(m, slot, reply, t.now);
        DoneOnlyRemoves(m, slot, reply, t.now);
      }
  }

  /** Freeing a slot whose entry is not pending, or is taken out of pending, moves nobody. */
  lemma FreedWaiting(m: Mux, i: nat)
    requires Slots(m) && i < |m.active|
    ensures var r, freed := m.active[i], FreeSlot(m, i);
            && Waiting(Without(m.pending, r.entry), freed.active) == Waiting(m.pending, m.active)
            && !IsRunning(freed.active, r.entry)
  {
    var r, freed := m.active[i], FreeSlot(m, i);
    assert IsRunning(m.active, r.entry);
    WaitingWithout(m.pending, m.active, r.entry);
    WaitingMembers(m.pending, m.active);
    WaitingAbsent(m, r.entry);
    WithoutMembers(m.pending, r.entry);
    forall e ensures IsRunning(freed.active, e) <==> IsRunning(m.active, e) && e != r.entry {
      RunningFreed(m.active, i, e);
    }
    WaitingAgrees(Without(m.pending, r.entry), m.active, freed.active);
  }

  lemma WaitingAbsent(m: Mux, e: Entry)
    requires IsRunning(m.active, e)
    ensures Without(Waiting(m.pending, m.active), e) == Waiting(m.pending, m.active)
  {
    WaitingMembers(m.pending, m.active);
    WithoutAbsent(Waiting(m.pending, m.active), e);
  }

  /** Nothing a step does to the list moves a waiting poll back. */
  lemma MidKeepsPlace(m: Mux, t: Tick, e: Entry)
    requires Inv(m) && m.direct && e in Waiting(m.pending, m.active) && e in Mid(m, t).pending
    ensures var mid := Mid(m, t);
            && e in Waiting(mid.pending, mid.active)
            && Ahead(Waiting(mid.pending, mid.active), e) <= Ahead(Waiting(m.pending, m.active), e)
  {
    hide Accounted, DistinctSlots, Continues, SlotsUsed;
    var mid, w := Mid(m, t), Waiting(m.pending, m.active);
    WaitingMembers(m.pending, m.active);
    WaitingMembers(mid.pending, mid.active);
    match t.step
    case PollStep(key, since, deadline) =>
      PendingId(m, e);
      EnrolledPlace(m, key, since, deadline, e);
    case AbortStep(x) =>
      if x in m.pending {
        WithoutMembers(m.pending, x);
        WaitingWithout(m.pending, m.active, x);
        AheadWithout(w, e, x);
      }
    case TimerStep =>
    case AnswerStep(_, _) =>
    case DoneStep(slot, reply) =>
      if slot < |m.active| {
        DonePlace(m, slot, reply, t.now, e);
      }
  }

  lemma EnrolledPlace(m: Mux, key: string, since: Option<nat>, deadline: int, e: Entry)
    requires Slots(m) && e in Waiting(m.pending, m.active) && e in Enrolled(m, key, since, deadline).pending
    requires e.id < m.nextId
    ensures var mid := Enrolled(m, key, since, deadline);
            && e in Waiting(mid.pending, mid.active)
            && Ahead(Waiting(mid.pending, mid.active), e) <= Ahead(Waiting(m.pending, m.active), e)
  {
    hide DistinctSlots;
    var previous, w, mid := FindKey(m.pending, key), Waiting(m.pending, m.active), Enrolled(m, key, since, deadline);
    var rest := if previous.Some? then Without(m.pending, previous.value) else m.pending;
    var new' := Entry(m.nextId, key, since, deadline);
    assert mid.pending == rest + [new'] && e != new';
    WaitingAppend(rest, [new'], m.active);
    if previous.Some? {
      WithoutMembers(m.pending, previous.value);
      WaitingWithout(m.pending, m.active, previous.value);
      AheadWithout(w, e, previous.value);
    }
    WaitingMembers(rest, m.active);
    WaitingMembers(m.pending, m.active);
    AheadAppend(Waiting(rest, m.active), Waiting([new'], m.active), e);
  }

  lemma DonePlace(m: Mux, i: nat, reply: Reply, now: int, e: Entry)
    requires Slots(m) && i < |m.active| && e in Waiting(m.pending, m.active)
    ensures var mid := AfterDone(m, i, reply, now);
            && e in Waiting(mid.pending, mid.active)
            && Ahead(Waiting(mid.pending, mid.active), e) <= Ahead(Waiting(m.pending, m.active), e)
  {
    hide Slots, Continues;
    var r, freed, w, mid := m.active[i], FreeSlot(m, i), Waiting(m.pending, m.active), AfterDone(m, i, reply, now);
    FreedWaiting(m, i);
    if r.entry in m.pending {
      WaitingAppend(Without(m.pending, r.entry), [r.entry], freed.active);
      AheadAppend(w, Waiting([r.entry], freed.active), e);
    } else {
      WithoutAbsent(m.pending, r.entry);
    }
  }

  /**
    `e`, waiting in `m`, was started since, or is settled, or still waits with one poll fewer ahead
    of it for every slot that was handed out.
   */
  ghost predicate InTurn(m: Mux, m': Mux, e: Entry) {
    && m.starts <= m'.starts
    && (|| e in m'.starts[|m.starts|..]
        || e !in m'.pending
        || (&& e in Waiting(m'.pending, m'.active)
            && Ahead(Waiting(m'.pending, m'.active), e) + |m'.starts| - |m.starts| <= Ahead(Waiting(m.pending, m.active), e)))
  }

  lemma StepInTurn(m: Mux, t: Tick, e: Entry)
    requires Inv(m) && m.direct && e in Waiting(m.pending, m.active)
    ensures InTurn(m, Next(m, t), e)
  {
    hide Accounted, Slots, Waiting, Ahead;
    var mid, m' := Mid(m, t), Next(m, t);
    NextFillsSlots(m, t);
    MidKeeps(m, t);
    var k := MidDrain(mid, t.now);
    var w := Waiting(mid.pending, mid.active);
    assert m'.starts[|m.starts|..] == w[..k];
    if e in mid.pending {
      MidKeepsPlace(m, t, e);
      AheadDrop(w, k, e);
    }
  }

  lemma MidDrain(mid: Mux, now: int) returns (k: nat)
    requires Accounted(mid) && Slots(mid) && mid.direct
    ensures Drained(mid, Drain(mid, now), k, now)
  {
    k := DrainEffect(mid, now);
  }

  /** A poll that stopped waiting for good is never started again. */
  lemma GoneStays(m: Mux, t: Tick, e: Entry)
    requires Inv(m) && m.direct && e.id < m.nextId && e !in m.pending
    ensures e !in Next(m, t).pending && m.starts <= Next(m, t).starts && m.nextId <= Next(m, t).nextId
  {
    hide Accounted, Slots, Waiting;
    NextFillsSlots(m, t);
    MidKeeps(m, t);
    var k := MidDrain(Mid(m, t), t.now);
  }

  lemma StartsGrow(m: Mux, t: Tick)
    requires Inv(m) && m.direct
    ensures m.starts <= Next(m, t).starts && m.nextId <= Next(m, t).nextId
  {
    hide Accounted, Slots, Waiting;
    NextFillsSlots(m, t);
    MidKeeps(m, t);
    var k := MidDrain(Mid(m, t), t.now);
  }

  /**
    Bounded bypass: from any direct-mode state, whatever arrives, aborts, is superseded or rotates,
    a waiting poll is started or settled before more slots were handed out than there were polls
    ahead of it.
   */
  lemma {:induction false} BoundedBypass(m: Mux, ticks: seq<Tick>, e: Entry)
    requires Inv(m) && m.direct && e in Waiting(m.pending, m.active)
    ensures InTurn(m, Run(m, ticks), e) && m.nextId <= Run(m, ticks).nextId
    ensures var m' := Run(m, ticks);
            |m'.starts| - |m.starts| > Ahead(Waiting(m.pending, m.active), e) ==>
              e in m'.starts[|m.starts|..] || e !in m'.pending
  {
    hide Inv, Next, Waiting, Ahead;
    if ticks != [] {
      var front, t := ticks[..|ticks| - 1], ticks[|ticks| - 1];
      BoundedBypass(m, front, e);
      EveryRunKeepsTheInvariant(m, front);
      var m1, m' := Run(m, front), Run(m, ticks);
      StartsGrow(m1, t);
      PendingId(m, e);
      var early := m1.starts[|m.starts|..];
      assert m'.starts[|m.starts|..] == early + m'.starts[|m1.starts|..];
      if e in early {
        assert e in m'.starts[|m.starts|..];
      } else if e !in m1.pending {
        GoneStays(m1, t, e);
      } else {
        StepInTurn(m1, t, e);
      }
    } else {
      assert m.starts[|m.starts|..] == [];
    }
  }

  lemma PendingId(m: Mux, e: Entry)
    requires Inv(m) && e in Waiting(m.pending, m.active)
    ensures e.id < m.nextId
  {
    WaitingMembers(m.pending, m.active);
  }

  // ---- continuing an empty poll ends ---------------------------------------------------------

  /** The most starts a poll can still get with `remaining` milliseconds to its deadline. */
  function Budget(remaining: int): nat
    decreases Max(0, remaining)
  {
    if remaining <= 1 then 1 else 1 + Budget(AfterOne(remaining))
  }

  /** The most time that can be left after a poll used at least half its timeout. */
  function AfterOne(remaining: int): (r: int)
    requires remaining > 0
    ensures r < remaining
  {
    remaining - (Min(DIRECT_POLL_TIMEOUT_MS, remaining) + 1) / 2
  }

  lemma {:induction false} BudgetMonotone(a: int, b: int)
    requires a <= b
    ensures Budget(a) <= Budget(b)
    decreases Max(0, b)
  {
    if a > 1 {
      BudgetMonotone(AfterOne(a), AfterOne(b));
    }
  }

  function Pow2(k: nat): nat {
    if k == 0 then 1 else 2 * Pow2(k - 1)
  }

  lemma {:induction false} BudgetHalves(remaining: int, k: nat)
    requires k >= 1 && remaining < Pow2(k) && remaining <= DIRECT_POLL_TIMEOUT_MS
    ensures Budget(remaining) <= k
  {
    if remaining > 1 {
      BudgetHalves(AfterOne(remaining), k - 1);
    }
  }

  lemma {:induction false} BudgetBound(remaining: int)
    ensures Budget(remaining) <= (Max(0, remaining) + 499) / 500 + 8
    decreases Max(0, remaining)
  {
    assert Pow2(9) == 512 && Pow2(10) == 1024 by {
      assert Pow2(5) == 32;
    }
    if remaining > 1000 {
      BudgetBound(remaining - 500);
    } else if remaining > 500 {
      BudgetHalves(remaining, 10);
    } else {
      BudgetHalves(remaining, 9);
    }
  }

  function Count(es: seq<Entry>, e: Entry): nat {
    if es == [] then 0 else Count(es[..|es| - 1], e) + if es[|es| - 1] == e then 1 else 0
  }

  lemma {:induction false} CountAppend(a: seq<Entry>, b: seq<Entry>, e: Entry)
    ensures Count(a + b, e) == Count(a, e) + Count(b, e)
  {
    if b == [] {
      assert a + b == a;
    } else {
      assert (a + b)[..|a + b| - 1] == a + b[..|b| - 1];
      CountAppend(a, b[..|b| - 1], e);
    }
  }

  lemma {:induction false} CountDistinct(es: seq<Entry>, e: Entry)
    requires Distinct(es)
    ensures Count(es, e) == if e in es then 1 else 0
  {
    if es != [] {
      var front, last := es[..|es| - 1], es[|es| - 1];
      assert es == front + [last];
      CountDistinct(front, e);
    }
  }

  /**
    `e` was started `count` times so far and at clock `now` cannot be started more than `limit`
    times in all: while it waits its remaining time bounds the rest, while it runs the time left
    when it was last started does.
   */
  ghost predicate Within(m: Mux, e: Entry, count: nat, now: int, limit: nat) {
    && e.id < m.nextId && count <= limit
    && (e in Waiting(m.pending, m.active) ==> count + Budget(e.deadline - now) <= limit)
    && (forall i :: 0 <= i < |m.active| && m.active[i].entry == e && e in m.pending ==>
          m.active[i].started <= now && count + Budget(e.deadline - m.active[i].started) <= limit + 1)
  }

  /** An empty poll that is continued used up at least half its timeout. */
  lemma ContinuedBudget(r: Running, page: Page, now: int)
    requires r.timeout == TimeoutAt(r.entry, r.started) && Continues(r, page, now)
    ensures Budget(r.entry.deadline - now) < Budget(r.entry.deadline - r.started)
  {
    var before, left := r.entry.deadline - r.started, r.entry.deadline - now;
    assert before > 1 && left <= AfterOne(before);
    BudgetMonotone(left, AfterOne(before));
  }

  lemma SameSlotsWithin(m: Mux, mid: Mux, e: Entry, count: nat, before: int, now: int, limit: nat)
    requires Within(m, e, count, before, limit) && before <= now
    requires mid.active == m.active && mid.nextId >= m.nextId && (e in mid.pending ==> e in m.pending)
    ensures Within(mid, e, count, now, limit)
  {
    hide Budget, Waiting;
    WaitingMembers(m.pending, m.active);
    WaitingMembers(mid.pending, mid.active);
    BudgetMonotone(e.deadline - now, e.deadline - before);
  }

  lemma MidWithin(m: Mux, t: Tick, e: Entry, count: nat, before: int, limit: nat)
    requires Inv(m) && m.direct && Within(m, e, count, before, limit) && before <= t.now
    ensures Within(Mid(m, t), e, count, t.now, limit)
  {
    hide Accounted, Slots, SlotsUsed, AfterDone, Waiting, Budget;
    if t.step.DoneStep? && t.step.slot < |m.active| {
      DoneWithin(m, t.step.slot, t.step.reply, t.now, e, count, before, limit);
    } else {
      MidKeeps(m, t);
      SameSlotsWithin(m, Mid(m, t), e, count, before, t.now, limit);
    }
  }

  /** The poll that just came back: continued, it has used up time. */
  lemma OwnDoneWithin(m: Mux, i: nat, reply: Reply, now: int, count: nat, before: int, limit: nat)
    requires Slots(m) && i < |m.active| && Within(m, m.active[i].entry, count, before, limit) && before <= now
    ensures Within(AfterDone(m, i, reply, now), m.active[i].entry, count, now, limit)
  {
    hide Budget, Waiting, Slots, Continues, TimeoutAt;
    var r, mid := m.active[i], AfterDone(m, i, reply, now);
    SlotFreed(m, i, r.entry);
    WithoutMembers(m.pending, r.entry);
    WaitingMembers(mid.pending, mid.active);
    assert !IsRunning(mid.active, r.entry);
    if r.entry in mid.pending {
      SlotTimeout(m, i);
      ContinuedBudget(r, reply.page, now);
    }
  }

  /** Another poll's slot is not concerned. */
  lemma OtherDoneWithin(m: Mux, i: nat, reply: Reply, now: int, e: Entry, count: nat, before: int, limit: nat)
    requires Slots(m) && i < |m.active| && e != m.active[i].entry && Within(m, e, count, before, limit) && before <= now
    ensures Within(AfterDone(m, i, reply, now), e, count, now, limit)
  {
    hide Budget, Waiting, Slots, Continues, TimeoutAt;
    var r, mid := m.active[i], AfterDone(m, i, reply, now);
    SlotFreed(m, i, e);
    WithoutMembers(m.pending, r.entry);
    WaitingMembers(m.pending, m.active);
    WaitingMembers(mid.pending, mid.active);
    BudgetMonotone(e.deadline - now, e.deadline - before);
    assert e in mid.pending <==> e in m.pending;
  }

  lemma DoneWithin(m: Mux, i: nat, reply: Reply, now: int, e: Entry, count: nat, before: int, limit: nat)
    requires Slots(m) && i < |m.active| && Within(m, e, count, before, limit) && before <= now
    ensures Within(AfterDone(m, i, reply, now), e, count, now, limit)
  {
    hide Within, Slots, AfterDone;
    if e == m.active[i].entry {
      OwnDoneWithin(m, i, reply, now, count, before, limit);
    } else {
      OtherDoneWithin(m, i, reply, now, e, count, before, limit);
    }
  }

  lemma SlotTimeout(m: Mux, i: nat)
    requires Slots(m) && i < |m.active|
    ensures m.active[i].timeout == TimeoutAt(m.active[i].entry, m.active[i].started)
  {
  }

  lemma SlotFreed(m: Mux, i: nat, e: Entry)
    requires Slots(m) && i < |m.active|
    ensures var freed := FreeSlot(m, i);
            && (IsRunning(freed.active, e) <==> IsRunning(m.active, e) && e != m.active[i].entry)
            && forall j :: 0 <= j < |freed.active| ==> freed.active[j] in m.active
  {
    RunningFreed(m.active, i, e);
  }

  /** The k polls that took a slot are different ones. */
  lemma StartedOnce(mid: Mux, k: nat, e: Entry)
    requires Accounted(mid) && k <= |Waiting(mid.pending, mid.active)|
    ensures var w := Waiting(mid.pending, mid.active); Count(w[..k], e) == if e in w[..k] then 1 else 0
    ensures var w := Waiting(mid.pending, mid.active); e in w[k..] ==> e !in w[..k]
  {
    var w := Waiting(mid.pending, mid.active);
    WaitingMembers(mid.pending, mid.active);
    CountDistinct(w[..k], e);
    assert w == w[..k] + w[k..];
  }

  lemma DrainWithin(mid: Mux, m': Mux, k: nat, now: int, e: Entry, count: nat, limit: nat)
    requires Accounted(mid) && Within(mid, e, count, now, limit) && Drained(mid, m', k, now)
    ensures mid.starts <= m'.starts
    ensures Within(m', e, count + Count(m'.starts[|mid.starts|..], e), now, limit)
  {
    hide Budget, Waiting, Accounted, Count;
    var w, n := Waiting(mid.pending, mid.active), |mid.active|;
    WaitingMembers(mid.pending, mid.active);
    StartedOnce(mid, k, e);
    assert w == w[..k] + w[k..];
    assert m'.starts[|mid.starts|..] == w[..k];
    BudgetPositive(e.deadline - now);
    forall i | 0 <= i < |m'.active| && m'.active[i].entry == e && e in m'.pending
      ensures m'.active[i].started <= now
      ensures count + Count(w[..k], e) + Budget(e.deadline - m'.active[i].started) <= limit + 1 {
      if i < n {
        assert m'.active[i] == m'.active[..n][i] == mid.active[i];
        assert IsRunning(mid.active, e) && e !in w;
      } else {
        assert m'.active[n + (i - n)] == Running(w[i - n], now, TimeoutAt(w[i - n], now));
      }
    }
  }

  lemma BudgetPositive(remaining: int)
    ensures Budget(remaining) >= 1
  {
  }
}
