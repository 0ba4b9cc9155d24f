/**
  What every run of the poll multiplexer keeps: each poll is settled at most once and by its own
  answer, none is stranded, and in direct mode the four slots go round in turn.
 */
module PollMuxSafety {
  import opened Options
  import opened Deliveries
  import opened PollMux

  datatype Step =
    | PollStep(key: string, since: Option<nat>, deadline: int)
    | AbortStep(entry: Entry)
    | TimerStep
    | AnswerStep(id: nat, answer: Answer)
    | DoneStep(slot: nat, reply: Reply)

  /** A call of the environment and the clock it happens at. */
  datatype Tick = Tick(now: int, step: Step)

  function Next(m: Mux, t: Tick): Mux {
    match t.step
    case PollStep(key, since, deadline) => Poll(m, key, since, deadline, t.now)
    case AbortStep(e) => Abort(m, e, t.now)
    case TimerStep => TimerFires(m, t.now)
    case AnswerStep(id, answer) => AnswerArrives(m, id, answer, t.now)
    case DoneStep(slot, reply) => DirectDone(m, slot, reply, t.now)
  }

  function Run(m: Mux, ticks: seq<Tick>): Mux {
    if ticks == [] then m else Next(Run(m, ticks[..|ticks| - 1]), ticks[|ticks| - 1])
  }

  // ---- lists of entries -------------------------------------------------------------------

  /** No promise and no project twice. */
  ghost predicate Distinct(es: seq<Entry>) {
    forall i, j :: 0 <= i < j < |es| ==> es[i].id != es[j].id && es[i].key != es[j].key
  }

  lemma DistinctCons(e: Entry, rest: seq<Entry>)
    ensures Distinct([e] + rest) <==> Distinct(rest) && forall x :: x in rest ==> x.id != e.id && x.key != e.key
  {
    var all := [e] + rest;
    if Distinct(all) {
      forall x | x in rest ensures x.id != e.id && x.key != e.key {
        var i :| 0 <= i < |rest| && rest[i] == x;
        assert all[0] == e && all[i + 1] == x;
      }
      assert forall i :: 0 <= i < |rest| ==> rest[i] == all[i + 1];
    } else if Distinct(rest) && forall x :: x in rest ==> x.id != e.id && x.key != e.key {
      assert forall i :: 0 < i < |all| ==> all[i] == rest[i - 1] && all[i] in rest;
    }
  }

  lemma {:induction false} WithoutMembers(es: seq<Entry>, e: Entry)
    ensures forall x :: x in Without(es, e) <==> x in es && x != e
    ensures Distinct(es) ==> Distinct(Without(es, e))
    ensures |Without(es, e)| <= |es|
  {
    if es != [] {
      assert es == [es[0]] + es[1..];
      WithoutMembers(es[1..], e);
      DistinctCons(es[0], es[1..]);
      DistinctCons(es[0], Without(es[1..], e));
    }
  }

  lemma {:induction false} WithoutAbsent(es: seq<Entry>, e: Entry)
    requires e !in es
    ensures Without(es, e) == es
  {
    if es != [] {
      assert es == [es[0]] + es[1..];
      WithoutAbsent(es[1..], e);
    }
  }

  lemma WithoutFirst(es: seq<Entry>)
    requires es != [] && Distinct(es)
    ensures Without(es, es[0]) == es[1..]
  {
    assert es == [es[0]] + es[1..];
    DistinctCons(es[0], es[1..]);
    WithoutAbsent(es[1..], es[0]);
  }

  lemma {:induction false} FindKeyFinds(es: seq<Entry>, key: string)
    ensures FindKey(es, key).Some? ==> FindKey(es, key).value in es && FindKey(es, key).value.key == key
    ensures FindKey(es, key).None? ==> forall e :: e in es ==> e.key != key
  {
    if es != [] {
      FindKeyFinds(es[1..], key);
      assert es == [es[0]] + es[1..];
    }
  }

  lemma AppendDistinct(es: seq<Entry>, e: Entry)
    requires Distinct(es) && forall x :: x in es ==> x.id != e.id && x.key != e.key
    ensures Distinct(es + [e])
  {
    var all := es + [e];
    assert forall i :: 0 <= i < |es| ==> all[i] == es[i] && all[i] in es;
  }

  // ---- the waiting list -------------------------------------------------------------------

  lemma {:induction false} WaitingMembers(pending: seq<Entry>, active: seq<Running>)
    ensures forall x :: x in Waiting(pending, active) <==> x in pending && !IsRunning(active, x)
    ensures Distinct(pending) ==> Distinct(Waiting(pending, active))
  {
    if pending != [] {
      WaitingMembers(pending[1..], active);
      assert pending == [pending[0]] + pending[1..];
      DistinctCons(pending[0], pending[1..]);
      DistinctCons(pending[0], Waiting(pending[1..], active));
    }
  }

  lemma {:induction false} WaitingAppend(p: seq<Entry>, q: seq<Entry>, active: seq<Running>)
    ensures Waiting(p + q, active) == Waiting(p, active) + Waiting(q, active)
  {
    if p == [] {
      assert p + q == q;
    } else {
      assert (p + q)[0] == p[0] && (p + q)[1..] == p[1..] + q;
      WaitingAppend(p[1..], q, active);
    }
  }

  lemma {:induction false} WaitingWithout(pending: seq<Entry>, active: seq<Running>, e: Entry)
    ensures Waiting(Without(pending, e), active) == Without(Waiting(pending, active), e)
  {
    if pending != [] {
      WaitingWithout(pending[1..], active, e);
      var rest := Without(pending[1..], e);
      if pending[0] != e {
        assert Without(pending, e)[0] == pending[0] && Without(pending, e)[1..] == rest;
      }
      var w := Waiting(pending[1..], active);
      assert ([pending[0]] + w)[1..] == w;
    }
  }

  /** Two slot lists that agree on every entry of `pending` give the same waiting list. */
  lemma {:induction false} WaitingAgrees(pending: seq<Entry>, active: seq<Running>, active': seq<Running>)
    requires forall x :: x in pending ==> (IsRunning(active, x) <==> IsRunning(active', x))
    ensures Waiting(pending, active) == Waiting(pending, active')
  {
    if pending != [] {
      assert pending[0] in pending;
      WaitingAgrees(pending[1..], active, active');
    }
  }

  lemma {:induction false} WaitingStart(pending: seq<Entry>, active: seq<Running>, r: Running)
    ensures Waiting(pending, active + [r]) == Without(Waiting(pending, active), r.entry)
  {
    if pending != [] {
      WaitingStart(pending[1..], active, r);
      RunningAppend(active, r, pending[0]);
      var w := Waiting(pending[1..], active);
      assert ([pending[0]] + w)[1..] == w;
    }
  }

  lemma RunningAppend(active: seq<Running>, r: Running, e: Entry)
    ensures IsRunning(active + [r], e) <==> IsRunning(active, e) || r.entry == e
  {
    var more := active + [r];
    if IsRunning(active, e) {
      var i :| 0 <= i < |active| && active[i].entry == e;
      assert more[i] == active[i];
    }
    assert more[|active|] == r;
  }

  ghost predicate DistinctSlots(active: seq<Running>) {
    && (forall i, j :: 0 <= i < j < |active| ==> active[i].entry.id != active[j].entry.id)
    && (forall i :: 0 <= i < |active| ==> active[i].timeout == TimeoutAt(active[i].entry, active[i].started))
  }

  lemma RunningFreed(active: seq<Running>, i: nat, e: Entry)
    requires i < |active| && DistinctSlots(active)
    ensures IsRunning(active[..i] + active[i + 1..], e) <==> IsRunning(active, e) && e != active[i].entry
  {
    var less := active[..i] + active[i + 1..];
    if IsRunning(active, e) && e != active[i].entry {
      var j :| 0 <= j < |active| && active[j].entry == e;
      assert less[if j < i then j else j - 1] == active[j];
    }
    if IsRunning(less, e) {
      var j :| 0 <= j < |less| && less[j].entry == e;
      assert less[j] == active[if j < i then j else j + 1];
    }
  }

  // ---- the invariant ----------------------------------------------------------------------

  ghost predicate WasSettled(m: Mux, id: nat) {
    exists i :: 0 <= i < |m.settled| && m.settled[i].entry.id == id
  }

  ghost predicate Awaits(m: Mux, id: nat) {
    exists e :: e in m.pending && e.id == id
  }

  /** Every poll ever made waits or was settled, never both, and none was settled twice. */
  ghost predicate Accounted(m: Mux) {
    && Distinct(m.pending)
    && (forall e :: e in m.pending ==> e.id < m.nextId && !WasSettled(m, e.id))
    && (forall i, j :: 0 <= i < j < |m.settled| ==> m.settled[i].entry.id != m.settled[j].entry.id)
    && (forall id: nat :: WasSettled(m, id) ==> id < m.nextId)
    && (forall id: nat :: id < m.nextId ==> WasSettled(m, id) || Awaits(m, id))
  }

  /** A shared flush is armed, or the request in flight carries every pending poll. */
  ghost predicate Carried(m: Mux) {
    m.pending != [] ==> m.timer || (m.inflight.Some? && forall e :: e in m.pending ==> e in m.inflight.value.members)
  }

  /** Every slot is used or every pending poll has one. */
  ghost predicate SlotsUsed(m: Mux) {
    |m.active| == DIRECT_POLL_MAX_IN_FLIGHT || Waiting(m.pending, m.active) == []
  }

  ghost predicate Slots(m: Mux) {
    && |m.active| <= DIRECT_POLL_MAX_IN_FLIGHT
    && DistinctSlots(m.active)
    && (forall i :: 0 <= i < |m.active| ==> m.active[i].entry.id < m.nextId)
    && (forall e, i :: e in m.pending && 0 <= i < |m.active| && m.active[i].entry.id == e.id ==> m.active[i].entry == e)
  }

  ghost predicate Inv(m: Mux) {
    && Accounted(m) && Slots(m)
    && (if m.direct then m.inflight.None? && SlotsUsed(m) else m.active == [] && Carried(m))
    && (m.inflight.Some? ==> Distinct(m.inflight.value.members))
  }

  lemma SettleKeeps(m: Mux, e: Entry, outcome: Outcome)
    requires Accounted(m) && e in m.pending
    ensures Accounted(Settle(m, e, outcome))
    ensures forall x :: x in Settle(m, e, outcome).pending <==> x in m.pending && x != e
  {
    var m' := Settle(m, e, outcome);
    WithoutMembers(m.pending, e);
    SettledMore(m, m', e, outcome);
    forall x | x in m'.pending ensures x.id < m'.nextId && !WasSettled(m', x.id) {
      SameIdSameEntry(m.pending, x, e);
    }
    forall id: nat | id < m'.nextId ensures WasSettled(m', id) || Awaits(m', id) {
      if Awaits(m, id) {
        var x :| x in m.pending && x.id == id;
        assert x == e || x in m'.pending;
      }
    }
  }

  lemma SettledMore(m: Mux, m': Mux, e: Entry, outcome: Outcome)
    requires m'.settled == m.settled + [Settlement(e, outcome)]
    ensures forall id: nat :: WasSettled(m', id) <==> WasSettled(m, id) || id == e.id
  {
    forall id: nat ensures WasSettled(m', id) <==> WasSettled(m, id) || id == e.id {
      if WasSettled(m, id) {
        var i :| 0 <= i < |m.settled| && m.settled[i].entry.id == id;
        assert m'.settled[i] == m.settled[i];
      }
      assert m'.settled[|m.settled|].entry == e;
      if WasSettled(m', id) {
        var i :| 0 <= i < |m'.settled| && m'.settled[i].entry.id == id;
        assert i < |m.settled| ==> m.settled[i] == m'.settled[i];
      }
    }
  }

  lemma SameIdSameEntry(es: seq<Entry>, x: Entry, y: Entry)
    requires Distinct(es) && x in es && y in es && x != y
    ensures x.id != y.id && x.key != y.key
  {
    var i :| 0 <= i < |es| && es[i] == x;
    var j :| 0 <= j < |es| && es[j] == y;
    if j < i {
      assert es[j].id != es[i].id;
    }
  }

  lemma JoinKeeps(m: Mux, e: Entry)
    requires Accounted(m) && e.id == m.nextId && forall x :: x in m.pending ==> x.key != e.key
    ensures Accounted(m.(pending := m.pending + [e], nextId := m.nextId + 1))
  {
    var m' := m.(pending := m.pending + [e], nextId := m.nextId + 1);
    AppendDistinct(m.pending, e);
    assert forall id: nat :: WasSettled(m', id) <==> WasSettled(m, id);
    forall id: nat | id < m'.nextId ensures WasSettled(m', id) || Awaits(m', id) {
      if id == m.nextId {
        assert e in m'.pending;
      } else if Awaits(m, id) {
        var x :| x in m.pending && x.id == id;
        assert x in m'.pending;
      }
    }
  }

  /** Moving an entry behind the others changes nobody's account. */
  lemma RotateKeeps(m: Mux, e: Entry)
    requires Accounted(m) && e in m.pending
    ensures Accounted(m.(pending := Without(m.pending, e) + [e]))
  {
    var m' := m.(pending := Without(m.pending, e) + [e]);
    WithoutMembers(m.pending, e);
    forall x | x in Without(m.pending, e) ensures x.id != e.id && x.key != e.key {
      SameIdSameEntry(m.pending, x, e);
    }
    AppendDistinct(Without(m.pending, e), e);
    assert forall id: nat :: WasSettled(m', id) <==> WasSettled(m, id);
    forall id: nat | id < m'.nextId && !WasSettled(m', id) ensures Awaits(m', id) {
      var x :| x in m.pending && x.id == id;
      assert x in m'.pending;
    }
  }

  lemma StartedSlot(m: Mux, e: Entry, now: int)
    requires Slots(m) && Distinct(m.pending) && |m.active| < DIRECT_POLL_MAX_IN_FLIGHT
    requires e in m.pending && e.id < m.nextId && !IsRunning(m.active, e)
    ensures Slots(StartDirect(m, e, now))
  {
    var m' := StartDirect(m, e, now);
    forall x, i | x in m.pending && 0 <= i < |m'.active| && m'.active[i].entry.id == x.id
      ensures m'.active[i].entry == x {
      if i == |m.active| && x != e {
        SameIdSameEntry(m.pending, x, e);
      }
    }
  }

  lemma StartEffect(m: Mux, now: int)
    requires Slots(m) && Distinct(m.pending) && |m.active| < DIRECT_POLL_MAX_IN_FLIGHT
    requires (forall e :: e in m.pending ==> e.id < m.nextId) && Waiting(m.pending, m.active) != []
    ensures var w := Waiting(m.pending, m.active);
            var m' := StartDirect(m, w[0], now);
            Slots(m') && Waiting(m'.pending, m'.active) == w[1..]
  {
    hide Slots, IsRunning, Distinct;
    var w := Waiting(m.pending, m.active);
    WaitingMembers(m.pending, m.active);
    assert w[0] in w;
    StartedSlot(m, w[0], now);
    WaitingStart(m.pending, m.active, Running(w[0], now, TimeoutAt(w[0], now)));
    WithoutFirst(w);
  }

  /** `m'` is `m` after its first k waiting polls took a slot at `now`. */
  ghost predicate Drained(m: Mux, m': Mux, k: nat, now: int) {
    var w := Waiting(m.pending, m.active);
    && k <= |w| && Waiting(m'.pending, m'.active) == w[k..] && m'.starts == m.starts + w[..k]
    && m' == m.(active := m'.active, starts := m'.starts)
    && |m'.active| == |m.active| + k && m'.active[..|m.active|] == m.active
    && (forall i :: 0 <= i < k ==> m'.active[|m.active| + i] == Running(w[i], now, TimeoutAt(w[i], now)))
  }

  lemma DrainedStep(m: Mux, m1: Mux, m': Mux, k: nat, now: int)
    requires Waiting(m.pending, m.active) != []
    requires m1 == StartDirect(m, Waiting(m.pending, m.active)[0], now)
    requires Waiting(m1.pending, m1.active) == Waiting(m.pending, m.active)[1..]
    requires Drained(m1, m', k, now)
    ensures Drained(m, m', k + 1, now)
  {
    hide Waiting;
    var w, n := Waiting(m.pending, m.active), |m.active|;
    assert w[k + 1..] == w[1..][k..] && w[..k + 1] == [w[0]] + w[1..][..k];
    assert m.starts + w[..k + 1] == m1.starts + w[1..][..k];
    assert m'.active[..n] == m'.active[..n + 1][..n] == m.active;
    forall i | 0 <= i < k + 1 ensures m'.active[n + i] == Running(w[i], now, TimeoutAt(w[i], now)) {
      if i == 0 {
        assert m'.active[n] == m'.active[..n + 1][n];
      } else {
        assert m'.active[|m1.active| + (i - 1)] == m'.active[n + i] && w[1..][i - 1] == w[i];
      }
    }
  }

  /**
    Draining hands free slots to the front of the waiting list, in order, and stops when the slots
    or the waiters run out.
   */
  lemma {:induction false} DrainEffect(m: Mux, now: int) returns (k: nat)
    requires m.direct && Slots(m) && Distinct(m.pending) && forall e :: e in m.pending ==> e.id < m.nextId
    ensures Drained(m, Drain(m, now), k, now) && Slots(Drain(m, now)) && SlotsUsed(Drain(m, now))
    decreases DIRECT_POLL_MAX_IN_FLIGHT - |m.active|
  {
    hide Slots, Waiting, Distinct;
    var w := Waiting(m.pending, m.active);
    SlotsBound(m);
    if |m.active| >= DIRECT_POLL_MAX_IN_FLIGHT || w == [] {
      k := 0;
      assert m.starts + w[..0] == m.starts && w[0..] == w && m.active[..|m.active|] == m.active;
    } else {
      StartEffect(m, now);
      var m1 := StartDirect(m, w[0], now);
      k := DrainEffect(m1, now);
      DrainedStep(m, m1, Drain(m1, now), k, now);
      k := k + 1;
    }
  }

  lemma SlotsBound(m: Mux)
    requires Slots(m)
    ensures |m.active| <= DIRECT_POLL_MAX_IN_FLIGHT
  {
  }

  /** What is needed to fill the slots, and that filling them completes the invariant. */
  lemma DrainKeeps(m: Mux, now: int)
    requires m.direct && Accounted(m) && Slots(m) && m.inflight.None?
    ensures Inv(Drain(m, now)) && Drain(m, now).direct
  {
    hide Slots, Waiting, Distinct;
    var k := DrainEffect(m, now);
    SameAccounts(m, Drain(m, now));
  }

  lemma SameAccounts(m: Mux, m': Mux)
    requires Accounted(m) && m'.pending == m.pending && m'.settled == m.settled && m'.nextId == m.nextId
    ensures Accounted(m')
  {
    assert forall id: nat :: WasSettled(m', id) <==> WasSettled(m, id);
    assert forall id: nat :: Awaits(m', id) <==> Awaits(m, id);
  }

  lemma GoDirectKeeps(m: Mux, now: int)
    requires !m.direct && Accounted(m) && m.active == []
    ensures Inv(GoDirect(m, now)) && GoDirect(m, now).direct
  {
    var m1 := m.(direct := true, inflight := None, timer := false);
    SameAccounts(m, m1);
    DrainKeeps(m1, now);
  }

  /** A poll's entry joined the pending ones, after superseding an older poll of its project. */
  function Enrolled(m: Mux, key: string, since: Option<nat>, deadline: int): Mux {
    var previous := FindKey(m.pending, key);
    var rest := if previous.Some? then Settle(m, previous.value, Rejected(Superseded)) else m;
    rest.(pending := rest.pending + [Entry(m.nextId, key, since, deadline)], nextId := m.nextId + 1)
  }

  lemma EnrolledKeeps(m: Mux, key: string, since: Option<nat>, deadline: int)
    requires Accounted(m) && Slots(m)
    ensures Accounted(Enrolled(m, key, since, deadline)) && Slots(Enrolled(m, key, since, deadline))
  {
    hide Accounted, Slots;
    var previous := FindKey(m.pending, key);
    var rest := if previous.Some? then Settle(m, previous.value, Rejected(Superseded)) else m;
    var e := Entry(m.nextId, key, since, deadline);
    FindKeyFinds(m.pending, key);
    if previous.Some? {
      SettleKeeps(m, previous.value, Rejected(Superseded));
      AccountedDistinct(m);
      forall x | x in rest.pending ensures x.key != key {
        SameIdSameEntry(m.pending, x, previous.value);
      }
    }
    JoinKeeps(rest, e);
    EnrolledSlots(m, Enrolled(m, key, since, deadline), e);
  }

  lemma AccountedDistinct(m: Mux)
    requires Accounted(m)
    ensures Distinct(m.pending)
  {
  }

  /** A poll with a new id can hold no slot yet. */
  lemma EnrolledSlots(m: Mux, m': Mux, e: Entry)
    requires Slots(m) && e.id == m.nextId && m'.nextId == m.nextId + 1 && m'.active == m.active
    requires forall x :: x in m'.pending ==> x in m.pending || x == e
    ensures Slots(m')
  {
    hide DistinctSlots;
  }

  lemma PollKeeps(m: Mux, key: string, since: Option<nat>, deadline: int, now: int)
    requires Inv(m)
    ensures Inv(Poll(m, key, since, deadline, now))
  {
    hide Waiting, DistinctSlots, Accounted;
    var joined := Enrolled(m, key, since, deadline);
    EnrolledKeeps(m, key, since, deadline);
    if m.direct {
      DrainKeeps(joined, now);
    } else {
      SameAccounts(joined, Schedule(joined));
    }
  }

  lemma AbortKeeps(m: Mux, e: Entry, now: int)
    requires Inv(m)
    ensures Inv(Abort(m, e, now))
  {
    hide Waiting, DistinctSlots, Distinct;
    if e in m.pending {
      var rest := Settle(m, e, Rejected(Aborted));
      SettleKeeps(m, e, Rejected(Aborted));
      if m.direct {
        DrainKeeps(rest, now);
      } else {
        SameAccounts(rest, Abort(m, e, now));
      }
    }
  }

  lemma TimerKeeps(m: Mux, now: int)
    requires Inv(m)
    ensures Inv(TimerFires(m, now))
  {
    hide Waiting, DistinctSlots, WasSettled, Awaits;
    if m.timer {
      var m' := TimerFires(m, now);
      if !m.direct && |m.pending| > CHANGE_MUX_MAX_POLLS
         && !(m.inflight.Some? && SameMembers(m.inflight.value.members, m.pending)) {
        SameAccounts(m, m.(timer := false, inflight := None));
        GoDirectKeeps(m.(timer := false, inflight := None), now);
      } else {
        SameAccounts(m, m');
      }
    }
  }

  lemma {:induction false} FailAllKeeps(m: Mux, members: seq<Entry>)
    requires Accounted(m)
    ensures var m' := FailAll(m, members);
            && Accounted(m') && m' == m.(pending := m'.pending, settled := m'.settled)
  {
    hide Accounted;
    if members != [] {
      FailAllKeeps(m, members[..|members| - 1]);
      var rest, e := FailAll(m, members[..|members| - 1]), members[|members| - 1];
      if e in rest.pending {
        SettleKeeps(rest, e, Rejected(Failed));
      }
    }
  }

  lemma {:induction false} SettleResultsKeeps(m: Mux, members: seq<Entry>, rs: seq<Result>)
    requires Accounted(m)
    ensures var m' := SettleResults(m, members, rs);
            && Accounted(m') && m' == m.(pending := m'.pending, settled := m'.settled)
  {
    hide Accounted;
    if rs != [] {
      SettleResultsKeeps(m, members, rs[..|rs| - 1]);
      var rest, entry := SettleResults(m, members, rs[..|rs| - 1]), FindKey(members, rs[|rs| - 1].key);
      if entry.Some? && entry.value in rest.pending {
        SettleKeeps(rest, entry.value, rs[|rs| - 1].outcome);
      }
    }
  }

  lemma AnswerKeeps(m: Mux, id: nat, answer: Answer, now: int)
    requires Inv(m)
    ensures Inv(AnswerArrives(m, id, answer, now))
  {
    hide Waiting, DistinctSlots, Distinct, Accounted;
    if m.inflight.Some? && m.inflight.value.id == id {
      var members, idle := m.inflight.value.members, m.(inflight := None);
      SameAccounts(m, idle);
      match answer
      case Unsupported => GoDirectKeeps(m, now);
      case Unusable =>
        FailAllKeeps(idle, members);
        SameAccounts(FailAll(idle, members), Rescheduled(FailAll(idle, members)));
      case Results(rs) =>
        if rs == [] {
          GoDirectKeeps(m, now);
        } else {
          SettleResultsKeeps(idle, members, rs);
          SameAccounts(SettleResults(idle, members, rs), Rescheduled(SettleResults(idle, members, rs)));
        }
    }
  }

  lemma FreeSlotKeeps(m: Mux, i: nat)
    requires Accounted(m) && Slots(m) && i < |m.active|
    ensures Accounted(FreeSlot(m, i)) && Slots(FreeSlot(m, i))
  {
    hide Accounted;
    var m' := FreeSlot(m, i);
    SameAccounts(m, m');
    assert forall j :: 0 <= j < |m'.active| ==> m'.active[j] == m.active[if j < i then j else j + 1];
  }

  /** What a finished direct poll leaves before the freed slot is filled again. */
  function AfterDone(m: Mux, i: nat, reply: Reply, now: int): Mux
    requires i < |m.active|
  {
    var r, freed := m.active[i], FreeSlot(m, i);
    if r.entry !in m.pending then freed
    else if reply.Refused? then Settle(freed, r.entry, Rejected(Failed))
    else if Continues(r, reply.page, now) then freed.(pending := Without(freed.pending, r.entry) + [r.entry])
    else Settle(freed, r.entry, Resolved(reply.page))
  }

  lemma AfterDoneKeeps(m: Mux, i: nat, reply: Reply, now: int)
    requires Accounted(m) && Slots(m) && i < |m.active|
    ensures var m' := AfterDone(m, i, reply, now);
            Accounted(m') && Slots(m') && m'.direct == m.direct && m'.inflight == m.inflight
  {
    hide Accounted, DistinctSlots, Continues;
    var r, freed := m.active[i], FreeSlot(m, i);
    FreeSlotKeeps(m, i);
    if r.entry in m.pending {
      SettleKeeps(freed, r.entry, if reply.Refused? then Rejected(Failed) else Resolved(reply.page));
      RotateKeeps(freed, r.entry);
      WithoutMembers(freed.pending, r.entry);
    }
  }

  lemma DoneKeeps(m: Mux, i: nat, reply: Reply, now: int)
    requires Inv(m)
    ensures Inv(DirectDone(m, i, reply, now))
  {
    hide Accounted, DistinctSlots, Waiting, Continues;
    if i < |m.active| {
      AfterDoneKeeps(m, i, reply, now);
      DrainKeeps(AfterDone(m, i, reply, now), now);
    }
  }

  lemma StepKeeps(m: Mux, t: Tick)
    requires Inv(m)
    ensures Inv(Next(m, t))
    ensures m.direct ==> Next(m, t).direct
  {
    hide Inv, Poll, Abort, TimerFires, AnswerArrives, DirectDone;
    DirectStays(m, t);
    match t.step
    case PollStep(key, since, deadline) => PollKeeps(m, key, since, deadline, t.now);
    case AbortStep(e) => AbortKeeps(m, e, t.now);
    case TimerStep => TimerKeeps(m, t.now);
    case AnswerStep(id, answer) => AnswerKeeps(m, id, answer, t.now);
    case DoneStep(slot, reply) => DoneKeeps(m, slot, reply, t.now);
  }

  lemma {:induction false} DrainStaysDirect(m: Mux, now: int)
    ensures Drain(m, now).direct == m.direct
    decreases DIRECT_POLL_MAX_IN_FLIGHT - |m.active|
  {
    if m.direct && |m.active| < DIRECT_POLL_MAX_IN_FLIGHT && Waiting(m.pending, m.active) != [] {
      DrainStaysDirect(StartDirect(m, Waiting(m.pending, m.active)[0], now), now);
    }
  }

  lemma DirectStays(m: Mux, t: Tick)
    requires Inv(m)
    ensures m.direct ==> Next(m, t).direct
  {
    hide Drain, Waiting, Accounted, Slots;
    if m.direct {
      match t.step
      case PollStep(key, since, deadline) =>
        var previous := FindKey(m.pending, key);
        var rest := if previous.Some? then Settle(m, previous.value, Rejected(Superseded)) else m;
        DrainStaysDirect(rest.(pending := rest.pending + [Entry(m.nextId, key, since, deadline)], nextId := m.nextId + 1), t.now);
      case AbortStep(e) =>
        DrainStaysDirect(Settle(m, e, Rejected(Aborted)), t.now);
      case TimerStep =>
      case AnswerStep(_, _) =>
      case DoneStep(slot, reply) =>
        if slot < |m.active| {
          DrainStaysDirect(AfterDone(m, slot, reply, t.now), t.now);
        }
    }
  }

  lemma {:induction false} EveryRunKeepsTheInvariant(m: Mux, ticks: seq<Tick>)
    requires Inv(m)
    ensures Inv(Run(m, ticks)) && (m.direct ==> Run(m, ticks).direct)
  {
    hide Inv, Next;
    if ticks != [] {
      EveryRunKeepsTheInvariant(m, ticks[..|ticks| - 1]);
      StepKeeps(Run(m, ticks[..|ticks| - 1]), ticks[|ticks| - 1]);
    }
  }

  lemma FreshKeeps(directOnly: bool)
    ensures Inv(Fresh(directOnly))
  {
    assert forall id: nat :: !WasSettled(Fresh(directOnly), id);
  }

  /**
    Over every run: each poll made so far is waiting or was settled, never both and never twice;
    while requests are shared a flush is armed or the one in flight carries every waiting poll; and
    in direct mode at most four polls run and none waits while a slot is free.
   */
  lemma NoPollIsStranded(directOnly: bool, ticks: seq<Tick>)
    ensures var m := Run(Fresh(directOnly), ticks);
            && (forall id: nat :: id < m.nextId ==> (WasSettled(m, id) <==> !Awaits(m, id)))
            && (forall i, j :: 0 <= i < j < |m.settled| ==> m.settled[i].entry.id != m.settled[j].entry.id)
            && (!m.direct && m.pending != [] ==>
                  m.timer || (m.inflight.Some? && forall e :: e in m.pending ==> e in m.inflight.value.members))
            && |m.active| <= DIRECT_POLL_MAX_IN_FLIGHT
            && (m.direct && |m.active| < DIRECT_POLL_MAX_IN_FLIGHT ==> forall e :: e in m.pending ==> IsRunning(m.active, e))
  {
    FreshKeeps(directOnly);
    EveryRunKeepsTheInvariant(Fresh(directOnly), ticks);
    var m := Run(Fresh(directOnly), ticks);
    WaitingMembers(m.pending, m.active);
    forall id: nat | id < m.nextId && Awaits(m, id) ensures !WasSettled(m, id) {
      var e :| e in m.pending && e.id == id;
    }
  }

  // ---- answers reach the polls they were asked for -----------------------------------------

  /** What a shared answer settled: entries of its own request that still waited, with their own result. */
  ghost predicate OwnResult(s: Settlement, m: Mux, members: seq<Entry>, rs: seq<Result>) {
    s.entry in members && s.entry in m.pending && Result(s.entry.key, s.outcome) in rs
  }

  lemma {:induction false} ResultsAreOwn(m: Mux, members: seq<Entry>, rs: seq<Result>)
    requires Accounted(m)
    ensures var m' := SettleResults(m, members, rs);
            && |m.settled| <= |m'.settled| && m'.settled[..|m.settled|] == m.settled
            && (forall x :: x in m'.pending ==> x in m.pending)
            && (forall i :: |m.settled| <= i < |m'.settled| ==> OwnResult(m'.settled[i], m, members, rs))
  {
    hide Accounted;
    if rs != [] {
      var front, r := rs[..|rs| - 1], rs[|rs| - 1];
      ResultsAreOwn(m, members, front);
      SettleResultsKeeps(m, members, front);
      var rest, entry, m' := SettleResults(m, members, front), FindKey(members, r.key), SettleResults(m, members, rs);
      assert forall x :: x in front ==> x in rs;
      FindKeyFinds(members, r.key);
      if entry.Some? && entry.value in rest.pending {
        SettleKeeps(rest, entry.value, r.outcome);
        assert m'.settled[..|m.settled|] == rest.settled[..|m.settled|];
        assert r == Result(entry.value.key, r.outcome);
        forall i | |m.settled| <= i < |m'.settled| ensures OwnResult(m'.settled[i], m, members, rs) {
          if i < |rest.settled| {
            assert m'.settled[i] == rest.settled[i];
          }
        }
      }
    }
  }

  /**
    An answer settles only polls its request carried and that still wait, each with the result for
    its project; in particular never a newer poll of the same project. An answer to a request
    that was replaced changes nothing.
   */
  lemma AnswersSettleTheirOwn(m: Mux, id: nat, rs: seq<Result>, now: int)
    requires Inv(m) && rs != []
    ensures var m' := AnswerArrives(m, id, Results(rs), now);
            if m.inflight.Some? && m.inflight.value.id == id then
              && m.settled <= m'.settled
              && (forall i :: |m.settled| <= i < |m'.settled| ==>
                    OwnResult(m'.settled[i], m, m.inflight.value.members, rs)
                    && forall x :: x in m.pending && x.key == m'.settled[i].entry.key ==> x == m'.settled[i].entry)
            else m' == m
  {
    if m.inflight.Some? && m.inflight.value.id == id {
      var idle, members, m' := m.(inflight := None), m.inflight.value.members, AnswerArrives(m, id, Results(rs), now);
      SameAccounts(m, idle);
      ResultsAreOwn(idle, members, rs);
      forall i | |m.settled| <= i < |m'.settled|
        ensures OwnResult(m'.settled[i], m, members, rs)
        ensures forall x :: x in m.pending && x.key == m'.settled[i].entry.key ==> x == m'.settled[i].entry {
        assert OwnResult(m'.settled[i], idle, members, rs);
        forall x | x in m.pending && x != m'.settled[i].entry ensures x.key != m'.settled[i].entry.key {
          SameIdSameEntry(m.pending, x, m'.settled[i].entry);
        }
      }
    }
  }
}
