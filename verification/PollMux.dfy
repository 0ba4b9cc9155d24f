/**
  The browser half of the multiplexed change long-poll (`ChangePollMultiplexer`): every waiting
  project's poll rides one shared request, or after a fallback takes turns in four direct slots.
  Promises, timers and network answers are the calls the environment makes.
 */
module PollMux {
  import opened Options
  import opened Deliveries

  const CHANGE_MUX_MAX_POLLS: nat := 64
  const DIRECT_POLL_MAX_IN_FLIGHT: nat := 4
  const DIRECT_POLL_TIMEOUT_MS: nat := 1000

  /** One pending poll; `id` is the identity of its promise. */
  datatype Entry = Entry(id: nat, key: string, since: Option<nat>, deadline: int)

  datatype Reason = Superseded | Aborted | Failed

  datatype Outcome = Resolved(page: Page) | Rejected(reason: Reason)

  datatype Settlement = Settlement(entry: Entry, outcome: Outcome)

  datatype Request = Request(id: nat, members: seq<Entry>)

  /** A direct poll under way, with the clock and timeout it was started with. */
  datatype Running = Running(entry: Entry, started: int, timeout: int)

  datatype Mux = Mux(
    direct: bool,
    pending: seq<Entry>,
    inflight: Option<Request>,
    timer: bool,
    active: seq<Running>,
    settled: seq<Settlement>,
    starts: seq<Entry>,
    nextId: nat,
    nextRequest: nat)

  /** What came back for one project of a shared request. */
  datatype Result = Result(key: string, outcome: Outcome)

  /** The answer to a shared request: no usable bridge, a failure of the whole request, or results. */
  datatype Answer = Unsupported | Unusable | Results(results: seq<Result>)

  datatype Reply = Answered(page: Page) | Refused

  // ---- the operations as functions of the state -------------------------------------------

  function FindKey(es: seq<Entry>, key: string): Option<Entry> {
    if es == [] then None else if es[0].key == key then Some(es[0]) else FindKey(es[1..], key)
  }

  function Without(es: seq<Entry>, e: Entry): seq<Entry> {
    if es == [] then []
    else if es[0] == e then Without(es[1..], e)
    else [es[0]] + Without(es[1..], e)
  }

  predicate IsRunning(active: seq<Running>, e: Entry) {
    exists i :: 0 <= i < |active| && active[i].entry == e
  }

  /** The pending polls that hold no slot, in turn order. */
  function Waiting(pending: seq<Entry>, active: seq<Running>): seq<Entry> {
    if pending == [] then []
    else if IsRunning(active, pending[0]) then Waiting(pending[1..], active)
    else [pending[0]] + Waiting(pending[1..], active)
  }

  function Settle(m: Mux, e: Entry, outcome: Outcome): Mux {
    m.(pending := Without(m.pending, e), settled := m.settled + [Settlement(e, outcome)])
  }

  function Schedule(m: Mux): Mux {
    m.(timer := true)
  }

  function TimeoutAt(e: Entry, now: int): int {
    Min(DIRECT_POLL_TIMEOUT_MS, Max(0, e.deadline - now))
  }

  function StartDirect(m: Mux, e: Entry, now: int): Mux {
    m.(active := m.active + [Running(e, now, TimeoutAt(e, now))], starts := m.starts + [e])
  }

  /** While a slot is free the poll that waited longest takes it. */
  function Drain(m: Mux, now: int): Mux
    decreases DIRECT_POLL_MAX_IN_FLIGHT - |m.active|
  {
    if !m.direct || |m.active| >= DIRECT_POLL_MAX_IN_FLIGHT || Waiting(m.pending, m.active) == [] then m
    else Drain(StartDirect(m, Waiting(m.pending, m.active)[0], now), now)
  }

  function GoDirect(m: Mux, now: int): Mux {
    if m.direct then m else Drain(m.(direct := true, inflight := None, timer := false), now)
  }

  function Poll(m: Mux, key: string, since: Option<nat>, deadline: int, now: int): Mux {
    var previous := FindKey(m.pending, key);
    var rest := if previous.Some? then Settle(m, previous.value, Rejected(Superseded)) else m;
    var joined := rest.(pending := rest.pending + [Entry(m.nextId, key, since, deadline)], nextId := m.nextId + 1);
    if m.direct then Drain(joined, now) else Schedule(joined)
  }

  function Abort(m: Mux, e: Entry, now: int): Mux {
    if e !in m.pending then m
    else
      var rest := Settle(m, e, Rejected(Aborted));
      var noted := if m.inflight.Some? && e in m.inflight.value.members then Schedule(rest) else rest;
      if m.direct then Drain(noted, now) else noted
  }

  predicate SameMembers(members: seq<Entry>, pending: seq<Entry>) {
    |members| == |pending| && forall e :: e in pending ==> e in members
  }

  function Flush(m: Mux, now: int): Mux {
    if m.direct || (m.inflight.Some? && SameMembers(m.inflight.value.members, m.pending)) then m
    else
      var idle := m.(inflight := None);
      if m.pending == [] then idle
      else if |m.pending| > CHANGE_MUX_MAX_POLLS then GoDirect(idle, now)
      else idle.(inflight := Some(Request(m.nextRequest, m.pending)), nextRequest := m.nextRequest + 1)
  }

  function TimerFires(m: Mux, now: int): Mux {
    if m.timer then Flush(m.(timer := false), now) else m
  }

  function FailAll(m: Mux, members: seq<Entry>): Mux {
    if members == [] then m
    else
      var rest := FailAll(m, members[..|members| - 1]);
      var e := members[|members| - 1];
      if e in rest.pending then Settle(rest, e, Rejected(Failed)) else rest
  }

  /** A result settles the entry its request carried for that project, if that entry still waits. */
  function SettleResult(m: Mux, members: seq<Entry>, r: Result): Mux {
    var entry := FindKey(members, r.key);
    if entry.Some? && entry.value in m.pending then Settle(m, entry.value, r.outcome) else m
  }

  function SettleResults(m: Mux, members: seq<Entry>, rs: seq<Result>): Mux {
    if rs == [] then m
    else SettleResult(SettleResults(m, members, rs[..|rs| - 1]), members, rs[|rs| - 1])
  }

  function Rescheduled(m: Mux): Mux {
    if m.pending == [] then m else Schedule(m)
  }

  /** The continuation of request `id`; one that was aborted or replaced does nothing. */
  function AnswerArrives(m: Mux, id: nat, answer: Answer, now: int): Mux {
    if m.inflight.None? || m.inflight.value.id != id then m
    else
      var members, idle := m.inflight.value.members, m.(inflight := None);
      match answer
      case Unsupported => GoDirect(m, now)
      case Unusable => Rescheduled(FailAll(idle, members))
      case Results(rs) =>
        if rs == [] then GoDirect(m, now) else Rescheduled(SettleResults(idle, members, rs))
  }

  /** Nothing new, most of the capped time used and the deadline still ahead: the poll takes another turn. */
  predicate Continues(r: Running, page: Page, now: int) {
    && r.entry.since == Some(page.cursor)
    && |page.events| == 0 && !page.overflow
    && r.timeout > 0
    && (now - r.started) * 2 >= r.timeout
    && r.entry.deadline - now > 0
  }

  function FreeSlot(m: Mux, i: nat): Mux
    requires i < |m.active|
  {
    m.(active := m.active[..i] + m.active[i + 1..])
  }

  function DirectDone(m: Mux, i: nat, reply: Reply, now: int): Mux {
    if i >= |m.active| then m
    else
      var r, freed := m.active[i], FreeSlot(m, i);
      var after :=
        if r.entry !in m.pending then freed
        else if reply.Refused? then Settle(freed, r.entry, Rejected(Failed))
        else if Continues(r, reply.page, now)
        then freed.(pending := Without(freed.pending, r.entry) + [r.entry])
        else Settle(freed, r.entry, Resolved(reply.page));
      Drain(after, now)
  }

  // ---- the multiplexer as the source writes it ----------------------------------------------

  class ChangePollMultiplexer {
    var direct: bool
    var pending: seq<Entry>
    var inflight: Option<Request>
    var timer: bool
    var active: seq<Running>
    /** Every promise outcome so far, and every direct poll started so far. */
    var settled: seq<Settlement>
    var starts: seq<Entry>
    var nextId: nat
    var nextRequest: nat

    constructor (directOnly: bool)
      ensures View() == Fresh(directOnly)
    {
      direct, pending, inflight, timer := directOnly, [], None, false;
      active, settled, starts, nextId, nextRequest := [], [], [], 0, 0;
    }

    function View(): Mux
      reads this
    {
      Mux(direct, pending, inflight, timer, active, settled, starts, nextId, nextRequest)
    }

    method PollFor(key: string, since: Option<nat>, deadline: int, now: int) returns (entry: Entry)
      modifies this
      ensures entry == Entry(old(nextId), key, since, deadline)
      ensures View() == Poll(old(View()), key, since, deadline, now)
    {
      var previous := FindKey(pending, key);
      if previous.Some? {
        SettleEntry(previous.value, Rejected(Superseded));
      }
      entry := Entry(nextId, key, since, deadline);
      nextId := nextId + 1;
      pending := pending + [entry];
      if direct {
        DrainSlots(now);
      } else {
        timer := true;
      }
    }

    method OnAbort(entry: Entry, now: int)
      modifies this
      ensures View() == Abort(old(View()), entry, now)
    {
      if entry !in pending {
        return;
      }
      SettleEntry(entry, Rejected(Aborted));
      if inflight.Some? && entry in inflight.value.members {
        timer := true;
      }
      if direct {
        DrainSlots(now);
      }
    }

    method SettleEntry(entry: Entry, outcome: Outcome)
      modifies this
      ensures View() == Settle(old(View()), entry, outcome)
    {
      pending := Without(pending, entry);
      settled := settled + [Settlement(entry, outcome)];
    }

    method OnTimer(now: int)
      modifies this
      ensures View() == TimerFires(old(View()), now)
    {
      if timer {
        timer := false;
        if direct {
          return;
        }
        if inflight.Some? {
          if SameMembers(inflight.value.members, pending) {
            return;
          }
          inflight := None;
        }
        if |pending| == 0 {
          return;
        }
        if |pending| > CHANGE_MUX_MAX_POLLS {
          GoDirectMode(now);
          return;
        }
        inflight := Some(Request(nextRequest, pending));
        nextRequest := nextRequest + 1;
      }
    }

    method GoDirectMode(now: int)
      modifies this
      ensures View() == GoDirect(old(View()), now)
    {
      if direct {
        return;
      }
      direct := true;
      inflight := None;
      timer := false;
      DrainSlots(now);
    }

    method OnAnswer(id: nat, answer: Answer, now: int)
      modifies this
      ensures View() == AnswerArrives(old(View()), id, answer, now)
    {
      if inflight.None? || inflight.value.id != id {
        return;
      }
      var members := inflight.value.members;
      match answer {
        case Unsupported =>
          GoDirectMode(now);
        case Unusable =>
          inflight := None;
          FailMembers(members);
          if |pending| > 0 {
            timer := true;
          }
        case Results(results) =>
          if |results| == 0 {
            GoDirectMode(now);
            return;
          }
          inflight := None;
          ApplyResults(members, results);
          if |pending| > 0 {
            timer := true;
          }
      }
    }

    method FailMembers(members: seq<Entry>)
      modifies this
      ensures View() == FailAll(old(View()), members)
    {
      for i := 0 to |members|
        invariant View() == FailAll(old(View()), members[..i])
      {
        assert members[..i + 1][..i] == members[..i];
        if members[i] in pending {
          SettleEntry(members[i], Rejected(Failed));
        }
      }
      assert members[..|members|] == members;
    }

    method ApplyResults(members: seq<Entry>, results: seq<Result>)
      modifies this
      ensures View() == SettleResults(old(View()), members, results)
    {
      for i := 0 to |results|
        invariant View() == SettleResults(old(View()), members, results[..i])
      {
        assert results[..i + 1][..i] == results[..i];
        var entry := FindKey(members, results[i].key);
        if entry.Some? && entry.value in pending {
          SettleEntry(entry.value, results[i].outcome);
        }
      }
      assert results[..|results|] == results;
    }

    /** One walk over the pending polls in order fills the slots as the turn order demands. */
    method DrainSlots(now: int)
      modifies this
      ensures View() == Drain(old(View()), now)
    {
      if !direct {
        return;
      }
      for i := 0 to |pending|
        invariant direct && pending == old(pending)
        invariant forall j :: 0 <= j < i ==> IsRunning(active, pending[j])
        invariant Drain(View(), now) == Drain(old(View()), now)
      {
        WaitingSkips(pending, active, i);
        if |active| >= DIRECT_POLL_MAX_IN_FLIGHT {
          return;
        }
        var entry := pending[i];
        if IsRunning(active, entry) {
          continue;
        }
        ghost var before := active;
        active := active + [Running(entry, now, TimeoutAt(entry, now))];
        starts := starts + [entry];
        assert active[|before|].entry == entry;
        forall j | 0 <= j < i ensures IsRunning(active, pending[j]) {
          var k :| 0 <= k < |before| && before[k].entry == pending[j];
          assert active[k] == before[k];
        }
      }
      WaitingSkips(pending, active, |pending|);
    }

    method OnDirectDone(i: nat, reply: Reply, now: int)
      modifies this
      ensures View() == DirectDone(old(View()), i, reply, now)
    {
      if i >= |active| {
        return;
      }
      var r := active[i];
      active := active[..i] + active[i + 1..];
      if r.entry in pending {
        if reply.Refused? {
          SettleEntry(r.entry, Rejected(Failed));
        } else if Continues(r, reply.page, now) {
          pending := Without(pending, r.entry);
          pending := pending + [r.entry];
        } else {
          SettleEntry(r.entry, Resolved(reply.page));
        }
      }
      DrainSlots(now);
    }
  }

  function Fresh(directOnly: bool): Mux {
    Mux(directOnly, [], None, false, [], [], [], 0, 0)
  }

  /** The waiting list skips a running prefix. */
  lemma {:induction false} WaitingSkips(pending: seq<Entry>, active: seq<Running>, i: nat)
    requires i <= |pending| && forall j :: 0 <= j < i ==> IsRunning(active, pending[j])
    ensures Waiting(pending, active) == Waiting(pending[i..], active)
  {
    if i > 0 {
      assert IsRunning(active, pending[0]);
      forall j | 0 <= j < i - 1 ensures IsRunning(active, pending[1..][j]) {
        assert pending[1..][j] == pending[j + 1];
      }
      WaitingSkips(pending[1..], active, i - 1);
      assert pending[1..][i - 1..] == pending[i..];
    } else {
      assert pending[0..] == pending;
    }
  }
}
