/**
  The worker's per-project outbound queue (`ChangeStreamDeliveryQueue`): one delivery in flight,
  adjacent pages coalesced behind it, and past `maxEvents` queued events one overflow page.
 */
module DeliveryQueue {
  import opened Options
  import opened Deliveries

  datatype Sent = Sent(seqNo: nat, delivery: Delivery)

  datatype Queue = Queue(queued: seq<Delivery>, inFlight: Option<nat>, nextSeq: nat, queuedEvents: int)

  /** A queue operation's new state, with what it handed to the `send` callback. */
  datatype Outcome = Outcome(queue: Queue, sent: seq<Sent>)

  const EMPTY_QUEUE := Queue([], None, 1, 0)

  function Merged(last: Delivery, d: Delivery): Delivery
    requires last.Deliver? && d.Deliver?
  {
    Deliver(Joined(last.response, d.response), last.force || d.force)
  }

  function Coalesced(queued: seq<Delivery>, d: Delivery): seq<Delivery> {
    if |queued| > 0 && queued[|queued| - 1].Deliver? && d.Deliver?
    then queued[..|queued| - 1] + [Merged(queued[|queued| - 1], d)]
    else queued + [d]
  }

  function NewestCursor(ds: seq<Delivery>): nat {
    if ds == [] then 0 else Max(NewestCursor(ds[..|ds| - 1]), CursorOf(ds[|ds| - 1]))
  }

  function AnyForce(ds: seq<Delivery>): bool {
    ds != [] && (AnyForce(ds[..|ds| - 1]) || (ds[|ds| - 1].Deliver? && ds[|ds| - 1].force))
  }

  function OverflowPage(ds: seq<Delivery>): Delivery {
    Deliver(Page(NewestCursor(ds), [], true), AnyForce(ds))
  }

  function EventTotal(ds: seq<Delivery>): nat {
    if ds == [] then 0 else EventTotal(ds[..|ds| - 1]) + |EventsOf(ds[|ds| - 1])|
  }

  function Collapse(q: Queue): Queue {
    q.(queued := [OverflowPage(q.queued)], queuedEvents := 0)
  }

  function Flush(q: Queue): Outcome {
    if q.inFlight.Some? || q.queued == [] then Outcome(q, [])
    else
      Outcome(Queue(q.queued[1..], Some(q.nextSeq), q.nextSeq + 1, q.queuedEvents - |EventsOf(q.queued[0])|),
              [Sent(q.nextSeq, q.queued[0])])
  }

  function Enqueue(q: Queue, d: Delivery, maxEvents: nat): Queue {
    var grown := q.(queued := Coalesced(q.queued, d), queuedEvents := q.queuedEvents + |EventsOf(d)|);
    if grown.queuedEvents > maxEvents then Collapse(grown) else grown
  }

  function Push(q: Queue, d: Delivery, maxEvents: nat): Outcome {
    Flush(Enqueue(q, d, maxEvents))
  }

  function Ack(q: Queue, seqNo: nat): Outcome {
    if q.inFlight != Some(seqNo) then Outcome(q, []) else Flush(q.(inFlight := None))
  }

  // ---- the queue as the source writes it ------------------------------------------------

  class ChangeStreamDeliveryQueue {
    var queued: seq<Delivery>
    var inFlight: Option<nat>
    var nextSeq: nat
    var queuedEvents: int
    const maxEvents: nat
    /** Everything the `send` callback was given. */
    var sent: seq<Sent>

    constructor (maxEvents: nat := 1000)
      ensures this.maxEvents == maxEvents && View() == EMPTY_QUEUE && sent == []
    {
      queued, inFlight, nextSeq, queuedEvents := [], None, 1, 0;
      this.maxEvents := maxEvents;
      sent := [];
    }

    function View(): Queue
      reads this
    {
      Queue(queued, inFlight, nextSeq, queuedEvents)
    }

    method PushDelivery(delivery: Delivery)
      modifies this
      ensures View() == Push(old(View()), delivery, maxEvents).queue
      ensures sent == old(sent) + Push(old(View()), delivery, maxEvents).sent
    {
      if delivery.Deliver? && |queued| > 0 && queued[|queued| - 1].Deliver? {
        var last := queued[|queued| - 1];
        last := last.(response := Page(delivery.response.cursor,
                                       last.response.events + delivery.response.events,
                                       last.response.overflow || delivery.response.overflow));
        last := last.(force := last.force || delivery.force);
        queued := queued[|queued| - 1 := last];
      } else {
        queued := queued + [delivery];
      }
      assert queued == Coalesced(old(queued), delivery);
      if delivery.Deliver? {
        queuedEvents := queuedEvents + |delivery.response.events|;
      }
      if queuedEvents > maxEvents {
        CollapseBacklog();
      }
      FlushNext();
    }

    method Acknowledge(seqNo: nat)
      modifies this
      ensures View() == Ack(old(View()), seqNo).queue
      ensures sent == old(sent) + Ack(old(View()), seqNo).sent
    {
      if Some(seqNo) != inFlight {
        return;
      }
      inFlight := None;
      FlushNext();
    }

    method CollapseBacklog()
      modifies this
      ensures View() == Collapse(old(View())) && sent == old(sent)
    {
      var cursor, force := 0, false;
      for i := 0 to |queued|
        invariant cursor == NewestCursor(queued[..i])
        invariant force <==> AnyForce(queued[..i])
        invariant queued == old(queued)
      {
        var item := queued[i];
        assert queued[..i + 1][..i] == queued[..i];
        cursor := Max(cursor, if item.Deliver? then item.response.cursor else item.at);
        if item.Deliver? {
          force := force || item.force;
        }
      }
      assert queued[..|queued|] == queued;
      queued := [Deliver(Page(cursor, [], true), force)];
      queuedEvents := 0;
    }

    method FlushNext()
      modifies this
      ensures View() == Flush(old(View())).queue
      ensures sent == old(sent) + Flush(old(View())).sent
    {
      if inFlight.Some? || |queued| == 0 {
        return;
      }
      var next := queued[0];
      queued := queued[1..];
      if next.Deliver? {
        queuedEvents := queuedEvents - |next.response.events|;
      }
      inFlight := Some(nextSeq);
      nextSeq := nextSeq + 1;
      sent := sent + [Sent(inFlight.value, next)];
    }
  }

  // ---- every run keeps the queue well-formed --------------------------------------------

  /** What holds between any two calls. */
  ghost predicate WellFormed(q: Queue, maxEvents: nat) {
    && q.queuedEvents == EventTotal(q.queued) <= maxEvents
    && (forall i :: 0 < i < |q.queued| ==> !(q.queued[i - 1].Deliver? && q.queued[i].Deliver?))
    && (q.inFlight.None? ==> q.queued == [])
    && q.nextSeq >= 1
    && (q.inFlight.Some? ==> q.inFlight.value + 1 == q.nextSeq)
  }

  lemma {:induction false} EventTotalSplit(a: seq<Delivery>, b: seq<Delivery>)
    ensures EventTotal(a + b) == EventTotal(a) + EventTotal(b)
  {
    if b == [] {
      assert a + b == a;
    } else {
      assert (a + b)[..|a + b| - 1] == a + b[..|b| - 1];
      EventTotalSplit(a, b[..|b| - 1]);
    }
  }

  lemma EventTotalCoalesced(queued: seq<Delivery>, d: Delivery)
    ensures EventTotal(Coalesced(queued, d)) == EventTotal(queued) + |EventsOf(d)|
  {
    var c, n := Coalesced(queued, d), |queued|;
    assert c[..|c| - 1] == if |c| == n then queued[..n - 1] else queued;
  }

  lemma EventTotalHead(ds: seq<Delivery>)
    requires ds != []
    ensures EventTotal(ds) == |EventsOf(ds[0])| + EventTotal(ds[1..])
  {
    assert ds == [ds[0]] + ds[1..];
    EventTotalSplit([ds[0]], ds[1..]);
    assert EventTotal([ds[0]]) == |EventsOf(ds[0])| by {
      assert [ds[0]][..0] == [];
    }
  }

  lemma EventTotalOverflow(ds: seq<Delivery>)
    ensures EventTotal([OverflowPage(ds)]) == 0
  {
    assert [OverflowPage(ds)][..0] == [];
  }

  lemma EnqueueKeepsCounts(q: Queue, d: Delivery, maxEvents: nat)
    requires WellFormed(q, maxEvents)
    ensures var e := Enqueue(q, d, maxEvents);
            && e.queued != [] && e.queuedEvents == EventTotal(e.queued) <= maxEvents
            && (forall i :: 0 < i < |e.queued| ==> !(e.queued[i - 1].Deliver? && e.queued[i].Deliver?))
            && (q.inFlight.None? ==> |e.queued| == 1)
  {
    EventTotalCoalesced(q.queued, d);
    EventTotalOverflow(Coalesced(q.queued, d));
  }

  /**
    A push keeps the queue well-formed, sends at most one delivery, numbers it with the next
    sequence number, and never sends a page of more than `maxEvents` events.
   */
  lemma PushKeepsWellFormed(q: Queue, d: Delivery, maxEvents: nat)
    requires WellFormed(q, maxEvents)
    ensures var r := Push(q, d, maxEvents);
            && WellFormed(r.queue, maxEvents)
            && r.queue.nextSeq == q.nextSeq + |r.sent| && |r.sent| == (if q.inFlight.None? then 1 else 0)
            && (forall s :: s in r.sent ==>
                  s.seqNo == q.nextSeq && r.queue.inFlight == Some(s.seqNo) && |EventsOf(s.delivery)| <= maxEvents)
            && (q.inFlight.Some? ==> r.queue.inFlight == q.inFlight && r.queue.queued != [])
  {
    EnqueueKeepsCounts(q, d, maxEvents);
    var e := Enqueue(q, d, maxEvents);
    EventTotalHead(e.queued);
  }

  /** An acknowledgement that is not the delivery in flight changes nothing; the right one sends the next. */
  lemma AckKeepsWellFormed(q: Queue, seqNo: nat, maxEvents: nat)
    requires WellFormed(q, maxEvents)
    ensures var r := Ack(q, seqNo);
            && WellFormed(r.queue, maxEvents)
            && (q.inFlight != Some(seqNo) ==> r == Outcome(q, []))
            && r.queue.nextSeq == q.nextSeq + |r.sent|
            && |r.sent| == (if q.inFlight == Some(seqNo) && q.queued != [] then 1 else 0)
            && (forall s :: s in r.sent ==>
                  s.seqNo == q.nextSeq && r.queue.inFlight == Some(s.seqNo) && |EventsOf(s.delivery)| <= maxEvents)
            && (q.inFlight == Some(seqNo) && q.queued == [] ==> r.queue.inFlight.None?)
  {
    if q.inFlight == Some(seqNo) && q.queued != [] {
      EventTotalHead(q.queued);
    }
  }

  // ---- every run refines the raw stream -------------------------------------------------

  datatype Op = PushOp(delivery: Delivery) | AckOp(seqNo: nat)

  /** A push, and whether it would have taken the backlog past the bound. */
  datatype Pushed = Pushed(delivery: Delivery, crowded: bool)

  /** A run's state: the queue, what it sent, and what was pushed. */
  datatype Trace = Trace(queue: Queue, sent: seq<Sent>, pushed: seq<Pushed>)

  /** The backlog and the new delivery hold more than `maxEvents` events. */
  predicate Crowds(queued: seq<Delivery>, d: Delivery, maxEvents: nat) {
    EventTotal(queued) + |EventsOf(d)| > maxEvents
  }

  function Continue(t: Trace, op: Op, maxEvents: nat): Trace {
    match op
    case PushOp(d) =>
      var r := Push(t.queue, d, maxEvents);
      Trace(r.queue, t.sent + r.sent, t.pushed + [Pushed(d, Crowds(t.queue.queued, d, maxEvents))])
    case AckOp(n) =>
      var r := Ack(t.queue, n);
      Trace(r.queue, t.sent + r.sent, t.pushed)
  }

  function RunOps(ops: seq<Op>, maxEvents: nat): Trace {
    if ops == [] then Trace(EMPTY_QUEUE, [], [])
    else
      Continue(RunOps(ops[..|ops| - 1], maxEvents), ops[|ops| - 1], maxEvents)
  }

  /**
    Over every run: the queue is well-formed, sequence numbers are 1, 2, 3, … with only the
    newest possibly unacknowledged, and no sent page exceeds `maxEvents` events.
   */
  lemma {:induction false} EveryRunIsWellFormed(ops: seq<Op>, maxEvents: nat)
    ensures var t := RunOps(ops, maxEvents);
            && WellFormed(t.queue, maxEvents)
            && t.queue.nextSeq == |t.sent| + 1
            && (forall i :: 0 <= i < |t.sent| ==>
                  t.sent[i].seqNo == i + 1 && |EventsOf(t.sent[i].delivery)| <= maxEvents)
            && (t.queue.inFlight.Some? ==> t.queue.inFlight.value == |t.sent|)
  {
    if ops != [] {
      EveryRunIsWellFormed(ops[..|ops| - 1], maxEvents);
      var t := RunOps(ops[..|ops| - 1], maxEvents);
      match ops[|ops| - 1]
      case PushOp(d) => PushKeepsWellFormed(t.queue, d, maxEvents);
      case AckOp(n) => AckKeepsWellFormed(t.queue, n, maxEvents);
    } else {
      assert EventTotal(EMPTY_QUEUE.queued) == 0;
    }
  }

  type Group = seq<Pushed>

  function Flatten(groups: seq<Group>): seq<Pushed> {
    if groups == [] then [] else Flatten(groups[..|groups| - 1]) + groups[|groups| - 1]
  }

  /** The deliveries of a group of pushes. */
  function Plain(group: Group): (ds: seq<Delivery>)
    ensures |ds| == |group| && forall i :: 0 <= i < |ds| ==> ds[i] == group[i].delivery
  {
    seq(|group|, i requires 0 <= i < |group| => group[i].delivery)
  }

  function AllEvents(ds: seq<Delivery>): seq<Event> {
    if ds == [] then [] else AllEvents(ds[..|ds| - 1]) + EventsOf(ds[|ds| - 1])
  }

  ghost predicate AnyOverflow(ds: seq<Delivery>) {
    exists i :: 0 <= i < |ds| && ds[i].Deliver? && ds[i].response.overflow
  }

  /** How many pushes of a group an overflow page swallowed: all up to the last one that crowded the backlog. */
  function Swallowed(group: Group): (k: nat)
    ensures k <= |group|
  {
    if group == [] then 0
    else if group[|group| - 1].crowded then |group|
    else Swallowed(group[..|group| - 1])
  }

  /** The events of the pushes that were not swallowed, in order; overflow exactly if some were, or a push said so. */
  ghost predicate Keeps(out: Page, group: Group) {
    var k, ds := Swallowed(group), Plain(group);
    && out.events == AllEvents(ds[k..])
    && (out.overflow <==> k > 0 || AnyOverflow(ds))
    && (forall i :: k <= i < |ds| ==> ds[i].Deliver?)
  }

  /**
    One outgoing delivery stands for a run of consecutive pushes: it carries the newest of their
    cursors, the force flag exactly if one of them did, and each of their events exactly once in
    order, except those up to a push that took the backlog past its bound. It says overflow exactly
    for those, or when a push did.
   */
  ghost predicate Summarizes(out: Delivery, group: Group) {
    && group != []
    && CursorOf(out) == CursorOf(group[|group| - 1].delivery)
    && (forall i :: 0 <= i < |group| ==> CursorOf(group[i].delivery) <= CursorOf(out))
    && (match out
        case Resync(_, _) => group == [Pushed(out, false)]
        case Deliver(response, force) => (force <==> AnyForce(Plain(group))) && Keeps(response, group))
  }

  ghost predicate Nondecreasing(ps: seq<Pushed>) {
    forall i, j :: 0 <= i < j < |ps| ==> CursorOf(ps[i].delivery) <= CursorOf(ps[j].delivery)
  }

  ghost predicate Refines(outs: seq<Delivery>, groups: seq<Group>) {
    |outs| == |groups| && forall i :: 0 <= i < |outs| ==> Summarizes(outs[i], groups[i])
  }

  function DeliveriesOf(sent: seq<Sent>): seq<Delivery> {
    seq(|sent|, i requires 0 <= i < |sent| => sent[i].delivery)
  }

  lemma SingletonSummary(d: Delivery)
    ensures Summarizes(d, [Pushed(d, false)])
  {
    var one := [Pushed(d, false)];
    assert one[..0] == [] && Plain(one) == [d];
    if d.Deliver? {
      assert [d][0..] == [d] && [d][..0] == [];
      assert AllEvents([d]) == d.response.events;
      assert AnyOverflow([d]) <==> d.response.overflow;
    }
  }

  lemma SwallowedMore(group: Group, p: Pushed)
    ensures Swallowed(group + [p]) == if p.crowded then |group| + 1 else Swallowed(group)
    ensures Plain(group + [p]) == Plain(group) + [p.delivery]
  {
    hide Plain;
    var more := group + [p];
    assert more[..|group|] == group && more[|group|] == p;
    PlainSplit(group, [p]);
    assert Plain([p]) == [p.delivery];
  }

  lemma PlainSplit(a: Group, b: Group)
    ensures Plain(a + b) == Plain(a) + Plain(b)
  {
  }

  lemma OverflowMore(ds: seq<Delivery>, d: Delivery)
    ensures AnyOverflow(ds + [d]) <==> AnyOverflow(ds) || (d.Deliver? && d.response.overflow)
  {
    var more := ds + [d];
    if AnyOverflow(ds) {
      var i :| 0 <= i < |ds| && ds[i].Deliver? && ds[i].response.overflow;
      assert more[i] == ds[i];
    }
    assert more[|ds|] == d;
  }

  lemma MergedKeeps(out: Page, group: Group, d: Delivery)
    requires Keeps(out, group) && d.Deliver?
    ensures Keeps(Joined(out, d.response), group + [Pushed(d, false)])
  {
    hide AnyOverflow;
    var wider, ds, k := group + [Pushed(d, false)], Plain(group), Swallowed(group);
    SwallowedMore(group, Pushed(d, false));
    OverflowMore(ds, d);
    assert (ds + [d])[k..] == ds[k..] + [d];
    assert (ds[k..] + [d])[..|ds[k..]|] == ds[k..];
  }

  lemma MergedSummary(out: Delivery, group: Group, d: Delivery)
    requires Summarizes(out, group) && out.Deliver? && d.Deliver?
    requires CursorOf(out) <= CursorOf(d)
    ensures Summarizes(Merged(out, d), group + [Pushed(d, false)])
  {
    hide Keeps;
    var wider := group + [Pushed(d, false)];
    MergedKeeps(out.response, group, d);
    SwallowedMore(group, Pushed(d, false));
    assert (Plain(group) + [d])[..|group|] == Plain(group);
    assert forall i :: 0 <= i < |group| ==> wider[i] == group[i];
  }

  lemma {:induction false} FlattenAppend(a: seq<Group>, b: seq<Group>)
    ensures Flatten(a + b) == Flatten(a) + Flatten(b)
  {
    if b == [] {
      assert a + b == a;
    } else {
      assert (a + b)[..|a + b| - 1] == a + b[..|b| - 1];
      FlattenAppend(a, b[..|b| - 1]);
    }
  }

  /** A push that crowded the backlog, in place of the same push that did not. */
  function Crowded(all: seq<Pushed>): (r: seq<Pushed>)
    requires all != []
    ensures |r| == |all| && Plain(r) == Plain(all) && r[|r| - 1].crowded
  {
    all[..|all| - 1] + [all[|all| - 1].(crowded := true)]
  }

  /** Collapsing the backlog stands for everything the backlog stood for. */
  lemma CollapsedSummary(outs: seq<Delivery>, groups: seq<Group>)
    requires outs != [] && Refines(outs, groups) && Nondecreasing(Flatten(groups))
    ensures Flatten(groups) != [] && Summarizes(OverflowPage(outs), Crowded(Flatten(groups)))
  {
    hide Summarizes, Keeps, Crowded, Plain, AnyForce, NewestCursor, Nondecreasing;
    var all, n := Flatten(groups), |outs| - 1;
    var last := groups[n];
    SummaryCursor(outs[n], last);
    assert all == Flatten(groups[..n]) + last;
    assert all[|all| - 1] == last[|last| - 1];
    NewestIsLast(outs, groups);
    ForceIsKept(outs, groups);
    CollapsedKeeps(OverflowPage(outs).response, Crowded(all));
    PageSummarizes(OverflowPage(outs), all);
  }

  lemma PageSummarizes(page: Delivery, all: Group)
    requires all != [] && Nondecreasing(all) && page.Deliver? && Keeps(page.response, Crowded(all))
    requires CursorOf(page) == CursorOf(all[|all| - 1].delivery) && (page.force <==> AnyForce(Plain(all)))
    ensures Summarizes(page, Crowded(all))
  {
    hide Keeps;
  }

  lemma CollapsedKeeps(out: Page, group: Group)
    requires group != [] && group[|group| - 1].crowded && out.events == [] && out.overflow
    ensures Keeps(out, group)
  {
    assert Plain(group)[|group|..] == [];
  }

  lemma SummaryCursor(out: Delivery, group: Group)
    requires Summarizes(out, group)
    ensures group != [] && CursorOf(out) == CursorOf(group[|group| - 1].delivery)
  {
    hide Keeps, AnyForce;
  }

  lemma {:induction false} NewestIsLast(outs: seq<Delivery>, groups: seq<Group>)
    requires outs != [] && Refines(outs, groups) && Nondecreasing(Flatten(groups))
    ensures NewestCursor(outs) == CursorOf(outs[|outs| - 1])
  {
    hide Summarizes;
    var n := |outs| - 1;
    if n > 0 {
      var front, before, all := Flatten(groups[..n]), groups[n - 1], Flatten(groups);
      assert all == front + groups[n];
      assert Nondecreasing(front) by { assert forall i :: 0 <= i < |front| ==> all[i] == front[i]; }
      NewestIsLast(outs[..n], groups[..n]);
      SummaryCursor(outs[n - 1], before);
      SummaryCursor(outs[n], groups[n]);
      assert front == Flatten(groups[..n][..n - 1]) + before;
      assert all[|front| - 1] == before[|before| - 1] && all[|all| - 1] == groups[n][|groups[n]| - 1];
    } else {
      assert outs[..n] == [];
    }
  }

  lemma {:induction false} ForceIsKept(outs: seq<Delivery>, groups: seq<Group>)
    requires Refines(outs, groups)
    ensures AnyForce(outs) <==> AnyForce(Plain(Flatten(groups)))
  {
    hide Keeps;
    if outs != [] {
      var n := |outs| - 1;
      ForceIsKept(outs[..n], groups[..n]);
      ForceSplits(outs[..n], [outs[n]]);
      assert outs == outs[..n] + [outs[n]];
      assert Plain(Flatten(groups[..n]) + groups[n]) == Plain(Flatten(groups[..n])) + Plain(groups[n]);
      ForceSplits(Plain(Flatten(groups[..n])), Plain(groups[n]));
      OneForce(outs[n], groups[n]);
    }
  }

  lemma OneForce(out: Delivery, group: Group)
    requires Summarizes(out, group)
    ensures AnyForce([out]) <==> AnyForce(Plain(group))
  {
    assert [out][..0] == [];
    if out.Resync? {
      assert Plain(group) == [out];
    }
  }

  lemma {:induction false} ForceSplits(a: seq<Delivery>, b: seq<Delivery>)
    ensures AnyForce(a + b) <==> AnyForce(a) || AnyForce(b)
  {
    if b == [] {
      assert a + b == a;
    } else {
      assert (a + b)[..|a + b| - 1] == a + b[..|b| - 1];
      ForceSplits(a, b[..|b| - 1]);
    }
  }

  lemma WiderGroup(queued: seq<Delivery>, d: Delivery, groups: seq<Group>) returns (wider: seq<Group>)
    requires Refines(queued, groups) && Nondecreasing(Flatten(groups) + [Pushed(d, false)])
    requires queued != [] && queued[|queued| - 1].Deliver? && d.Deliver?
    ensures Refines(Coalesced(queued, d), wider)
    ensures Flatten(wider) == Flatten(groups) + [Pushed(d, false)]
  {
    hide Summarizes;
    var n, p := |groups| - 1, Pushed(d, false);
    var last, all := groups[n], Flatten(groups) + [p];
    SummaryCursor(queued[n], last);
    assert all[|all| - 2] == last[|last| - 1] && all[|all| - 1] == p;
    MergedSummary(queued[n], last, d);
    wider := groups[..n] + [last + [p]];
    assert wider[..n] == groups[..n];
    assert Flatten(wider) == Flatten(groups[..n]) + (last + [p]);
    assert Flatten(groups[..n]) + (last + [p]) == (Flatten(groups[..n]) + last) + [p];
  }

  /** One push extends the grouping: a new group, or a wider last group. */
  lemma CoalescedRefines(queued: seq<Delivery>, d: Delivery, groups: seq<Group>)
    returns (wider: seq<Group>)
    requires Refines(queued, groups) && Nondecreasing(Flatten(groups) + [Pushed(d, false)])
    ensures Refines(Coalesced(queued, d), wider)
    ensures Flatten(wider) == Flatten(groups) + [Pushed(d, false)]
  {
    hide Summarizes, Nondecreasing;
    if queued != [] && queued[|queued| - 1].Deliver? && d.Deliver? {
      wider := WiderGroup(queued, d, groups);
    } else {
      SingletonSummary(d);
      wider := groups + [[Pushed(d, false)]];
      assert wider[..|groups|] == groups;
    }
  }

  lemma OneGroup(out: Delivery, group: Group)
    requires Summarizes(out, group)
    ensures Refines([out], [group]) && Flatten([group]) == group
  {
    hide Summarizes;
    assert [group][..0] == [];
  }

  lemma EnqueueRefines(q: Queue, d: Delivery, maxEvents: nat, groups: seq<Group>)
    returns (wider: seq<Group>)
    requires q.queuedEvents == EventTotal(q.queued)
    requires Refines(q.queued, groups) && Nondecreasing(Flatten(groups) + [Pushed(d, false)])
    ensures Refines(Enqueue(q, d, maxEvents).queued, wider)
    ensures Flatten(wider) == Flatten(groups) + [Pushed(d, Crowds(q.queued, d, maxEvents))]
  {
    hide Summarizes, Coalesced;
    wider := CoalescedRefines(q.queued, d, groups);
    if Crowds(q.queued, d, maxEvents) {
      assert Coalesced(q.queued, d) != [] by { CoalescedSome(q.queued, d); }
      CollapsedSummary(Coalesced(q.queued, d), wider);
      var page, all := OverflowPage(Coalesced(q.queued, d)), Crowded(Flatten(wider));
      OneGroup(page, all);
      assert (Flatten(groups) + [Pushed(d, false)])[..|Flatten(groups)|] == Flatten(groups);
      wider := [all];
      assert Enqueue(q, d, maxEvents).queued == [page];
    }
  }

  lemma CoalescedSome(queued: seq<Delivery>, d: Delivery)
    ensures Coalesced(queued, d) != []
  {
  }

  /** Flushing moves the front of the queue to the wire and changes nothing else of the stream. */
  lemma FlushKeepsStream(q: Queue, sent: seq<Sent>)
    ensures DeliveriesOf(sent + Flush(q).sent) + Flush(q).queue.queued == DeliveriesOf(sent) + q.queued
  {
    var r := Flush(q);
    if r.sent != [] {
      assert q.queued == [q.queued[0]] + q.queued[1..];
      assert DeliveriesOf(sent + r.sent) == DeliveriesOf(sent) + [q.queued[0]];
    } else {
      assert sent + r.sent == sent;
    }
  }

  lemma RefinesSplit(a: seq<Delivery>, b: seq<Delivery>, ga: seq<Group>, gb: seq<Group>)
    requires |a| == |ga|
    ensures Refines(a + b, ga + gb) <==> Refines(a, ga) && Refines(b, gb)
  {
    hide Summarizes;
    var ab, gab := a + b, ga + gb;
    assert forall i :: 0 <= i < |a| ==> ab[i] == a[i] && gab[i] == ga[i];
    if Refines(ab, gab) {
      assert forall i :: 0 <= i < |a| ==> a[i] == ab[i] && ga[i] == gab[i];
      assert forall i :: 0 <= i < |b| ==> b[i] == ab[|a| + i] && gb[i] == gab[|a| + i];
    }
  }

  lemma NondecreasingTail(a: seq<Pushed>, b: seq<Pushed>, d: Delivery, crowded: bool)
    requires Nondecreasing(a + (b + [Pushed(d, crowded)]))
    ensures Nondecreasing(a) && Nondecreasing(b + [Pushed(d, false)])
  {
    var ab, c := a + (b + [Pushed(d, crowded)]), b + [Pushed(d, false)];
    assert forall i :: 0 <= i < |a| ==> a[i] == ab[i];
    assert forall i :: 0 <= i < |c| ==> c[i].delivery == ab[|a| + i].delivery;
  }

  lemma StepRefines(t: Trace, op: Op, maxEvents: nat, groups: seq<Group>)
    returns (wider: seq<Group>)
    requires t.queue.queuedEvents == EventTotal(t.queue.queued)
    requires Flatten(groups) == t.pushed && Refines(DeliveriesOf(t.sent) + t.queue.queued, groups)
    requires Nondecreasing(Continue(t, op, maxEvents).pushed)
    ensures var t' := Continue(t, op, maxEvents);
            Flatten(wider) == t'.pushed && Refines(DeliveriesOf(t'.sent) + t'.queue.queued, wider)
  {
    hide Summarizes, Crowds, Enqueue, EventTotal;
    var outs := DeliveriesOf(t.sent);
    var gone, waiting := groups[..|outs|], groups[|outs|..];
    assert groups == gone + waiting;
    FlattenAppend(gone, waiting);
    RefinesSplit(outs, t.queue.queued, gone, waiting);
    var middle := t.queue;
    match op {
      case PushOp(d) =>
        var p := Pushed(d, Crowds(t.queue.queued, d, maxEvents));
        assert Flatten(gone) + (Flatten(waiting) + [p]) == t.pushed + [p];
        NondecreasingTail(Flatten(gone), Flatten(waiting), d, p.crowded);
        waiting := EnqueueRefines(t.queue, d, maxEvents, waiting);
        middle := Enqueue(t.queue, d, maxEvents);
        FlushKeepsStream(middle, t.sent);
      case AckOp(n) =>
        if t.queue.inFlight == Some(n) {
          FlushKeepsStream(t.queue.(inFlight := None), t.sent);
        } else {
          assert t.sent + [] == t.sent;
        }
    }
    FlattenAppend(gone, waiting);
    RefinesSplit(outs, middle.queued, gone, waiting);
    wider := gone + waiting;
  }

  /**
    Coalescing refines the raw stream: for every run whose pushed cursors never go back, what was
    sent followed by what is queued is the pushed stream cut into consecutive groups, each group
    summarized by its delivery. Nothing is reordered or repeated, and nothing is lost but what a push
    past the bound made one overflow page of.
   */
  lemma {:induction false} EveryRunRefinesTheStream(ops: seq<Op>, maxEvents: nat)
    returns (groups: seq<Group>)
    requires Nondecreasing(RunOps(ops, maxEvents).pushed)
    ensures var t := RunOps(ops, maxEvents);
            Flatten(groups) == t.pushed && Refines(DeliveriesOf(t.sent) + t.queue.queued, groups)
  {
    hide Summarizes, Continue, WellFormed;
    if ops == [] {
      groups := [];
    } else {
      var t, op, t' := RunOps(ops[..|ops| - 1], maxEvents), ops[|ops| - 1], RunOps(ops, maxEvents);
      NondecreasingBefore(t, op, maxEvents);
      groups := EveryRunRefinesTheStream(ops[..|ops| - 1], maxEvents);
      EveryRunIsWellFormed(ops[..|ops| - 1], maxEvents);
      assert t.queue.queuedEvents == EventTotal(t.queue.queued) by { CountIsTrue(t.queue, maxEvents); }
      groups := StepRefines(t, op, maxEvents, groups);
    }
  }

  lemma CountIsTrue(q: Queue, maxEvents: nat)
    requires WellFormed(q, maxEvents)
    ensures q.queuedEvents == EventTotal(q.queued)
  {
  }

  lemma NondecreasingBefore(t: Trace, op: Op, maxEvents: nat)
    requires Nondecreasing(Continue(t, op, maxEvents).pushed)
    ensures Nondecreasing(t.pushed)
  {
    hide Push, Ack;
    var more := Continue(t, op, maxEvents).pushed;
    assert forall i :: 0 <= i < |t.pushed| ==> t.pushed[i] == more[i];
  }

  lemma {:induction false} AllEventsSplit(a: seq<Delivery>, b: seq<Delivery>)
    ensures AllEvents(a + b) == AllEvents(a) + AllEvents(b)
  {
    if b == [] {
      assert a + b == a;
    } else {
      var front, last := b[..|b| - 1], b[|b| - 1];
      assert (a + b)[..|a + b| - 1] == a + front && (a + b)[|a + b| - 1] == last;
      AllEventsSplit(a, front);
      var x, y, z := AllEvents(a), AllEvents(front), EventsOf(last);
      assert (x + y) + z == x + (y + z);
    }
  }

  lemma {:induction false} NoneSwallowed(group: Group)
    requires forall p :: p in group ==> !p.crowded
    ensures Swallowed(group) == 0
  {
    if group != [] {
      assert group[|group| - 1] in group;
      NoneSwallowed(group[..|group| - 1]);
    }
  }

  lemma WholeGroup(out: Delivery, group: Group)
    requires Summarizes(out, group) && forall p :: p in group ==> !p.crowded
    ensures EventsOf(out) == AllEvents(Plain(group))
    ensures out.Deliver? && out.response.overflow <==> AnyOverflow(Plain(group))
  {
    hide AnyOverflow;
    NoneSwallowed(group);
    assert Plain(group)[0..] == Plain(group);
    if out.Resync? {
      assert Plain(group) == [out] && [out][..0] == [];
      assert AllEvents([out]) == [];
      assert !AnyOverflow([out]) by { NoOverflowIn(out); }
    }
  }

  lemma NoOverflowIn(d: Delivery)
    requires d.Resync?
    ensures !AnyOverflow([d])
  {
  }

  lemma {:induction false} WholeGroups(outs: seq<Delivery>, groups: seq<Group>)
    requires Refines(outs, groups) && forall p :: p in Flatten(groups) ==> !p.crowded
    ensures AllEvents(outs) == AllEvents(Plain(Flatten(groups)))
    ensures AnyOverflow(outs) <==> AnyOverflow(Plain(Flatten(groups)))
  {
    hide Summarizes, AnyOverflow, Plain, AllEvents;
    if outs == [] {
      assert Plain(Flatten(groups)) == outs;
      NoOverflow();
    } else {
      var n := |outs| - 1;
      var front, last := Flatten(groups[..n]), groups[n];
      assert Flatten(groups) == front + last;
      assert forall p :: p in front || p in last ==> p in front + last;
      WholeGroups(outs[..n], groups[..n]);
      WholeGroup(outs[n], last);
      PlainSplit(front, last);
      AllEventsSplit(Plain(front), Plain(last));
      OverflowSplits(Plain(front), Plain(last));
      OverflowMore(outs[..n], outs[n]);
      LastEvents(outs);
      assert outs == outs[..n] + [outs[n]];
    }
  }

  lemma LastEvents(outs: seq<Delivery>)
    requires outs != []
    ensures AllEvents(outs) == AllEvents(outs[..|outs| - 1]) + EventsOf(outs[|outs| - 1])
  {
  }

  lemma NoOverflow()
    ensures !AnyOverflow([])
  {
  }

  lemma OverflowSplits(a: seq<Delivery>, b: seq<Delivery>)
    ensures AnyOverflow(a + b) <==> AnyOverflow(a) || AnyOverflow(b)
  {
    var ab := a + b;
    if AnyOverflow(a) {
      var i :| 0 <= i < |a| && a[i].Deliver? && a[i].response.overflow;
      assert ab[i] == a[i];
    }
    if AnyOverflow(b) {
      var i :| 0 <= i < |b| && b[i].Deliver? && b[i].response.overflow;
      assert ab[|a| + i] == b[i];
    }
  }

  /**
    A run whose backlog never goes past the bound loses nothing: what was sent and queued holds every
    pushed event in order, and says overflow exactly if a push did.
   */
  lemma UncrowdedRunKeepsEveryEvent(ops: seq<Op>, maxEvents: nat)
    requires Nondecreasing(RunOps(ops, maxEvents).pushed)
    requires forall p :: p in RunOps(ops, maxEvents).pushed ==> !p.crowded
    ensures var t := RunOps(ops, maxEvents);
            && AllEvents(DeliveriesOf(t.sent) + t.queue.queued) == AllEvents(Plain(t.pushed))
            && (AnyOverflow(DeliveriesOf(t.sent) + t.queue.queued) <==> AnyOverflow(Plain(t.pushed)))
  {
    hide AnyOverflow, Refines;
    var groups := EveryRunRefinesTheStream(ops, maxEvents);
    var t := RunOps(ops, maxEvents);
    WholeGroups(DeliveriesOf(t.sent) + t.queue.queued, groups);
  }

  // ---- what the queue does to a contiguous stream ---------------------------------------

  lemma {:induction false} NewestOfChain(from: Option<nat>, ds: seq<Delivery>)
    requires ds != [] && Chain(from, ds)
    ensures NewestCursor(ds) == CursorOf(ds[|ds| - 1])
  {
    var n := |ds| - 1;
    if n > 0 {
      assert ds == ds[..n] + [ds[n]];
      ChainSplit(from, ds[..n], [ds[n]]);
      NewestOfChain(from, ds[..n]);
    }
  }

  lemma CoalescedKeepsChain(from: Option<nat>, queued: seq<Delivery>, d: Delivery)
    requires Chain(from, queued + [d])
    ensures var c := Coalesced(queued, d);
            c != [] && Chain(from, c) && CursorOf(c[|c| - 1]) == CursorOf(d)
  {
    var n := |queued| - 1;
    if n >= 0 && queued[n].Deliver? && d.Deliver? {
      var front, last := queued[..n], queued[n];
      assert queued + [d] == front + [last, d];
      ChainSplit(from, front, [last, d]);
      assert [last, d][1..] == [d];
      JoinedFollows(EndOf(from, front), last.response, d.response);
      ChainSplit(from, front, [Merged(last, d)]);
    }
  }

  /** If the backlog and a new delivery carry a stream on from `from`, so does the backlog after the push. */
  lemma EnqueueKeepsChain(from: Option<nat>, q: Queue, d: Delivery, maxEvents: nat)
    requires Chain(from, q.queued + [d])
    ensures var e := Enqueue(q, d, maxEvents);
            Chain(from, e.queued) && EndOf(from, e.queued) == Some(CursorOf(d))
  {
    CoalescedKeepsChain(from, q.queued, d);
    if q.queuedEvents + |EventsOf(d)| > maxEvents {
      var c := Coalesced(q.queued, d);
      NewestOfChain(from, c);
      ChainCursors(from, c);
      var page := OverflowPage(c);
      assert Stamps(page.response.events) == [];
      assert Follows(from, page) && [page][1..] == [];
    }
  }
}
