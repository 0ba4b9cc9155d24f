/**
  What a consumer is handed: the pages of its own batches less what it has applied, and every live
  event itself, not a reconcile in its place, unless the transport or the backlog overflowed.
 */
module StreamHandover {
  import opened Options
  import opened Deliveries
  import opened DeliveryQueue
  import opened StreamProtocol
  import opened StreamSafety

  // ---- one call -------------------------------------------------------------------------------------

  /** An event the host has not applied: announcements carry no cursor and are always passed on. */
  predicate IsNew(e: Event, applied: Option<nat>) {
    e.Announcement? || applied.None? || e.cursor > applied.value
  }

  /** `at` are the places in `events` of what was kept: exactly the new ones, in order. */
  ghost predicate KeptAt(events: seq<Event>, kept: seq<Event>, applied: Option<nat>, at: seq<nat>) {
    && |at| == |kept|
    && (forall i :: 0 <= i < |at| ==> at[i] < |events| && kept[i] == events[at[i]])
    && (forall i, j :: 0 <= i < j < |at| ==> at[i] < at[j])
    && (forall k :: 0 <= k < |events| ==> (k in at <==> IsNew(events[k], applied)))
  }

  lemma {:induction false} NewEventsSplit(a: seq<Event>, b: seq<Event>, applied: Option<nat>)
    ensures NewEvents(a + b, applied) == NewEvents(a, applied) + NewEvents(b, applied)
  {
    if a == [] {
      assert a + b == b;
    } else {
      assert (a + b)[0] == a[0] && (a + b)[1..] == a[1..] + b;
      NewEventsSplit(a[1..], b, applied);
    }
  }

  lemma {:induction false} KeptInOrder(events: seq<Event>, applied: Option<nat>) returns (at: seq<nat>)
    ensures KeptAt(events, NewEvents(events, applied), applied, at)
  {
    if events == [] {
      at := [];
    } else {
      var n := |events| - 1;
      var front, e := events[..n], events[n];
      at := KeptInOrder(front, applied);
      assert events == front + [e];
      NewEventsSplit(front, [e], applied);
      OneNewEvent(e, applied);
      hide NewEvents;
      KeptMore(front, NewEvents(front, applied), applied, at, e);
      if IsNew(e, applied) {
        at := at + [n];
      }
    }
  }

  lemma OneNewEvent(e: Event, applied: Option<nat>)
    ensures NewEvents([e], applied) == if IsNew(e, applied) then [e] else []
  {
    assert [e][1..] == [];
  }

  lemma KeptMore(front: seq<Event>, kept: seq<Event>, applied: Option<nat>, at: seq<nat>, e: Event)
    requires KeptAt(front, kept, applied, at)
    ensures if IsNew(e, applied) then KeptAt(front + [e], kept + [e], applied, at + [|front|])
            else KeptAt(front + [e], kept, applied, at) && kept + [] == kept
  {
    assert forall k :: k in at ==> k < |front|;
  }

  /**
    A begun batch of the current generation makes one consumer call: a resync reconciles at its cursor;
    a page is handed over with its own cursor, overflow and force flags and exactly its new events in order.
    A batch of another generation makes none.
   */
  lemma BegunBatchIsHandedOver(h: Hosted) returns (at: seq<nat>)
    requires h.chain != []
    ensures var b, h' := h.chain[0], BeginTask(h);
            && h'.chain == h.chain[1..]
            && (b.generation != h.generation ==> h'.calls == h.calls && h'.busy == h.busy && h'.cursor == h.cursor)
            && (b.generation == h.generation ==> h'.busy == Some(b))
            && (b.generation == h.generation && b.delivery.Resync? ==>
                  h'.calls == h.calls + [Reconciled(b.delivery.reason, b.delivery.at)] && h'.cursor == Some(Max(OrZero(h.cursor), b.delivery.at)))
            && (b.generation == h.generation && b.delivery.Deliver? ==>
                  && |h'.calls| == |h.calls| + 1 && h'.calls[..|h.calls|] == h.calls && h'.calls[|h.calls|].Handed?
                  && h'.cursor == h.cursor
                  && var page, own := h'.calls[|h.calls|].page, b.delivery.response;
                     h'.calls[|h.calls|].force == b.delivery.force
                     && page.cursor == own.cursor && page.overflow == own.overflow && KeptAt(own.events, page.events, h.cursor, at))
  {
    at := [];
    if h.chain[0].delivery.Deliver? {
      at := KeptInOrder(h.chain[0].delivery.response.events, h.cursor);
    }
  }

  /** On the main thread a page is handed over as it was read, and a handshake reconciles. */
  lemma MainThreadHandsOver(l: Lane, page: Page, force: bool, reason: Reason, c: nat, sh: Shared, maxEvents: nat)
    requires Following(l)
    ensures var l' := LaneNext(l, MainRead(page, force), sh, maxEvents);
            l' != l ==> l'.hosted.Some? && l'.hosted.value.calls == l.hosted.value.calls + [Handed(page, force)]
    ensures var l' := LaneNext(l, MainHandshake(reason, c), sh, maxEvents);
            l' != l ==> l'.hosted.Some? && l'.hosted.value.calls == l.hosted.value.calls + [Reconciled(reason, c)]
    ensures l.hosted.value.main.value.feed.Some? && page.cursor <= l.head && PageFollows(l.hosted.value.main.value.feed, page) ==>
              LaneNext(l, MainRead(page, force), sh, maxEvents) != l
  {
    hide PageFollows;
    assert |l.hosted.value.calls + [Handed(page, force)]| != |l.hosted.value.calls|;
  }

  // ---- where overflow comes from ---------------------------------------------------------------------

  ghost predicate CalmDeliveries(ds: seq<Delivery>) {
    forall i :: 0 <= i < |ds| ==> !Overflows(ds[i])
  }

  ghost predicate CalmBatches(bs: seq<Batch>) {
    forall i :: 0 <= i < |bs| ==> !Overflows(bs[i].delivery)
  }

  ghost predicate CalmCalls(calls: seq<Call>) {
    forall i :: 0 <= i < |calls| && calls[i].Handed? ==> !calls[i].page.overflow
  }

  /** Unless it was strained nothing on its way to the consumer says overflow, and nothing handed over did. */
  ghost predicate Calm(l: Lane) {
    !l.strained ==>
      && CalmBatches(l.toHost)
      && (l.subscription.Some? ==> CalmDeliveries(l.subscription.value.queue.queued))
      && (l.hosted.Some? ==>
            && CalmBatches(l.hosted.value.chain) && CalmCalls(l.hosted.value.calls)
            && (l.hosted.value.busy.Some? ==> !Overflows(l.hosted.value.busy.value.delivery)))
  }

  lemma EnqueueCalm(q: Queue, d: Delivery, maxEvents: nat)
    requires CalmDeliveries(q.queued) && !Overflows(d) && !Crowds(q.queued, d, maxEvents) && WellFormed(q, maxEvents)
    ensures CalmDeliveries(Enqueue(q, d, maxEvents).queued)
  {
    hide EventTotal;
  }

  lemma FlushCalm(q: Queue, g: nat)
    requires CalmDeliveries(q.queued)
    ensures CalmDeliveries(Flush(q).queue.queued) && CalmBatches(Posted(g, Flush(q).sent))
  {
  }

  lemma EmitCalm(l: Lane, d: Delivery, sh: Shared, maxEvents: nat)
    requires Calm(l) && LaneInv(l, sh, maxEvents) && l.subscription.Some?
    ensures Calm(Emit(l, d, maxEvents))
  {
    hide StreamSide, PageSide, Crowds, WellFormed, Enqueue, Flush, Posted;
    var sub := l.subscription.value;
    if !l.strained && !Overflows(d) && !Crowds(sub.queue.queued, d, maxEvents) {
      EnqueueCalm(sub.queue, d, maxEvents);
      FlushCalm(Enqueue(sub.queue, d, maxEvents), sub.generation);
    }
  }

  lemma ReceiveCalm(l: Lane, sh: Shared, maxEvents: nat)
    requires Calm(l)
    ensures Calm(LaneNext(l, WorkerReceives, sh, maxEvents))
  {
    hide Flush, Posted;
    if l.toWorker != [] && l.toWorker[0].AckOf? && l.subscription.Some? && !l.strained {
      var q := l.subscription.value.queue;
      FlushCalm(q.(inFlight := None), l.toWorker[0].generation);
      NothingPosted(l.toWorker[0].generation);
    }
  }

  lemma NothingPosted(g: nat)
    ensures CalmBatches(Posted(g, []))
  {
  }

  lemma BeginCalm(l: Lane, sh: Shared, maxEvents: nat)
    requires Calm(l)
    ensures Calm(LaneNext(l, StreamProtocol.Begin, sh, maxEvents))
  {
    hide NewEvents;
  }

  lemma LaneStepCalm(l: Lane, step: LaneStep, sh: Shared, maxEvents: nat)
    requires Calm(l) && LaneInv(l, sh, maxEvents)
    ensures Calm(LaneNext(l, step, sh, maxEvents))
  {
    match step
    case Handshake(reason, c) =>
      hide Calm, LaneInv, Emit;
      if l.subscription.Some? {
        EmitCalm(l, Resync(reason, c), sh, maxEvents);
      }
    case Read(page, force) =>
      hide Calm, LaneInv, Emit;
      if l.subscription.Some? {
        EmitCalm(l, Deliver(page, force), sh, maxEvents);
      }
    case WorkerReceives => ReceiveCalm(l, sh, maxEvents);
    case Begin => BeginCalm(l, sh, maxEvents);
    case _ =>
      hide Calm, LaneInv;
      OtherStepCalm(l, step, sh, maxEvents);
  }

  lemma OtherStepCalm(l: Lane, step: LaneStep, sh: Shared, maxEvents: nat)
    requires Calm(l) && !step.Handshake? && !step.Read? && !step.WorkerReceives? && !step.Begin?
    ensures Calm(LaneNext(l, step, sh, maxEvents))
  {
    hide PageFollows, Emit, WorkerHandles, BeginTask;
    match step
    case HostReceives => HostReceivesCalm(l, sh, maxEvents);
    case _ =>
  }

  lemma HostReceivesCalm(l: Lane, sh: Shared, maxEvents: nat)
    requires Calm(l)
    ensures Calm(LaneNext(l, HostReceives, sh, maxEvents))
  {
  }

  lemma LaunchCalm(s: System, restart: bool, created: bool, p: nat)
    requires p < |s.lanes| && Calm(s.lanes[p])
    ensures |Launch(s, restart, created).lanes| == |s.lanes| && Calm(Launch(s, restart, created).lanes[p])
  {
  }

  lemma StepCalm(s: System, step: Step, cfg: Config, p: nat)
    requires SystemInv(s, cfg) && p < |s.lanes| && Calm(s.lanes[p])
    ensures |Next(s, step, cfg).lanes| == |s.lanes| && Calm(Next(s, step, cfg).lanes[p])
  {
    hide LaneNext, Launch, Recent, LaneInv;
    match step
    case OnLane(q, laneStep) =>
      if q == p {
        assert LaneInv(s.lanes[p], s.shared, cfg.maxEvents);
        LaneStepCalm(s.lanes[p], laneStep, s.shared, cfg.maxEvents);
      }
    case Start(q, created) =>
      if q < |s.lanes| {
        var n := s.shared.nextGeneration;
        var begun := System(s.shared.(nextGeneration := n + 1), s.lanes[q := Started(s.lanes[q], n, s.shared)]);
        LaunchCalm(begun, false, created, p);
      }
    case Stop(q) =>
    case Crash(at) =>
    case Relaunch(created) => LaunchCalm(s, true, created, p);
    case GiveUp =>
  }

  lemma {:induction false} EveryRunIsCalm(projects: nat, steps: seq<Step>, cfg: Config, p: nat)
    requires p < projects
    ensures |Run(projects, steps, cfg).lanes| == projects && Calm(Run(projects, steps, cfg).lanes[p])
  {
    hide Next;
    if steps != [] {
      hide Calm;
      EveryRunIsCalm(projects, steps[..|steps| - 1], cfg, p);
      EveryRunKeepsTheInvariant(projects, steps[..|steps| - 1], cfg);
      StepCalm(Run(projects, steps[..|steps| - 1], cfg), steps[|steps| - 1], cfg, p);
    }
  }

  // ---- live events reach the consumer themselves -------------------------------------------------------

  /** The newest cursor the consumer reconciled at. */
  function LastReconciled(calls: seq<Call>): nat {
    if calls == [] then 0
    else
      var before, last := LastReconciled(calls[..|calls| - 1]), calls[|calls| - 1];
      if last.Reconciled? then Max(before, last.cursor) else before
  }

  lemma {:induction false} ReconciledIsLast(calls: seq<Call>, i: nat)
    requires i < |calls| && calls[i].Reconciled?
    ensures calls[i].cursor <= LastReconciled(calls)
  {
    if i < |calls| - 1 {
      ReconciledIsLast(calls[..|calls| - 1], i);
    }
  }

  lemma {:induction false} HandedIsAmong(calls: seq<Call>, i: nat, k: nat)
    requires i < |calls| && calls[i].Handed? && k in Stamps(calls[i].page.events)
    ensures k in HandedStamps(calls)
  {
    if i < |calls| - 1 {
      HandedIsAmong(calls[..|calls| - 1], i, k);
    }
  }

  /**
    Live events are handed over themselves: over every run, if no page read from the transport said
    overflow and none came past the backlog's bound, every event after the last reconcile and up to
    where the consumer was brought was handed to it, and no page handed over said overflow.
   */
  lemma LiveEventsAreHandedOver(projects: nat, steps: seq<Step>, cfg: Config, p: nat)
    requires p < projects && p < |Run(projects, steps, cfg).lanes|
    requires var l := Run(projects, steps, cfg).lanes[p]; l.hosted.Some? && !l.strained
    ensures var h := Run(projects, steps, cfg).lanes[p].hosted.value;
            && (forall k: nat :: LastReconciled(h.calls) < k <= Reach(h) ==> k in HandedStamps(h.calls))
            && (forall i :: 0 <= i < |h.calls| && h.calls[i].Handed? ==> !h.calls[i].page.overflow)
  {
    hide Run, LastReconciled, HandedStamps;
    EveryRunIsCalm(projects, steps, cfg, p);
    ExactlyOnce(projects, steps, cfg, p);
    var h := Run(projects, steps, cfg).lanes[p].hosted.value;
    forall k: nat | LastReconciled(h.calls) < k <= Reach(h) ensures k in HandedStamps(h.calls) {
      assert Covered(h.calls, k);
      var i :| 0 <= i < |h.calls| && Covers(h.calls[i], k);
      if h.calls[i].Reconciled? {
        ReconciledIsLast(h.calls, i);
      } else {
        HandedIsAmong(h.calls, i, k);
      }
    }
  }
}
