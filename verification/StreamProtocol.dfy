/**
  The change-stream worker protocol: the page's host, the worker runtime, the message channels
  between them and the transport that feeds each project, as one state machine. Each project has
  a lane; lanes share the worker's life, the fallback mode and the generation counter.
 */
module StreamProtocol {
  import opened Options
  import opened Deliveries
  import opened DeliveryQueue

  // ---- state ----------------------------------------------------------------------------

  datatype ToWorker =
    | Open(generation: nat, resume: Option<nat>)
    | Close(generation: nat)
    | AckOf(generation: nat, seqNo: nat)

  datatype Batch = Batch(generation: nat, seqNo: nat, delivery: Delivery)

  /** A project the worker follows; `feed` is its transport's replay cursor, unknown after an outage. */
  datatype Subscription = Subscription(generation: nat, queue: Queue, feed: Option<nat>)

  /** One call the host made on a project's consumer. */
  datatype Call = Reconciled(reason: Reason, cursor: nat) | Handed(page: Page, force: bool)

  /** The main-thread stream after fallback: its replay cursor and how far it brought the consumer. */
  datatype MainStream = MainStream(feed: Option<nat>, reached: nat)

  /**
    A project the page follows. `chain` holds the deliveries chained on `processing` that have not
    started, `busy` the one whose consumer call is awaited; once such a call has `rejected`, nothing
    chained behind it ever starts. `position` is bookkeeping: how far into the current generation's
    stream the host has got.
   */
  datatype Hosted = Hosted(
    generation: nat,
    cursor: Option<nat>,
    position: Option<nat>,
    chain: seq<Batch>,
    busy: Option<Batch>,
    calls: seq<Call>,
    main: Option<MainStream>,
    rejected: bool)

  /**
    One project: the server's newest cursor, the newest cursor it answered with, and both ends.
    `strained` records that a page read from the transport said overflow, or that one came when the
    worker's backlog had no room for its events.
   */
  datatype Lane = Lane(
    head: nat,
    served: nat,
    hosted: Option<Hosted>,
    toWorker: seq<ToWorker>,
    subscription: Option<Subscription>,
    toHost: seq<Batch>,
    strained: bool)

  /** `worker` is false for good after fallback; `up` says a worker exists. */
  datatype Shared = Shared(worker: bool, up: bool, restartArmed: bool, nextGeneration: nat, crashes: seq<nat>)

  datatype System = System(shared: Shared, lanes: seq<Lane>)

  datatype Config = Config(maxEvents: nat, maxRestarts: nat, restartWindow: nat)

  // ---- lane steps -----------------------------------------------------------------------

  datatype LaneStep =
    | Record
    | Handshake(reason: Reason, cursor: nat)
    | Read(page: Page, force: bool)
    | Outage
    | WorkerReceives
    | HostReceives
    | Begin
    | Finish
    | Reject
    | LateAck(generation: nat, seqNo: nat)
    | MainStarts
    | MainHandshake(reason: Reason, cursor: nat)
    | MainRead(page: Page, force: bool)
    | MainOutage

  function Posted(generation: nat, sent: seq<Sent>): seq<Batch> {
    seq(|sent|, i requires 0 <= i < |sent| => Batch(generation, sent[i].seqNo, sent[i].delivery))
  }

  function Emit(l: Lane, d: Delivery, maxEvents: nat): Lane
    requires l.subscription.Some?
  {
    var sub := l.subscription.value;
    var r := Push(sub.queue, d, maxEvents);
    l.(subscription := Some(Subscription(sub.generation, r.queue, Some(CursorOf(d)))),
       toHost := l.toHost + Posted(sub.generation, r.sent),
       served := Max(l.served, CursorOf(d)),
       strained := l.strained || Overflows(d) || Crowds(sub.queue.queued, d, maxEvents))
  }

  predicate Overflows(d: Delivery) {
    d.Deliver? && d.response.overflow
  }

  function WorkerHandles(l: Lane, m: ToWorker): Lane {
    match m
    case Open(g, resume) =>
      if l.subscription.Some? && l.subscription.value.generation >= g then l
      else l.(subscription := Some(Subscription(g, EMPTY_QUEUE, resume)))
    case Close(g) =>
      if l.subscription.Some? && l.subscription.value.generation == g then l.(subscription := None) else l
    case AckOf(g, n) =>
      if l.subscription.Some? && l.subscription.value.generation == g then
        var sub := l.subscription.value;
        var r := Ack(sub.queue, n);
        l.(subscription := Some(sub.(queue := r.queue)), toHost := l.toHost + Posted(g, r.sent))
      else l
  }

  /** What of a page is new to a host that has applied everything up to `applied`. */
  function NewEvents(events: seq<Event>, applied: Option<nat>): seq<Event> {
    if events == [] then []
    else if applied.None? || events[0].Announcement? || events[0].cursor > applied.value
    then [events[0]] + NewEvents(events[1..], applied)
    else NewEvents(events[1..], applied)
  }

  function Advanced(cursor: Option<nat>, to: nat): Option<nat> {
    Some(Max(OrZero(cursor), to))
  }

  function BeginTask(h: Hosted): Hosted
    requires h.chain != []
  {
    var b, rest := h.chain[0], h.chain[1..];
    if b.generation != h.generation then h.(chain := rest)
    else
      match b.delivery
      case Resync(reason, at) =>
        h.(chain := rest, busy := Some(b), cursor := Advanced(h.cursor, at), calls := h.calls + [Reconciled(reason, at)])
      case Deliver(p, force) =>
        h.(chain := rest, busy := Some(b),
           calls := h.calls + [Handed(p.(events := NewEvents(p.events, h.cursor)), force)])
  }

  function FinishTask(h: Hosted): Hosted
    requires h.busy.Some?
  {
    var b := h.busy.value;
    var position := if b.generation == h.generation then Some(CursorOf(b.delivery)) else h.position;
    var cursor := if b.delivery.Deliver? then Advanced(h.cursor, CursorOf(b.delivery)) else h.cursor;
    h.(busy := None, position := position, cursor := cursor)
  }

  ghost function LaneNext(l: Lane, step: LaneStep, sh: Shared, maxEvents: nat): Lane {
    match step
    case Record => l.(head := l.head + 1)
    case Handshake(reason, c) =>
      if l.subscription.Some? && l.subscription.value.feed.None? && l.served <= c <= l.head
      then Emit(l, Resync(reason, c), maxEvents) else l
    case Read(page, force) =>
      if l.subscription.Some? && l.subscription.value.feed.Some? && page.cursor <= l.head
         && PageFollows(l.subscription.value.feed, page)
      then Emit(l, Deliver(page, force), maxEvents) else l
    case Outage =>
      if l.subscription.Some? then l.(subscription := Some(l.subscription.value.(feed := None))) else l
    case WorkerReceives =>
      if l.toWorker == [] then l else WorkerHandles(l.(toWorker := l.toWorker[1..]), l.toWorker[0])
    case HostReceives =>
      if l.toHost == [] then l
      else
        var b, popped := l.toHost[0], l.(toHost := l.toHost[1..]);
        if l.hosted.None? || l.hosted.value.generation != b.generation || !sh.worker then popped
        else popped.(hosted := Some(l.hosted.value.(chain := l.hosted.value.chain + [b])))
    case Begin =>
      if l.hosted.Some? && l.hosted.value.busy.None? && l.hosted.value.chain != []
      then l.(hosted := Some(BeginTask(l.hosted.value))) else l
    case Reject =>
      if l.hosted.Some? && l.hosted.value.busy.Some?
      then l.(hosted := Some(l.hosted.value.(rejected := true))) else l
    case Finish =>
      if l.hosted.Some? && l.hosted.value.busy.Some? && !l.hosted.value.rejected then
        var h := l.hosted.value;
        var acked := h.busy.value.generation == h.generation && sh.worker && sh.up;
        l.(hosted := Some(FinishTask(h)),
           toWorker := l.toWorker + if acked then [AckOf(h.generation, h.busy.value.seqNo)] else [])
      else l
    case LateAck(g, n) =>
      if sh.up && g < sh.nextGeneration && (l.hosted.None? || l.hosted.value.generation != g)
      then l.(toWorker := l.toWorker + [AckOf(g, n)]) else l
    case MainStarts =>
      if !sh.worker && l.hosted.Some? && l.hosted.value.busy.None? && l.hosted.value.chain == []
         && l.hosted.value.main.None?
      then
        var h := l.hosted.value;
        l.(hosted := Some(h.(main := Some(MainStream(h.cursor, OrZero(h.cursor))))))
      else l
    case MainHandshake(reason, c) =>
      if Following(l) && l.hosted.value.main.value.feed.None? && l.served <= c <= l.head
      then MainCall(l, Reconciled(reason, c), c) else l
    case MainRead(page, force) =>
      if Following(l) && l.hosted.value.main.value.feed.Some? && page.cursor <= l.head
         && PageFollows(l.hosted.value.main.value.feed, page)
      then MainCall(l, Handed(page, force), page.cursor) else l
    case MainOutage =>
      if Following(l)
      then l.(hosted := Some(l.hosted.value.(main := Some(l.hosted.value.main.value.(feed := None))))) else l
  }

  predicate Following(l: Lane) {
    l.hosted.Some? && l.hosted.value.main.Some?
  }

  function MainCall(l: Lane, call: Call, c: nat): Lane
    requires Following(l)
  {
    var h := l.hosted.value;
    l.(hosted := Some(h.(calls := h.calls + [call], main := Some(MainStream(Some(c), c)))),
       served := Max(l.served, c),
       strained := l.strained || (call.Handed? && call.page.overflow))
  }

  // ---- what a lane goes through when the shared worker changes ---------------------------

  /** `start`: a new consumer with a new generation; the old one, if any, is aborted. */
  function Started(l: Lane, g: nat, sh: Shared): Lane {
    var main := if sh.worker then None else Some(MainStream(None, 0));
    l.(hosted := Some(Hosted(g, None, None, [], None, [], main, false)),
       toWorker := l.toWorker + if sh.up then [Open(g, None)] else [])
  }

  function Stopped(l: Lane, sh: Shared): Lane {
    if l.hosted.None? then l
    else l.(hosted := None, toWorker := l.toWorker + if sh.up then [Close(l.hosted.value.generation)] else [])
  }

  function WorkerGone(l: Lane): Lane {
    l.(toWorker := [], subscription := None, toHost := [])
  }

  /**
    A worker was created: every hosted project is opened from its last applied cursor, a restart
    under a new generation.
   */
  function Reopened(l: Lane, restart: bool, next: nat): Lane {
    if l.hosted.None? then WorkerGone(l)
    else
      var h := l.hosted.value;
      var g := if restart then next else h.generation;
      WorkerGone(l).(hosted := Some(h.(generation := g, position := h.cursor)), toWorker := [Open(g, h.cursor)])
  }

  function FellBack(l: Lane, g: nat): Lane {
    if l.hosted.None? then WorkerGone(l)
    else WorkerGone(l).(hosted := Some(l.hosted.value.(generation := g)))
  }

  // ---- system steps ---------------------------------------------------------------------

  datatype Step =
    | OnLane(project: nat, step: LaneStep)
    | Start(project: nat, created: bool)
    | Stop(project: nat)
    | Crash(at: nat)
    | Relaunch(created: bool)
    | GiveUp

  /** Crashes older than the restart window are forgotten, oldest first. */
  function Recent(crashes: seq<nat>, at: nat, window: nat): seq<nat> {
    if crashes != [] && at - crashes[0] > window then Recent(crashes[1..], at, window) else crashes
  }

  function AllGone(lanes: seq<Lane>): (r: seq<Lane>)
    ensures |r| == |lanes| && forall i :: 0 <= i < |r| ==> r[i] == WorkerGone(lanes[i])
  {
    seq(|lanes|, i requires 0 <= i < |lanes| => WorkerGone(lanes[i]))
  }

  /** `fallBack`: the worker is stopped for good and every project gets a generation nobody holds. */
  function FallBack(s: System): System {
    if !s.shared.worker then s
    else
      var n := s.shared.nextGeneration;
      System(s.shared.(worker := false, up := false, restartArmed := false, nextGeneration := n + |s.lanes|),
             seq(|s.lanes|, i requires 0 <= i < |s.lanes| => FellBack(s.lanes[i], n + i)))
  }

  /** `launch`: a worker that cannot be created means fallback. */
  function Launch(s: System, restart: bool, created: bool): System {
    if !created then FallBack(s)
    else
      var n := s.shared.nextGeneration;
      System(s.shared.(up := true, restartArmed := false, nextGeneration := n + |s.lanes|),
             seq(|s.lanes|, i requires 0 <= i < |s.lanes| => Reopened(s.lanes[i], restart, n + i)))
  }

  ghost function Next(s: System, step: Step, cfg: Config): System {
    match step
    case OnLane(p, laneStep) =>
      if p < |s.lanes| then s.(lanes := s.lanes[p := LaneNext(s.lanes[p], laneStep, s.shared, cfg.maxEvents)]) else s
    case Start(p, created) =>
      if p < |s.lanes| then
        var n := s.shared.nextGeneration;
        var begun := System(s.shared.(nextGeneration := n + 1), s.lanes[p := Started(s.lanes[p], n, s.shared)]);
        if s.shared.worker && !s.shared.up && !s.shared.restartArmed then Launch(begun, false, created) else begun
      else s
    case Stop(p) =>
      if p < |s.lanes| then s.(lanes := s.lanes[p := Stopped(s.lanes[p], s.shared)]) else s
    case Crash(at) =>
      if s.shared.worker && s.shared.up then
        var recent := Recent(s.shared.crashes + [at], at, cfg.restartWindow);
        var down := System(s.shared.(up := false, restartArmed := true, crashes := recent),
                           AllGone(s.lanes));
        if |recent| > cfg.maxRestarts then FallBack(down) else down
      else s
    case Relaunch(created) =>
      if s.shared.worker && s.shared.restartArmed then Launch(s, true, created) else s
    case GiveUp =>
      if s.shared.up then FallBack(s) else s
  }

  const NEW_LANE := Lane(0, 0, None, [], None, [], false)

  function Initial(projects: nat): System {
    System(Shared(true, false, false, 1, []), seq(projects, i => NEW_LANE))
  }

  ghost function Run(projects: nat, steps: seq<Step>, cfg: Config): System {
    if steps == [] then Initial(projects)
    else Next(Run(projects, steps[..|steps| - 1], cfg), steps[|steps| - 1], cfg)
  }

  // ---- what the consumer was told --------------------------------------------------------

  function HandedStamps(calls: seq<Call>): seq<nat> {
    if calls == [] then []
    else
      HandedStamps(calls[..|calls| - 1])
      + (if calls[|calls| - 1].Handed? then Stamps(calls[|calls| - 1].page.events) else [])
  }

  /** The consumer was given event k, or was told to reconcile with a server that already had it. */
  ghost predicate Covers(call: Call, k: nat) {
    match call
    case Reconciled(_, c) => k <= c
    case Handed(page, _) => k in Stamps(page.events) || (page.overflow && k <= page.cursor)
  }

  ghost predicate Covered(calls: seq<Call>, k: nat) {
    exists i :: 0 <= i < |calls| && Covers(calls[i], k)
  }

  /** Recorded events were handed over in order, none twice, and every one up to `reach` is covered. */
  ghost predicate Told(calls: seq<Call>, reach: nat) {
    && Increasing(HandedStamps(calls), 0, reach)
    && forall k: nat :: 0 < k <= reach ==> Covered(calls, k)
  }

  /** How far the consumer has been brought, counting the delivery it is working on. */
  function Reach(h: Hosted): nat {
    if h.main.Some? then h.main.value.reached
    else if h.busy.Some? && h.busy.value.delivery.Deliver?
    then Max(OrZero(h.cursor), CursorOf(h.busy.value.delivery))
    else OrZero(h.cursor)
  }

  lemma TellMore(calls: seq<Call>, reach: nat, call: Call, reach': nat)
    requires Told(calls, reach) && reach <= reach'
    requires forall k: nat :: reach < k <= reach' ==> Covers(call, k)
    requires call.Handed? ==> Increasing(Stamps(call.page.events), reach, reach')
    ensures Told(calls + [call], reach')
  {
    var more := calls + [call];
    assert more[..|calls|] == calls;
    if call.Handed? {
      IncreasingAppend(HandedStamps(calls), Stamps(call.page.events), 0, reach, reach');
    }
    forall k: nat | 0 < k <= reach' ensures Covered(more, k) {
      if k <= reach {
        assert Covered(calls, k);
        var i :| 0 <= i < |calls| && Covers(calls[i], k);
        assert more[i] == calls[i];
      } else {
        assert more[|calls|] == call;
      }
    }
  }

  /** Dropping what is already applied leaves exactly the later part of an increasing page. */
  lemma {:induction false} NewEventStamps(events: seq<Event>, applied: Option<nat>, lo: nat, hi: nat)
    requires Increasing(Stamps(events), lo, hi)
    ensures Increasing(Stamps(NewEvents(events, applied)), Max(lo, OrZero(applied)), hi)
    ensures forall k :: k in Stamps(events) && k > OrZero(applied) ==> k in Stamps(NewEvents(events, applied))
  {
    if events != [] {
      var head, tail := events[0], events[1..];
      var kept := if applied.None? || head.Announcement? || head.cursor > applied.value then [head] else [];
      var later := NewEvents(tail, applied);
      assert NewEvents(events, applied) == kept + later;
      StampsAppend(kept, later);
      StampsOne(head);
      if head.Stamped? {
        IncreasingCons(head.cursor, Stamps(tail), lo, hi);
        NewEventStamps(tail, applied, head.cursor, hi);
        IncreasingCons(head.cursor, Stamps(later), Max(lo, OrZero(applied)), hi);
      } else {
        assert Stamps(events) == Stamps(tail);
        NewEventStamps(tail, applied, lo, hi);
      }
    }
  }

  /**
    Which recorded events of a page the host passes on: exactly those past its cursor. After the
    server restarts its cursors count from 1 again, so an event of the new run reaches the
    consumer exactly when its cursor exceeds the one applied in the old run.
   */
  lemma {:induction false} PassedOnExactly(events: seq<Event>, applied: Option<nat>, k: nat)
    ensures k in Stamps(NewEvents(events, applied)) <==> k in Stamps(events) && (applied.Some? ==> k > applied.value)
  {
    if events != [] {
      var head, later := events[0], NewEvents(events[1..], applied);
      var kept := if applied.None? || head.Announcement? || head.cursor > applied.value then [head] else [];
      assert NewEvents(events, applied) == kept + later;
      StampsAppend(kept, later);
      StampsOne(head);
      PassedOnExactly(events[1..], applied, k);
    }
  }

  /** A restarted server's first event is lost on a host that had applied five events of the old run. */
  lemma RestartLosesAnEvent()
    ensures var page := Page(1, [Stamped(1)], false);
            var b := Batch(1, 1, Deliver(page, false));
            var h := Hosted(1, Some(5), Some(0), [b], None, [], None, false);
            PageFollows(h.position, page) && BeginTask(h).calls == [Handed(Page(1, [], false), false)]
  {
    StampsOne(Stamped(1));
    assert [Stamped(1)][1..] == [];
    assert NewEvents([Stamped(1)], Some(5)) == [];
  }
}
