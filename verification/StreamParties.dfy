/**
  The two parties of the change-stream worker protocol as the source writes them: the page's host
  and the worker's runtime. Each method is one step of the protocol's state machine.
 */
module StreamParties {
  import opened Options
  import opened Deliveries
  import opened DeliveryQueue
  import opened StreamProtocol

  // ---- the page ---------------------------------------------------------------------------------

  /** The host, with each project's lane: what it hosts and the channels it shares with the worker. */
  class ChangeStreamWorkerHost {
    var worker: bool
    var up: bool
    var restartArmed: bool
    var nextGeneration: nat
    var crashes: seq<nat>
    var lanes: seq<Lane>
    const cfg: Config

    ghost function View(): System
      reads this
    {
      System(Shared(worker, up, restartArmed, nextGeneration, crashes), lanes)
    }

    constructor (projects: nat, cfg: Config)
      ensures this.cfg == cfg && View() == StreamProtocol.Initial(projects)
    {
      worker, up, restartArmed, nextGeneration, crashes := true, false, false, 1, [];
      lanes := seq(projects, i => NEW_LANE);
      this.cfg := cfg;
    }

    /** `terminate`: the worker is gone, and with it every message on its way. */
    method StopWorker()
      modifies this
      ensures View() == System(old(View()).shared.(up := false), AllGone(old(lanes)))
    {
      up := false;
      var was := lanes;
      for i := 0 to |was|
        invariant View() == System(old(View()).shared.(up := false), lanes) && |lanes| == |was|
        invariant forall j :: 0 <= j < |was| ==> lanes[j] == if j < i then WorkerGone(was[j]) else was[j]
      {
        lanes := lanes[i := lanes[i].(toWorker := [], subscription := None, toHost := [])];
      }
      assert lanes == AllGone(was);
    }

    method FallBackToMainThread()
      modifies this
      ensures View() == FallBack(old(View()))
    {
      if !worker {
        return;
      }
      worker, restartArmed := false, false;
      StopWorker();
      var was := lanes;
      for i := 0 to |was|
        invariant !worker && !up && !restartArmed && crashes == old(crashes) && |lanes| == |was|
        invariant nextGeneration == old(nextGeneration) + i
        invariant forall j :: 0 <= j < |was| ==>
                    lanes[j] == if j < i then FellBack(old(lanes)[j], old(nextGeneration) + j) else was[j]
      {
        if lanes[i].hosted.Some? {
          lanes := lanes[i := lanes[i].(hosted := Some(lanes[i].hosted.value.(generation := nextGeneration)))];
        }
        nextGeneration := nextGeneration + 1;
      }
      assert lanes == FallBack(old(View())).lanes;
    }

    method LaunchWorker(restart: bool, created: bool)
      modifies this
      ensures View() == Launch(old(View()), restart, created)
    {
      if !created {
        FallBackToMainThread();
        return;
      }
      StopWorker();
      up, restartArmed := true, false;
      var was := lanes;
      for i := 0 to |was|
        invariant up && !restartArmed && worker == old(worker) && crashes == old(crashes) && |lanes| == |was|
        invariant nextGeneration == old(nextGeneration) + i
        invariant forall j :: 0 <= j < |was| ==>
                    lanes[j] == if j < i then Reopened(old(lanes)[j], restart, old(nextGeneration) + j) else was[j]
      {
        if lanes[i].hosted.Some? {
          var h := lanes[i].hosted.value;
          if restart {
            h := h.(generation := nextGeneration);
          }
          h := h.(position := h.cursor);
          lanes := lanes[i := lanes[i].(hosted := Some(h), toWorker := [Open(h.generation, h.cursor)])];
        }
        nextGeneration := nextGeneration + 1;
      }
      assert lanes == Launch(old(View()), restart, created).lanes;
    }

    method StartProject(p: nat, created: bool)
      requires p < |lanes|
      modifies this
      ensures View() == Next(old(View()), Start(p, created), cfg)
    {
      hide Launch;
      var h := Hosted(nextGeneration, None, None, [], None, [], None, false);
      nextGeneration := nextGeneration + 1;
      if !worker {
        h := h.(main := Some(MainStream(None, 0)));
      }
      lanes := lanes[p := lanes[p].(hosted := Some(h))];
      if up {
        lanes := lanes[p := lanes[p].(toWorker := lanes[p].toWorker + [Open(h.generation, None)])];
      }
      assert lanes[p] == Started(old(lanes[p]), old(nextGeneration), old(View()).shared);
      if worker && !up && !restartArmed {
        LaunchWorker(false, created);
      }
    }

    method StopProject(p: nat)
      requires p < |lanes|
      modifies this
      ensures View() == Next(old(View()), Stop(p), cfg)
    {
      if lanes[p].hosted.Some? {
        var generation := lanes[p].hosted.value.generation;
        lanes := lanes[p := lanes[p].(hosted := None)];
        if up {
          lanes := lanes[p := lanes[p].(toWorker := lanes[p].toWorker + [Close(generation)])];
        }
      }
      assert lanes[p] == Stopped(old(lanes[p]), old(View()).shared);
    }

    method Crashed(at: nat)
      modifies this
      ensures View() == Next(old(View()), Crash(at), cfg)
    {
      hide FallBack;
      if !worker || !up {
        return;
      }
      StopWorker();
      restartArmed := true;
      crashes := crashes + [at];
      while crashes != [] && at - crashes[0] > cfg.restartWindow
        invariant Recent(crashes, at, cfg.restartWindow) == Recent(old(crashes) + [at], at, cfg.restartWindow)
        invariant View() == System(old(View()).shared.(up := false, restartArmed := true, crashes := crashes), AllGone(old(lanes)))
        decreases |crashes|
      {
        crashes := crashes[1..];
      }
      assert crashes == Recent(old(crashes) + [at], at, cfg.restartWindow);
      if |crashes| > cfg.maxRestarts {
        FallBackToMainThread();
      }
    }

    /** A batch from the worker is chained behind the project's earlier ones, unless it is stale. */
    method OnBatch(p: nat)
      requires p < |lanes|
      modifies this
      ensures View() == Next(old(View()), OnLane(p, HostReceives), cfg)
    {
      var l := lanes[p];
      if l.toHost != [] {
        var b := l.toHost[0];
        l := l.(toHost := l.toHost[1..]);
        if l.hosted.Some? && l.hosted.value.generation == b.generation && worker {
          l := l.(hosted := Some(l.hosted.value.(chain := l.hosted.value.chain + [b])));
        }
        lanes := lanes[p := l];
      }
      assert lanes[p] == LaneNext(old(lanes[p]), HostReceives, old(View()).shared, cfg.maxEvents);
    }

    /** A chained delivery starts: up to its await on the consumer. */
    method BeginDelivery(p: nat)
      requires p < |lanes|
      modifies this
      ensures View() == Next(old(View()), OnLane(p, StreamProtocol.Begin), cfg)
    {
      hide NewEvents;
      var l := lanes[p];
      if l.hosted.Some? && l.hosted.value.busy.None? && l.hosted.value.chain != [] {
        var h := l.hosted.value;
        var b := h.chain[0];
        h := h.(chain := h.chain[1..]);
        if b.generation == h.generation {
          match b.delivery {
            case Resync(reason, at) =>
              h := h.(cursor := Advanced(h.cursor, at), calls := h.calls + [Reconciled(reason, at)]);
            case Deliver(response, force) =>
              var events := Unapplied(response.events, h.cursor);
              h := h.(calls := h.calls + [Handed(response.(events := events), force)]);
          }
          h := h.(busy := Some(b));
        }
        lanes := lanes[p := l.(hosted := Some(h))];
      }
      assert lanes[p] == LaneNext(old(lanes[p]), StreamProtocol.Begin, old(View()).shared, cfg.maxEvents);
    }

    /** The consumer is done with a delivery: the cursor moves and the worker hears of it. */
    method FinishDelivery(p: nat)
      requires p < |lanes|
      modifies this
      ensures View() == Next(old(View()), OnLane(p, Finish), cfg)
    {
      var l := lanes[p];
      if l.hosted.Some? && l.hosted.value.busy.Some? && !l.hosted.value.rejected {
        var h := l.hosted.value;
        var b := h.busy.value;
        h := h.(busy := None);
        if b.delivery.Deliver? {
          h := h.(cursor := Advanced(h.cursor, CursorOf(b.delivery)));
        }
        if b.generation == h.generation {
          h := h.(position := Some(CursorOf(b.delivery)));
          if worker && up {
            l := l.(toWorker := l.toWorker + [AckOf(h.generation, b.seqNo)]);
          }
        }
        l := l.(hosted := Some(h));
        lanes := lanes[p := l];
      }
      assert lanes[p] == LaneNext(old(lanes[p]), Finish, old(View()).shared, cfg.maxEvents);
    }

    /** The consumer call of a delivery rejects: so does everything chained on it, now and later. */
    method RejectDelivery(p: nat)
      requires p < |lanes|
      modifies this
      ensures View() == Next(old(View()), OnLane(p, Reject), cfg)
    {
      if lanes[p].hosted.Some? && lanes[p].hosted.value.busy.Some? {
        lanes := lanes[p := lanes[p].(hosted := Some(lanes[p].hosted.value.(rejected := true)))];
      }
      assert lanes[p] == LaneNext(old(lanes[p]), Reject, old(View()).shared, cfg.maxEvents);
    }
  }

  /** The events of a page the host has not applied yet. */
  method Unapplied(events: seq<Event>, applied: Option<nat>) returns (kept: seq<Event>)
    ensures kept == NewEvents(events, applied)
    ensures forall k: nat :: k in Stamps(kept) <==> k in Stamps(events) && (applied.Some? ==> k > applied.value)
  {
    kept := [];
    assert events[0..] == events;
    for i := 0 to |events|
      invariant kept + NewEvents(events[i..], applied) == NewEvents(events, applied)
    {
      assert events[i..][0] == events[i] && events[i..][1..] == events[i + 1..];
      if applied.None? || events[i].Announcement? || events[i].cursor > applied.value {
        assert kept + ([events[i]] + NewEvents(events[i + 1..], applied)) == (kept + [events[i]]) + NewEvents(events[i + 1..], applied);
        kept := kept + [events[i]];
      }
    }
    assert kept + [] == kept;
    forall k: nat ensures k in Stamps(kept) <==> k in Stamps(events) && (applied.Some? ==> k > applied.value) {
      PassedOnExactly(events, applied, k);
    }
  }

  // ---- the worker -------------------------------------------------------------------------------

  /** The runtime: one subscription per project, and what it posted to the page for each. */
  class ChangeStreamWorkerRuntime {
    var subscriptions: map<nat, Subscription>
    var posted: map<nat, seq<Batch>>
    const maxEvents: nat

    /** Project `p` as the runtime sees it, in an otherwise empty lane. */
    ghost function View(p: nat): Lane
      reads this
    {
      NEW_LANE.(subscription := if p in subscriptions then Some(subscriptions[p]) else None,
               toHost := if p in posted then posted[p] else [])
    }

    constructor (maxEvents: nat)
      ensures this.maxEvents == maxEvents && forall p :: View(p) == NEW_LANE
    {
      subscriptions, posted := map[], map[];
      this.maxEvents := maxEvents;
    }

    method Post(p: nat, generation: nat, sent: seq<Sent>)
      modifies this`posted
      ensures View(p) == old(View(p)).(toHost := old(View(p)).toHost + Posted(generation, sent))
      ensures forall q :: q != p ==> View(q) == old(View(q))
    {
      posted := posted[p := (if p in posted then posted[p] else []) + Posted(generation, sent)];
    }

    method OpenProject(p: nat, generation: nat, resume: Option<nat>)
      modifies this
      ensures View(p) == WorkerHandles(old(View(p)), Open(generation, resume))
      ensures forall q :: q != p ==> View(q) == old(View(q))
    {
      if p in subscriptions && subscriptions[p].generation >= generation {
        return;
      }
      subscriptions := subscriptions[p := Subscription(generation, EMPTY_QUEUE, resume)];
    }

    method CloseProject(p: nat, generation: nat)
      modifies this
      ensures View(p) == WorkerHandles(old(View(p)), Close(generation))
      ensures forall q :: q != p ==> View(q) == old(View(q))
    {
      if p in subscriptions && subscriptions[p].generation == generation {
        subscriptions := subscriptions - {p};
      }
    }

    method AckProject(p: nat, generation: nat, seqNo: nat)
      modifies this
      ensures View(p) == WorkerHandles(old(View(p)), AckOf(generation, seqNo))
      ensures forall q :: q != p ==> View(q) == old(View(q))
    {
      hide Posted, Ack;
      if p in subscriptions && subscriptions[p].generation == generation {
        var r := Ack(subscriptions[p].queue, seqNo);
        subscriptions := subscriptions[p := subscriptions[p].(queue := r.queue)];
        Post(p, generation, r.sent);
      }
    }

    /** The project's transport pushes a page or a resync. */
    method PushFrom(p: nat, delivery: Delivery)
      requires p in subscriptions
      modifies this
      ensures View(p) == Emit(old(View(p)), delivery, maxEvents).(served := 0, strained := false)
      ensures forall q :: q != p ==> View(q) == old(View(q))
    {
      hide Posted, Push;
      var current := subscriptions[p];
      var r := Push(current.queue, delivery, maxEvents);
      subscriptions := subscriptions[p := Subscription(current.generation, r.queue, Some(CursorOf(delivery)))];
      Post(p, current.generation, r.sent);
    }
  }
}
