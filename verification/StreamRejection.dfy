/**
  What a rejected consumer call does to its project: deliveries are chained on one promise, so after a
  rejection nothing behind it ever starts, through restarts and fallback alike; and without one the
  chain always drains.
 */
module StreamRejection {
  import opened Options
  import opened Deliveries
  import opened DeliveryQueue
  import opened StreamProtocol
  import opened StreamSafety

  // ---- for good -----------------------------------------------------------------------------------

  /** `h'` is stuck in the call `h` was stuck in, and its consumer was not called since. */
  ghost predicate StuckSince(h: Hosted, h': Hosted) {
    h.rejected && h'.rejected && h'.busy == h.busy && h'.calls == h.calls && h'.cursor == h.cursor && h'.main.None?
  }

  ghost predicate LaneStuckSince(h: Hosted, l: Lane) {
    l.hosted.Some? && StuckSince(h, l.hosted.value)
  }

  lemma LaneStepStaysStuck(h: Hosted, l: Lane, step: LaneStep, sh: Shared, maxEvents: nat)
    requires LaneStuckSince(h, l) && h.busy.Some?
    ensures LaneStuckSince(h, LaneNext(l, step, sh, maxEvents))
  {
    hide PageFollows, Push, Ack, Posted, NewEvents;
  }

  /** A step that neither starts nor stops project `p`. */
  predicate Spares(step: Step, p: nat) {
    !(step.Start? && step.project == p) && !(step.Stop? && step.project == p)
  }

  lemma LaunchStaysStuck(h: Hosted, s: System, p: nat, restart: bool, created: bool)
    requires p < |s.lanes| && LaneStuckSince(h, s.lanes[p])
    ensures |Launch(s, restart, created).lanes| == |s.lanes| && LaneStuckSince(h, Launch(s, restart, created).lanes[p])
  {
  }

  lemma StepStaysStuck(h: Hosted, s: System, step: Step, p: nat, cfg: Config)
    requires p < |s.lanes| && LaneStuckSince(h, s.lanes[p]) && h.busy.Some? && Spares(step, p)
    ensures |Next(s, step, cfg).lanes| == |s.lanes| && LaneStuckSince(h, Next(s, step, cfg).lanes[p])
  {
    hide LaneNext, Launch, Recent, Started, Stopped;
    match step
    case OnLane(q, laneStep) =>
      if q == p {
        LaneStepStaysStuck(h, s.lanes[p], laneStep, s.shared, cfg.maxEvents);
      }
    case Start(q, created) =>
      if q < |s.lanes| {
        var n := s.shared.nextGeneration;
        var begun := System(s.shared.(nextGeneration := n + 1), s.lanes[q := Started(s.lanes[q], n, s.shared)]);
        LaunchStaysStuck(h, begun, p, false, created);
      }
    case Stop(q) =>
    case Crash(at) =>
    case Relaunch(created) => LaunchStaysStuck(h, s, p, true, created);
    case GiveUp =>
  }

  ghost function RunFrom(s: System, steps: seq<Step>, cfg: Config): System {
    if steps == [] then s else Next(RunFrom(s, steps[..|steps| - 1], cfg), steps[|steps| - 1], cfg)
  }

  /**
    A rejection is for good: until the project is started or stopped, whatever crashes, restarts,
    falls back or arrives, its consumer is never called again and its cursor never moves.
   */
  lemma {:induction false} RejectionIsForGood(s: System, more: seq<Step>, p: nat, cfg: Config)
    requires SystemInv(s, cfg) && p < |s.lanes| && s.lanes[p].hosted.Some? && s.lanes[p].hosted.value.rejected
    requires forall i :: 0 <= i < |more| ==> Spares(more[i], p)
    ensures var s' := RunFrom(s, more, cfg);
            |s'.lanes| == |s.lanes| && LaneStuckSince(s.lanes[p].hosted.value, s'.lanes[p])
  {
    hide Next;
    var h := s.lanes[p].hosted.value;
    assert h.busy.Some? && h.main.None? by { RejectedIsBusy(s, p, cfg); }
    if more != [] {
      hide LaneStuckSince;
      RejectionIsForGood(s, more[..|more| - 1], p, cfg);
      StepStaysStuck(h, RunFrom(s, more[..|more| - 1], cfg), more[|more| - 1], p, cfg);
    }
  }

  lemma RejectedIsBusy(s: System, p: nat, cfg: Config)
    requires SystemInv(s, cfg) && p < |s.lanes| && s.lanes[p].hosted.Some? && s.lanes[p].hosted.value.rejected
    ensures s.lanes[p].hosted.value.busy.Some? && s.lanes[p].hosted.value.main.None?
  {
    hide Told, StreamSide, Channels;
    assert LaneInv(s.lanes[p], s.shared, cfg.maxEvents);
  }

  // ---- and only then ----------------------------------------------------------------------------------

  ghost function LaneRun(l: Lane, steps: seq<LaneStep>, sh: Shared, maxEvents: nat): Lane {
    if steps == [] then l else LaneNext(LaneRun(l, steps[..|steps| - 1], sh, maxEvents), steps[|steps| - 1], sh, maxEvents)
  }

  /** No delivery is chained or being applied. */
  predicate Drained(l: Lane) {
    l.hosted.Some? && l.hosted.value.busy.None? && l.hosted.value.chain == []
  }

  lemma RunOnMore(l: Lane, steps: seq<LaneStep>, step: LaneStep, sh: Shared, maxEvents: nat)
    ensures LaneRun(l, steps + [step], sh, maxEvents) == LaneNext(LaneRun(l, steps, sh, maxEvents), step, sh, maxEvents)
  {
    hide LaneNext;
    assert (steps + [step])[..|steps|] == steps;
  }

  lemma {:induction false} RunsJoin(l: Lane, a: seq<LaneStep>, b: seq<LaneStep>, sh: Shared, maxEvents: nat)
    ensures LaneRun(l, a + b, sh, maxEvents) == LaneRun(LaneRun(l, a, sh, maxEvents), b, sh, maxEvents)
  {
    hide LaneNext;
    if b == [] {
      assert a + b == a;
    } else {
      RunsJoin(l, a, b[..|b| - 1], sh, maxEvents);
      assert (a + b)[..|a + b| - 1] == a + b[..|b| - 1];
    }
  }

  /** What is left to do, counting the call under way. */
  function Work(l: Lane): nat
    requires l.hosted.Some?
  {
    2 * |l.hosted.value.chain| + if l.hosted.value.busy.Some? then 1 else 0
  }

  lemma OneLess(l: Lane, sh: Shared, maxEvents: nat)
    requires l.hosted.Some? && !l.hosted.value.rejected && !Drained(l)
    ensures var step := if l.hosted.value.busy.Some? then Finish else StreamProtocol.Begin;
            var l' := LaneNext(l, step, sh, maxEvents);
            l'.hosted.Some? && !l'.hosted.value.rejected && Work(l') < Work(l)
  {
    hide NewEvents;
  }

  /** Unless a call rejected, starting and finishing what is chained empties the chain. */
  lemma {:induction false} ChainDrains(l: Lane, sh: Shared, maxEvents: nat) returns (steps: seq<LaneStep>)
    requires l.hosted.Some? && !l.hosted.value.rejected
    ensures var l' := LaneRun(l, steps, sh, maxEvents); Drained(l') && !l'.hosted.value.rejected
    decreases Work(l)
  {
    steps := [];
    if !Drained(l) {
      hide LaneNext;
      var step := if l.hosted.value.busy.Some? then Finish else StreamProtocol.Begin;
      OneLess(l, sh, maxEvents);
      var rest := ChainDrains(LaneNext(l, step, sh, maxEvents), sh, maxEvents);
      steps := [step] + rest;
      RunsJoin(l, [step], rest, sh, maxEvents);
      assert LaneRun(l, [step], sh, maxEvents) == LaneNext(l, step, sh, maxEvents) by { assert [step][..0] == []; }
    }
  }

  lemma {:induction false} RunStaysStuck(h: Hosted, l: Lane, steps: seq<LaneStep>, sh: Shared, maxEvents: nat)
    requires LaneStuckSince(h, l) && h.busy.Some?
    ensures LaneStuckSince(h, LaneRun(l, steps, sh, maxEvents))
  {
    hide LaneNext, LaneStuckSince;
    if steps != [] {
      RunStaysStuck(h, l, steps[..|steps| - 1], sh, maxEvents);
      LaneStepStaysStuck(h, LaneRun(l, steps[..|steps| - 1], sh, maxEvents), steps[|steps| - 1], sh, maxEvents);
    }
  }

  /** A project's deliveries can all be applied exactly when none of its consumer calls has rejected. */
  lemma WorkDrainsUnlessRejected(l: Lane, sh: Shared, maxEvents: nat)
    requires LaneInv(l, sh, maxEvents) && l.hosted.Some?
    ensures (exists steps :: Drained(LaneRun(l, steps, sh, maxEvents))) <==> !l.hosted.value.rejected
  {
    hide Told, StreamSide, Channels, LaneRun;
    var h := l.hosted.value;
    if h.rejected {
      forall steps ensures !Drained(LaneRun(l, steps, sh, maxEvents)) {
        RunStaysStuck(h, l, steps, sh, maxEvents);
      }
    } else {
      var steps := ChainDrains(l, sh, maxEvents);
    }
  }

  /** After fallback the main-thread stream can take over exactly when no consumer call has rejected. */
  lemma FallbackStartsUnlessRejected(l: Lane, sh: Shared, maxEvents: nat)
    requires LaneInv(l, sh, maxEvents) && l.hosted.Some? && !sh.worker
    ensures (exists steps :: Following(LaneRun(l, steps, sh, maxEvents))) <==> !l.hosted.value.rejected
  {
    hide Told, StreamSide, Channels, LaneRun;
    var h := l.hosted.value;
    if h.rejected {
      forall steps ensures !Following(LaneRun(l, steps, sh, maxEvents)) {
        RunStaysStuck(h, l, steps, sh, maxEvents);
      }
    } else {
      var steps := ChainDrains(l, sh, maxEvents);
      RunOnMore(l, steps, MainStarts, sh, maxEvents);
      assert Following(LaneRun(l, steps + [MainStarts], sh, maxEvents));
    }
  }

  // ---- and it happens -------------------------------------------------------------------------------------

  lemma RunMore(projects: nat, steps: seq<Step>, step: Step, cfg: Config)
    ensures StreamProtocol.Run(projects, steps + [step], cfg) == Next(StreamProtocol.Run(projects, steps, cfg), step, cfg)
  {
    hide Next;
    assert (steps + [step])[..|steps|] == steps;
  }

  /** The first six steps of a project whose first consumer call rejects. */
  function FirstSteps(): seq<Step> {
    [Start(0, true), OnLane(0, WorkerReceives), OnLane(0, Handshake(Deliveries.Initial, 0)),
     OnLane(0, HostReceives), OnLane(0, StreamProtocol.Begin), OnLane(0, Reject)]
  }

  lemma OneLane(s: System, l: Lane, step: LaneStep, l': Lane, cfg: Config)
    requires s.lanes == [l] && LaneNext(l, step, s.shared, cfg.maxEvents) == l'
    ensures Next(s, OnLane(0, step), cfg) == s.(lanes := [l'])
  {
    hide LaneNext;
  }

  const FIRST_BATCH := Batch(1, 1, Resync(Deliveries.Initial, 0))
  const STARTED := Shared(true, true, false, 3, [])

  /** The project after `i` of those steps. */
  function LaneAfter(i: nat): Lane
    requires 1 <= i <= 6
  {
    var h := Hosted(1, None, None, [], None, [], None, false);
    var served := NEW_LANE.(hosted := Some(h), subscription := Some(Subscription(1, EMPTY_QUEUE, None)));
    var sent := served.(subscription := Some(Subscription(1, Queue([], Some(1), 2, 0), Some(0))));
    var called := h.(busy := Some(FIRST_BATCH), cursor := Some(0), calls := [Reconciled(Deliveries.Initial, 0)]);
    if i == 1 then NEW_LANE.(hosted := Some(h), toWorker := [Open(1, None)])
    else if i == 2 then served
    else if i == 3 then sent.(toHost := [FIRST_BATCH])
    else if i == 4 then sent.(hosted := Some(h.(chain := [FIRST_BATCH])))
    else if i == 5 then sent.(hosted := Some(called))
    else sent.(hosted := Some(called.(rejected := true)))
  }

  lemma HandshakeLane(maxEvents: nat)
    ensures LaneNext(LaneAfter(2), Handshake(Deliveries.Initial, 0), STARTED, maxEvents) == LaneAfter(3)
  {
    var d := Resync(Deliveries.Initial, 0);
    assert Coalesced([], d) == [d] && [d][1..] == [];
    assert Push(EMPTY_QUEUE, d, maxEvents) == Outcome(Queue([], Some(1), 2, 0), [Sent(1, d)]);
    assert Posted(1, [Sent(1, d)]) == [Batch(1, 1, d)];
  }

  lemma LaneSteps(i: nat, maxEvents: nat)
    requires 1 <= i < 6
    ensures FirstSteps()[i].OnLane? && FirstSteps()[i].project == 0
    ensures LaneNext(LaneAfter(i), FirstSteps()[i].step, STARTED, maxEvents) == LaneAfter(i + 1)
  {
    if i == 2 {
      HandshakeLane(maxEvents);
    } else {
      hide Emit, NewEvents;
      assert [Open(1, None)][1..] == [] && [FIRST_BATCH][1..] == [];
      assert [] + [FIRST_BATCH] == [FIRST_BATCH] && [] + [Reconciled(Deliveries.Initial, 0)] == [Reconciled(Deliveries.Initial, 0)];
    }
  }

  lemma {:induction false} FirstStepsRun(i: nat, cfg: Config)
    requires 1 <= i <= 6
    ensures StreamProtocol.Run(1, FirstSteps()[..i], cfg) == System(STARTED, [LaneAfter(i)])
  {
    hide Next, LaneNext;
    var steps := FirstSteps();
    assert steps[..i] == steps[..i - 1] + [steps[i - 1]];
    RunMore(1, steps[..i - 1], steps[i - 1], cfg);
    if i == 1 {
      StartedOne(cfg);
    } else {
      FirstStepsRun(i - 1, cfg);
      LaneSteps(i - 1, cfg.maxEvents);
      OneLane(System(STARTED, [LaneAfter(i - 1)]), LaneAfter(i - 1), steps[i - 1].step, LaneAfter(i), cfg);
    }
  }

  /** A rejection is reached: the first resync of a project whose consumer rejects it. */
  lemma RejectionHappens(cfg: Config)
    ensures var s := StreamProtocol.Run(1, FirstSteps(), cfg);
            |s.lanes| == 1 && s.lanes[0].hosted.Some? && s.lanes[0].hosted.value.rejected
  {
    FirstStepsRun(6, cfg);
    assert FirstSteps()[..6] == FirstSteps();
  }

  lemma StartedOne(cfg: Config)
    ensures Next(StreamProtocol.Run(1, [], cfg), Start(0, true), cfg)
         == System(Shared(true, true, false, 3, []), [NEW_LANE.(hosted := Some(Hosted(1, None, None, [], None, [], None, false)), toWorker := [Open(1, None)])])
  {
    var s := StreamProtocol.Run(1, [], cfg);
    assert s.lanes == [NEW_LANE];
    var begun := System(s.shared.(nextGeneration := 2), [Started(NEW_LANE, 1, s.shared)]);
    assert Next(s, Start(0, true), cfg) == Launch(begun, false, true);
    assert Launch(begun, false, true).lanes == [Reopened(begun.lanes[0], false, 2)];
  }
}
