/**
  When the host restarts its worker and when it gives up, what a restart resumes from, and that the
  worker ends up following exactly the projects the page hosts.
 */
module StreamRestarts {
  import opened Options
  import opened Deliveries
  import opened DeliveryQueue
  import opened StreamProtocol
  import opened StreamSafety

  // ---- giving up ------------------------------------------------------------------------------------

  ghost predicate Nondecreasing(ts: seq<nat>) {
    forall i, j :: 0 <= i < j < |ts| ==> ts[i] <= ts[j]
  }

  /** The crashes at most `window` before `at`. */
  function InWindow(ts: seq<nat>, at: nat, window: nat): seq<nat> {
    if ts == [] then []
    else
      var before, last := InWindow(ts[..|ts| - 1], at, window), ts[|ts| - 1];
      if at - last <= window then before + [last] else before
  }

  lemma {:induction false} AllInWindow(ts: seq<nat>, at: nat, window: nat)
    requires forall i :: 0 <= i < |ts| ==> at - ts[i] <= window
    ensures InWindow(ts, at, window) == ts
  {
    if ts != [] {
      AllInWindow(ts[..|ts| - 1], at, window);
      assert ts == ts[..|ts| - 1] + [ts[|ts| - 1]];
    }
  }

  lemma {:induction false} WindowSplit(a: seq<nat>, b: seq<nat>, at: nat, window: nat)
    ensures InWindow(a + b, at, window) == InWindow(a, at, window) + InWindow(b, at, window)
  {
    if b == [] {
      assert a + b == a;
    } else {
      assert (a + b)[..|a + b| - 1] == a + b[..|b| - 1];
      WindowSplit(a, b[..|b| - 1], at, window);
    }
  }

  /** In order of time, forgetting from the front forgets exactly what is out of the window. */
  lemma {:induction false} RecentIsInWindow(ts: seq<nat>, at: nat, window: nat)
    requires Nondecreasing(ts)
    ensures Recent(ts, at, window) == InWindow(ts, at, window)
  {
    if ts != [] && at - ts[0] > window {
      var rest := ts[1..];
      RecentIsInWindow(rest, at, window);
      assert ts == [ts[0]] + rest;
      WindowSplit([ts[0]], rest, at, window);
      assert [ts[0]][..0] == [];
    } else {
      AllInWindow(ts, at, window);
    }
  }

  /** Forgetting early what is forgotten later anyway makes no difference. */
  lemma {:induction false} WindowTwice(ts: seq<nat>, before: nat, at: nat, window: nat)
    requires before <= at
    ensures InWindow(InWindow(ts, before, window), at, window) == InWindow(ts, at, window)
  {
    if ts != [] {
      var front, last := ts[..|ts| - 1], ts[|ts| - 1];
      WindowTwice(front, before, at, window);
      if before - last <= window {
        WindowSplit(InWindow(front, before, window), [last], at, window);
        assert [last][..0] == [];
      }
    }
  }

  lemma {:induction false} WindowMembers(ts: seq<nat>, at: nat, window: nat)
    requires Nondecreasing(ts)
    ensures Nondecreasing(InWindow(ts, at, window)) && forall t :: t in InWindow(ts, at, window) ==> t in ts
  {
    if ts != [] {
      var front, last := ts[..|ts| - 1], ts[|ts| - 1];
      WindowMembers(front, at, window);
      var kept := InWindow(front, at, window);
      forall i | 0 <= i < |kept| ensures kept[i] <= last {
        assert kept[i] in kept;
        var k :| 0 <= k < |front| && front[k] == kept[i];
        assert ts[k] == kept[i];
      }
    }
  }

  /** The times at which a worker that was up crashed. */
  ghost function CrashesSoFar(projects: nat, steps: seq<Step>, cfg: Config): seq<nat> {
    if steps == [] then []
    else
      var before, s, step := CrashesSoFar(projects, steps[..|steps| - 1], cfg), Run(projects, steps[..|steps| - 1], cfg), steps[|steps| - 1];
      if step.Crash? && s.shared.worker && s.shared.up then before + [step.at] else before
  }

  lemma OnlyCrashesAreLogged(s: System, step: Step, cfg: Config)
    ensures !(step.Crash? && s.shared.worker && s.shared.up) ==> Next(s, step, cfg).shared.crashes == s.shared.crashes
    ensures step.Crash? && s.shared.worker && s.shared.up ==>
              Next(s, step, cfg).shared.crashes == Recent(s.shared.crashes + [step.at], step.at, cfg.restartWindow)
  {
    hide LaneNext, Recent;
  }

  /** With time moving forward the host remembers exactly the crashes in the window of the last one. */
  lemma {:induction false} RemembersTheWindow(projects: nat, steps: seq<Step>, cfg: Config)
    requires Nondecreasing(CrashesSoFar(projects, steps, cfg))
    ensures var log, crashes := CrashesSoFar(projects, steps, cfg), Run(projects, steps, cfg).shared.crashes;
            crashes == if log == [] then [] else InWindow(log, log[|log| - 1], cfg.restartWindow)
  {
    hide Next;
    if steps != [] {
      var front, step := steps[..|steps| - 1], steps[|steps| - 1];
      var s, log, all := Run(projects, front, cfg), CrashesSoFar(projects, front, cfg), CrashesSoFar(projects, steps, cfg);
      assert forall i :: 0 <= i < |log| ==> all[i] == log[i];
      RemembersTheWindow(projects, front, cfg);
      OnlyCrashesAreLogged(s, step, cfg);
      if step.Crash? && s.shared.worker && s.shared.up {
        OneMoreCrash(log, s.shared.crashes, step.at, cfg.restartWindow);
      }
    }
  }

  lemma OneMoreCrash(log: seq<nat>, crashes: seq<nat>, at: nat, window: nat)
    requires Nondecreasing(log + [at]) && crashes == if log == [] then [] else InWindow(log, log[|log| - 1], window)
    ensures Recent(crashes + [at], at, window) == InWindow(log + [at], at, window)
  {
    var all := log + [at];
    assert all[|log|] == at;
    forall i | 0 <= i < |log| ensures log[i] <= at {
      assert all[i] == log[i];
    }
    assert Nondecreasing(log) by { assert forall i :: 0 <= i < |log| ==> all[i] == log[i]; }
    if log == [] {
      assert crashes + [at] == all;
      RecentIsInWindow(all, at, window);
    } else {
      var last := log[|log| - 1];
      WindowMembers(log, last, window);
      forall i | 0 <= i < |crashes| ensures crashes[i] <= at {
        assert crashes[i] in crashes;
        var k :| 0 <= k < |log| && log[k] == crashes[i];
        assert all[k] == crashes[i];
      }
      assert Nondecreasing(crashes + [at]);
      RecentIsInWindow(crashes + [at], at, window);
      WindowSplit(crashes, [at], at, window);
      WindowSplit(log, [at], at, window);
      WindowTwice(log, last, at, window);
    }
  }

  /**
    Over every run with time moving forward, a crash makes the host give up exactly when more than the
    allowed number of crashes, this one included, lie within the window before it; any other crash arms
    a restart.
   */
  lemma FallsBackExactlyAfterTooManyCrashes(projects: nat, steps: seq<Step>, at: nat, cfg: Config)
    requires var s := Run(projects, steps, cfg); s.shared.worker && s.shared.up
    requires Nondecreasing(CrashesSoFar(projects, steps, cfg) + [at])
    ensures var s', log := Next(Run(projects, steps, cfg), Crash(at), cfg), CrashesSoFar(projects, steps, cfg) + [at];
            && (!s'.shared.worker <==> |InWindow(log, at, cfg.restartWindow)| > cfg.maxRestarts)
            && (s'.shared.worker ==> s'.shared.restartArmed && !s'.shared.up)
  {
    hide Run, CrashesSoFar, Recent, InWindow;
    var s, log := Run(projects, steps, cfg), CrashesSoFar(projects, steps, cfg);
    assert Nondecreasing(log) by { assert forall i :: 0 <= i < |log| ==> (log + [at])[i] == log[i]; }
    RemembersTheWindow(projects, steps, cfg);
    OneMoreCrash(log, s.shared.crashes, at, cfg.restartWindow);
  }

  /** Besides, worker mode ends only when a worker cannot be made or never gets ready. */
  lemma WorkerModeEndsOnlyBy(s: System, step: Step, cfg: Config)
    requires s.shared.worker && !Next(s, step, cfg).shared.worker
    ensures step.Crash? || step.GiveUp? || (step.Start? && !step.created) || (step.Relaunch? && !step.created)
  {
    hide LaneNext, Recent;
  }

  // ---- resuming -------------------------------------------------------------------------------------

  /**
    A restart opens every hosted project once, under a generation of its own that nothing before it
    had, from the cursor its consumer has applied; nothing the consumer was told is forgotten.
   */
  lemma RestartResumesFromTheAppliedCursor(s: System, cfg: Config, p: nat)
    requires s.shared.worker && s.shared.restartArmed && p < |s.lanes|
    ensures var s' := Next(s, Relaunch(true), cfg);
            && s'.shared.up && !s'.shared.restartArmed && |s'.lanes| == |s.lanes|
            && (s.lanes[p].hosted.None? ==> s'.lanes[p].hosted.None? && s'.lanes[p].toWorker == [])
            && (s.lanes[p].hosted.Some? ==>
                  var h := s.lanes[p].hosted.value;
                  && s'.lanes[p].hosted.Some?
                  && var h' := s'.lanes[p].hosted.value;
                     && h' == h.(generation := h'.generation, position := h.cursor)
                     && s.shared.nextGeneration <= h'.generation < s'.shared.nextGeneration
                     && s'.lanes[p].toWorker == [Open(h'.generation, h.cursor)])
    ensures var s' := Next(s, Relaunch(true), cfg);
            forall q :: 0 <= q < |s.lanes| && q != p && s.lanes[q].hosted.Some? && s.lanes[p].hosted.Some? ==>
              s'.lanes[q].hosted.Some? && s'.lanes[p].hosted.Some?
              && s'.lanes[q].hosted.value.generation != s'.lanes[p].hosted.value.generation
  {
  }

  /** The worker opens such a project with an empty queue and a transport at that cursor. */
  lemma OpenedWhereAsked(l: Lane, sh: Shared, maxEvents: nat)
    requires l.toWorker != [] && l.toWorker[0].Open?
    requires l.subscription.None? || l.subscription.value.generation < l.toWorker[0].generation
    ensures LaneNext(l, WorkerReceives, sh, maxEvents).subscription
         == Some(Subscription(l.toWorker[0].generation, EMPTY_QUEUE, l.toWorker[0].resume))
  {
  }

  /** After fallback the main-thread stream starts at the applied cursor. */
  lemma MainThreadResumesFromTheAppliedCursor(l: Lane, sh: Shared, maxEvents: nat)
    requires !sh.worker && l.hosted.Some? && l.hosted.value.busy.None? && l.hosted.value.chain == [] && l.hosted.value.main.None?
    ensures LaneNext(l, MainStarts, sh, maxEvents)
         == l.(hosted := Some(l.hosted.value.(main := Some(MainStream(l.hosted.value.cursor, OrZero(l.hosted.value.cursor))))))
  {
  }

  // ---- the worker follows exactly what the page hosts --------------------------------------------------

  /** The generation a worker follows after reading `ms`, when it follows `now`. */
  function FollowedAfter(now: Option<nat>, ms: seq<ToWorker>): Option<nat> {
    if ms == [] then now
    else
      var before, m := FollowedAfter(now, ms[..|ms| - 1]), ms[|ms| - 1];
      match m
      case Open(g, _) => if before.Some? && before.value >= g then before else Some(g)
      case Close(g) => if before == Some(g) then None else before
      case AckOf(_, _) => before
  }

  lemma FollowedMore(now: Option<nat>, ms: seq<ToWorker>, m: ToWorker)
    ensures FollowedAfter(now, ms + [m]) ==
            match m
            case Open(g, _) =>
              if FollowedAfter(now, ms).Some? && FollowedAfter(now, ms).value >= g then FollowedAfter(now, ms) else Some(g)
            case Close(g) => if FollowedAfter(now, ms) == Some(g) then None else FollowedAfter(now, ms)
            case AckOf(_, _) => FollowedAfter(now, ms)
  {
    assert (ms + [m])[..|ms|] == ms;
  }

  lemma {:induction false} FollowedHead(now: Option<nat>, ms: seq<ToWorker>)
    requires ms != []
    ensures FollowedAfter(now, ms) == FollowedAfter(FollowedAfter(now, [ms[0]]), ms[1..])
  {
    var n := |ms| - 1;
    if n == 0 {
      assert ms == [ms[0]] && ms[1..] == [];
    } else {
      FollowedHead(now, ms[..n]);
      assert ms[..n][1..] == ms[1..][..n - 1] && ms[..n][0] == ms[0];
    }
  }

  function Follows(l: Lane): Option<nat> {
    if l.subscription.Some? then Some(l.subscription.value.generation) else None
  }

  /** Once it has read what is on its way, the worker follows the project's current generation, or nothing if it is not hosted. */
  ghost predicate EndsUpFollowing(l: Lane, sh: Shared) {
    sh.up ==> FollowedAfter(Follows(l), l.toWorker) == if l.hosted.Some? then Some(l.hosted.value.generation) else None
  }

  lemma ReceiveFollows(l: Lane, sh: Shared, maxEvents: nat)
    requires EndsUpFollowing(l, sh)
    ensures EndsUpFollowing(LaneNext(l, WorkerReceives, sh, maxEvents), sh)
  {
    hide Push, Ack, Posted;
    if l.toWorker != [] {
      FollowedHead(Follows(l), l.toWorker);
      assert [l.toWorker[0]][..0] == [];
      assert Follows(LaneNext(l, WorkerReceives, sh, maxEvents)) == FollowedAfter(Follows(l), [l.toWorker[0]]);
    }
  }

  lemma LaneStepFollows(l: Lane, step: LaneStep, sh: Shared, maxEvents: nat)
    requires EndsUpFollowing(l, sh)
    ensures EndsUpFollowing(LaneNext(l, step, sh, maxEvents), sh)
  {
    hide Push, Ack, Posted, PageFollows, NewEvents, FollowedAfter;
    match step
    case WorkerReceives => ReceiveFollows(l, sh, maxEvents);
    case Finish =>
      if l.hosted.Some? && l.hosted.value.busy.Some? {
        FollowedMore(Follows(l), l.toWorker, AckOf(l.hosted.value.generation, l.hosted.value.busy.value.seqNo));
        assert l.toWorker + [] == l.toWorker;
      }
    case LateAck(g, n) => FollowedMore(Follows(l), l.toWorker, AckOf(g, n));
    case _ =>
  }

  lemma {:induction false} FollowedBelow(now: Option<nat>, ms: seq<ToWorker>, bound: nat)
    requires (now.Some? ==> now.value < bound) && forall m :: m in ms ==> m.generation < bound
    ensures FollowedAfter(now, ms).Some? ==> FollowedAfter(now, ms).value < bound
  {
    if ms != [] {
      assert ms[|ms| - 1] in ms;
      FollowedBelow(now, ms[..|ms| - 1], bound);
    }
  }

  lemma StartedFollows(l: Lane, sh: Shared, sh': Shared, maxEvents: nat)
    requires EndsUpFollowing(l, sh) && Channels(l, sh, maxEvents) && sh' == sh.(nextGeneration := sh.nextGeneration + 1)
    ensures EndsUpFollowing(Started(l, sh.nextGeneration, sh), sh')
  {
    hide FollowedAfter, WellFormed;
    if sh.up {
      FollowedBelow(Follows(l), l.toWorker, sh.nextGeneration);
      FollowedMore(Follows(l), l.toWorker, Open(sh.nextGeneration, None));
    }
  }

  lemma StoppedFollows(l: Lane, sh: Shared)
    requires EndsUpFollowing(l, sh)
    ensures EndsUpFollowing(Stopped(l, sh), sh)
  {
    hide FollowedAfter;
    if l.hosted.Some? && sh.up {
      FollowedMore(Follows(l), l.toWorker, Close(l.hosted.value.generation));
    }
  }

  lemma ReopenedFollows(l: Lane, restart: bool, next: nat, sh: Shared)
    ensures EndsUpFollowing(Reopened(l, restart, next), sh)
  {
    var l' := Reopened(l, restart, next);
    assert l.hosted.Some? ==> l'.toWorker == [l'.toWorker[0]] && l'.toWorker[..0] == [];
  }

  lemma LaunchFollows(s: System, restart: bool, created: bool, p: nat)
    requires p < |s.lanes| && EndsUpFollowing(s.lanes[p], s.shared) && s.shared.worker
    ensures var s' := Launch(s, restart, created); |s'.lanes| == |s.lanes| && EndsUpFollowing(s'.lanes[p], s'.shared)
  {
    hide Reopened, FellBack, FollowedAfter;
    if created {
      ReopenedFollows(s.lanes[p], restart, s.shared.nextGeneration + p, Launch(s, restart, created).shared);
    }
  }

  lemma StepFollows(s: System, step: Step, cfg: Config, p: nat)
    requires SystemInv(s, cfg) && p < |s.lanes| && EndsUpFollowing(s.lanes[p], s.shared)
    ensures var s' := Next(s, step, cfg); |s'.lanes| == |s.lanes| && EndsUpFollowing(s'.lanes[p], s'.shared)
  {
    hide LaneNext, Launch, Recent, Started, Stopped, FollowedAfter, Channels, PageSide, StreamSide;
    assert LaneInv(s.lanes[p], s.shared, cfg.maxEvents);
    match step
    case OnLane(q, laneStep) =>
      if q == p {
        LaneStepFollows(s.lanes[p], laneStep, s.shared, cfg.maxEvents);
      }
    case Start(q, created) =>
      if q < |s.lanes| {
        var n := s.shared.nextGeneration;
        var begun := System(s.shared.(nextGeneration := n + 1), s.lanes[q := Started(s.lanes[q], n, s.shared)]);
        if q == p {
          StartedFollows(s.lanes[p], s.shared, begun.shared, cfg.maxEvents);
        }
        if s.shared.worker && !s.shared.up && !s.shared.restartArmed {
          LaunchFollows(begun, false, created, p);
        }
      }
    case Stop(q) =>
      if q == p {
        StoppedFollows(s.lanes[p], s.shared);
      }
    case Crash(at) =>
    case Relaunch(created) =>
      if s.shared.worker && s.shared.restartArmed {
        LaunchFollows(s, true, created, p);
      }
    case GiveUp =>
  }

  /**
    The worker follows exactly what the page hosts: over every run, through starts, stops, stale
    generations, crashes and restarts, a worker that has read its messages follows each hosted project
    under its current generation and no other.
   */
  lemma {:induction false} WorkerFollowsWhatIsHosted(projects: nat, steps: seq<Step>, cfg: Config, p: nat)
    requires p < projects
    ensures var s := Run(projects, steps, cfg); |s.lanes| == projects && EndsUpFollowing(s.lanes[p], s.shared)
  {
    hide Next;
    if steps != [] {
      hide EndsUpFollowing;
      WorkerFollowsWhatIsHosted(projects, steps[..|steps| - 1], cfg, p);
      EveryRunKeepsTheInvariant(projects, steps[..|steps| - 1], cfg);
      StepFollows(Run(projects, steps[..|steps| - 1], cfg), steps[|steps| - 1], cfg, p);
    }
  }
}
