/**
  What each event of the shared socket does to each facade, and that an open bridge has been told of
  exactly the current facades.
 */
module SocketMuxEffects {
  import opened Options
  import opened SocketMux
  import opened SocketMuxSafety

  // ---- one facade -----------------------------------------------------------------------------------

  /** The facade emitted one event and is now `ready`. */
  predicate Emits(f: Facade, g: Facade, ready: Ready, e: Emission) {
    g == f.(ready := ready, emitted := f.emitted + [e])
  }

  /** What a frame does to the facade it is for. */
  predicate Answers(f: Facade, g: Facade, kind: FrameKind, b: nat) {
    match kind
    case SubscribedFrame => if f.ready == Connecting then Emits(f, g, Open, OpenEvent) else g == f
    case EventFrame(data) => if f.ready == Open then Emits(f, g, Open, MessageEvent(data, ViaBridge(b))) else g == f
    case ClosedFrame => if f.ready != Closed then Emits(f, g, Closed, CloseEvent) else g == f
  }

  /**
    A well-formed frame of the current bridge opens, informs or closes the one facade that is current
    for its key and owns its subscription, as its kind says and only from the fitting state; every
    other facade stays as it is, and a frame of any other bridge does nothing.
   */
  lemma FrameEffect(m: Mux, b: nat, frame: Frame, refused: set<nat>, i: nat)
    requires Inv(m) && i < |m.facades|
    ensures var m', f := Next(m, BridgeFrame(b, Some(frame), refused)), m.facades[i];
            var mine := m.bridge == Some(b) && frame.subscription == i + 1 && Key(frame.client, frame.project) == KeyOf(f)
                        && Registered(m.facades, m.projects, i);
            && |m'.facades| == |m.facades| && m'.projects == m.projects && m'.bridge == m.bridge && m'.unavailable == m.unavailable
            && (m.bridge == Some(b) ==> m'.supported)
            && (mine ==> Answers(f, m'.facades[i], frame.kind, b))
            && (!mine ==> m'.facades[i] == f)
  {
    hide Key;
    Each(m, i);
  }

  /** A direct socket's events act on its own facade, from the fitting state; a facade without one hears none. */
  lemma DirectEffect(m: Mux, i: nat, event: DirectEvent)
    requires i < |m.facades|
    ensures var m', f := Next(m, Direct(i, event)), m.facades[i];
            var g := m'.facades[i];
            && m' == m.(facades := m.facades[i := g])
            && (!f.direct ==> g == f)
            && (f.direct ==>
                  match event
                  case DirectOpens => if f.ready == Connecting then Emits(f, g, Open, OpenEvent) else g == f
                  case DirectMessage(data) => if f.ready == Open then Emits(f, g, Open, MessageEvent(data, ViaDirect)) else g == f
                  case DirectErrors => Emits(f, g, f.ready, ErrorEvent)
                  case DirectCloses => if f.ready != Closed then Emits(f, g, Closed, CloseEvent) else g == f)
  {
  }

  // ---- the bridge is lost -----------------------------------------------------------------------------

  predicate EndedOnce(f: Facade, g: Facade) {
    if f.ready == Closed then g == f else Emits(f, g, Closed, CloseEvent)
  }

  /** The facade got a direct socket, or could not and closed with an error. */
  predicate WentDirect(f: Facade, g: Facade, works: bool) {
    if f.ready == Closed || f.direct then g == f
    else if works then g == f.(direct := true)
    else g == f.(ready := Closed, emitted := f.emitted + [ErrorEvent] + [CloseEvent])
  }

  /** Falling back: facades of a bridge that worked are closed and forgotten, those of one that never did go direct. */
  ghost predicate FellBack(m: Mux, m': Mux, refused: set<nat>) {
    && m'.unavailable && m'.bridge.None? && |m'.facades| == |m.facades|
    && (m.supported ==> m'.projects == map[]) && (!m.supported ==> m'.projects == m.projects)
    && forall i :: 0 <= i < |m.facades| ==>
         if !Registered(m.facades, m.projects, i) then m'.facades[i] == m.facades[i]
         else if m.supported then EndedOnce(m.facades[i], m'.facades[i])
         else WentDirect(m.facades[i], m'.facades[i], i !in refused)
  }

  ghost predicate AllEnded(m: Mux, m': Mux) {
    && m'.bridge.None? && m'.projects == map[] && m'.unavailable == m.unavailable && |m'.facades| == |m.facades|
    && forall i :: 0 <= i < |m.facades| ==>
         if Registered(m.facades, m.projects, i) then EndedOnce(m.facades[i], m'.facades[i]) else m'.facades[i] == m.facades[i]
  }

  lemma FallBackEffect(m: Mux, refused: set<nat>)
    ensures FellBack(m, FallBack(m, refused), refused)
  {
  }

  /**
    How the bridge is lost. A malformed frame, or an opening that takes too long, of the current bridge
    falls back; so does its close unless it had both opened and been understood, in which case every
    current facade is closed for its transport to reconnect. Other bridges' events concern no facade.
   */
  lemma BridgeLossEffect(m: Mux, b: nat, refused: set<nat>)
    requires b < |m.bridges|
    ensures var current := m.bridge == Some(b);
            && (if current then FellBack(m, Next(m, BridgeFrame(b, None, refused)), refused)
                else Next(m, BridgeFrame(b, None, refused)) == m)
            && (if current && m.bridges[b].ready == Connecting then FellBack(m, Next(m, OpenTimesOut(b, refused)), refused)
                else Next(m, OpenTimesOut(b, refused)) == m)
            && var m' := Next(m, BridgeCloses(b, refused));
               if !current then m' == m.(bridges := m'.bridges)
               else if m.bridges[b].greeted && m.bridges[b].contractSeen then AllEnded(m, m')
               else FellBack(m, m', refused)
  {
    hide FellBack, FallBack;
    FallBackEffect(m, refused);
    var lost := m.(bridges := m.bridges[b := m.bridges[b].(ready := Closed)], bridge := None);
    FallBackEffect(lost, refused);
    SameFallBack(m, lost, FallBack(lost, refused), refused);
  }

  lemma SameFallBack(m: Mux, lost: Mux, m': Mux, refused: set<nat>)
    requires FellBack(lost, m', refused) && lost == m.(bridges := lost.bridges, bridge := None)
    ensures FellBack(m, m', refused)
  {
    hide EndedOnce, WentDirect;
  }

  // ---- opening and closing ------------------------------------------------------------------------------

  /** Closing a facade closes it once and forgets it if it was the current one; no other facade changes. */
  lemma CloseEffect(m: Mux, i: nat)
    requires Shape(m) && i < |m.facades|
    ensures var m' := Next(m, FacadeClosed(i));
            && |m'.facades| == |m.facades| && EndedOnce(m.facades[i], m'.facades[i])
            && (forall j :: 0 <= j < |m.facades| && j != i ==> m'.facades[j] == m.facades[j])
            && m'.projects == (if Registered(m.facades, m.projects, i) then m.projects - {KeyOf(m.facades[i])} else m.projects)
  {
    hide Remove;
    CloseShape(m, i);
    if Registered(m.facades, m.projects, i) {
      RemovedContext(m, i);
    } else {
      NothingRemoved(m, i);
    }
  }

  /** Opening a project makes one new facade, current for its key under the next subscription, after closing the old one. */
  lemma OpenEffect(m: Mux, client: string, project: string, works: bool, refused: set<nat>)
    requires Inv(m)
    ensures var m', n, key := Next(m, ProjectOpened(client, project, works, refused)), |m.facades|, Key(client, project);
            && |m'.facades| == n + 1
            && m'.facades[n].client == client && m'.facades[n].project == project && m'.facades[n].subscription == m.nextSubscription
            && m'.nextSubscription == m.nextSubscription + 1
            && (key in m.projects ==> m.projects[key] < n && m'.facades[m.projects[key]].ready == Closed)
            && (m.unavailable ==> WentDirect(Facade(client, project, m.nextSubscription, Connecting, false, []), m'.facades[n], n !in refused))
            && (!m.unavailable && (works || (m.bridge.Some? && key !in m.projects)) ==>
                  m'.facades[n] == Facade(client, project, m.nextSubscription, Connecting, false, []) && m'.bridge.Some?
                  && key in m'.projects && m'.projects[key] == n)
  {
    hide Key, CloseFacade, AllSound, AllCarried;
    var key := Key(client, project);
    var free := Supersede(m, client, project);
    if key in m.projects {
      CloseShape(m, m.projects[key]);
      CloseKeeps(m, m.projects[key]);
      EndedIsClosed(m.facades[m.projects[key]]);
    }
    var added := AddFacade(free, client, project);
    assert added.projects[key] == |m.facades| && added.projects != map[];
    OpenedLast(m, free, added, works, refused);
  }

  lemma EndedIsClosed(f: Facade)
    ensures Ended(f).ready == Closed
  {
  }

  lemma OpenedLast(m: Mux, free: Mux, added: Mux, works: bool, refused: set<nat>)
    requires |free.facades| == |m.facades| && free.unavailable == m.unavailable && added.facades != [] && added.projects != map[]
    requires added.bridge == free.bridge && added.unavailable == free.unavailable && |added.facades| == |free.facades| + 1
    requires added.facades[|free.facades|].emitted == [] && added.facades[|free.facades|].ready == Connecting
    requires forall i :: 0 <= i < |free.facades| ==> added.facades[i] == free.facades[i]
    ensures var m', n := Carry(added, works, refused), |m.facades|;
            && |m'.facades| == n + 1 && m'.nextSubscription == added.nextSubscription
            && Later(added.facades[n], m'.facades[n])
            && (forall i :: 0 <= i < n && free.facades[i].ready == Closed ==> m'.facades[i].ready == Closed)
            && (m.unavailable ==> WentDirect(added.facades[n], m'.facades[n], n !in refused))
            && (!m.unavailable && (added.bridge.Some? || works) ==>
                  m'.facades == added.facades && m'.bridge.Some? && m'.projects == added.projects)
  {
    hide FallBack, Registered;
    FallBackClosed(added, refused);
    FallbackIsLater(added, refused);
  }

  lemma FallBackClosed(m: Mux, refused: set<nat>)
    ensures var m' := FallBack(m, refused);
            && |m'.facades| == |m.facades| && m'.nextSubscription == m.nextSubscription
            && forall i :: 0 <= i < |m.facades| && m.facades[i].ready == Closed ==> m'.facades[i].ready == Closed
  {
  }

  // ---- what the bridge has been told ---------------------------------------------------------------------

  predicate Current(m: Mux, subscription: nat) {
    1 <= subscription <= |m.facades| && Registered(m.facades, m.projects, subscription - 1)
  }

  /** An open bridge was last told to subscribe exactly the current facades; one still opening was told nothing. */
  ghost predicate Told(m: Mux) {
    m.bridge.Some? && m.bridge.value < |m.bridges| ==>
      var bridge := m.bridges[m.bridge.value];
      && (bridge.ready == Connecting ==> bridge.sent == [])
      && (bridge.ready == Open ==> forall s: nat :: LastVerb(bridge.sent, s) == Some(Subscribe) <==> Current(m, s))
  }

  lemma {:induction false} SubscribesExactly(facades: seq<Facade>, projects: map<string, nat>, n: nat, s: nat)
    requires n <= |facades| && forall j :: 0 <= j < |facades| ==> facades[j].subscription == j + 1
    ensures LastVerb(Subscribes(facades, projects, n), s) == Some(Subscribe)
            <==> 1 <= s <= n && Registered(facades, projects, s - 1)
  {
    if n > 0 {
      SubscribesExactly(facades, projects, n - 1, s);
      if Registered(facades, projects, n - 1) {
        LastVerbMore(Subscribes(facades, projects, n - 1), CommandFor(Subscribe, facades[n - 1]), s);
      }
    }
  }

  /** Neither the bridge nor the registrations changed. */
  lemma SameTold(m: Mux, m': Mux)
    requires Told(m) && |m'.facades| == |m.facades|
    requires forall i :: 0 <= i < |m.facades| ==> (Registered(m'.facades, m'.projects, i) <==> Registered(m.facades, m.projects, i))
    requires m'.bridge == m.bridge && |m'.bridges| == |m.bridges|
    requires m.bridge.Some? && m.bridge.value < |m.bridges| ==>
               m'.bridges[m.bridge.value].ready == m.bridges[m.bridge.value].ready && m'.bridges[m.bridge.value].sent == m.bridges[m.bridge.value].sent
    ensures Told(m')
  {
    hide Registered, LastVerb;
    assert forall s: nat :: Current(m', s) <==> Current(m, s);
  }

  lemma CloseTold(m: Mux, i: nat)
    requires Told(m) && Inv(m) && i < |m.facades|
    ensures Told(CloseFacade(m, i))
  {
    hide LastVerb, Remove, Ended, AllCarried, AllSound;
    var m' := CloseFacade(m, i);
    CloseShape(m, i);
    SoundNumbers(m);
    if !Registered(m.facades, m.projects, i) {
      NothingRemoved(m, i);
      EndedKey(m.facades[i]);
      SameTold(m, m');
    } else {
      RemovedContext(m, i);
      RemovedBridge(m, i);
      EndedKey(m.facades[i]);
      if m'.bridge.Some? && m'.bridges[m'.bridge.value].ready == Open {
        forall s: nat ensures LastVerb(m'.bridges[m'.bridge.value].sent, s) == Some(Subscribe) <==> Current(m', s) {
          LastVerbMore(m.bridges[m.bridge.value].sent, CommandFor(Unsubscribe, m.facades[i]), s);
          RegisteredAfter(m, m', i, s);
        }
      }
    }
  }

  lemma EndedKey(f: Facade)
    ensures KeyOf(Ended(f)) == KeyOf(f)
  {
  }

  lemma RegisteredAfter(m: Mux, m': Mux, i: nat, s: nat)
    requires i < |m.facades| == |m'.facades| && Registered(m.facades, m.projects, i) && m'.projects == m.projects - {KeyOf(m.facades[i])}
    requires forall j :: 0 <= j < |m.facades| ==> KeyOf(m'.facades[j]) == KeyOf(m.facades[j])
    ensures Current(m', s) <==> Current(m, s) && s != i + 1
  {
  }

  lemma RemovedBridge(m: Mux, i: nat)
    requires Shape(m) && i < |m.facades| && Registered(m.facades, m.projects, i)
    ensures var m' := Remove(m, i);
            m'.bridge.Some? ==>
              && m'.bridge == m.bridge && |m'.bridges| == |m.bridges| && m'.projects != map[]
              && m'.bridges[m.bridge.value].ready == m.bridges[m.bridge.value].ready
              && (m.bridges[m.bridge.value].ready == Connecting ==> m'.bridges[m.bridge.value].sent == m.bridges[m.bridge.value].sent)
  {
  }

  lemma CarryTold(free: Mux, client: string, project: string, works: bool, refused: set<nat>)
    requires Told(free) && Inv(free) && Key(client, project) !in free.projects
    ensures Told(Carry(AddFacade(free, client, project), works, refused))
  {
    hide LastVerb, FallBack, Key, AllCarried;
    var m, n := AddFacade(free, client, project), |free.facades|;
    var m' := Carry(m, works, refused);
    SoundNumbers(free);
    AddedRegistration(free, client, project);
    if m.unavailable {
    } else if BridgeIsOpen(m) {
      var b := m.bridge.value;
      forall s: nat ensures LastVerb(m'.bridges[b].sent, s) == Some(Subscribe) <==> Current(m', s) {
        LastVerbMore(free.bridges[b].sent, CommandFor(Subscribe, m.facades[n]), s);
        assert Current(m', s) <==> Current(free, s) || s == n + 1;
      }
    } else if m.bridge.None? && !works {
      FallBackEffect(m, refused);
    }
  }

  lemma AddedRegistration(free: Mux, client: string, project: string)
    requires Shape(free) && Key(client, project) !in free.projects
    ensures var m := AddFacade(free, client, project); forall s: nat :: Current(m, s) <==> Current(free, s) || s == |free.facades| + 1
  {
    hide Key;
  }

  lemma OpenTold(m: Mux, client: string, project: string, works: bool, refused: set<nat>)
    requires Told(m) && Inv(m)
    ensures Told(OpenProject(m, client, project, works, refused))
  {
    hide Carry, CloseFacade, Key, AllSound, AllCarried, Told;
    var key := Key(client, project);
    if key in m.projects {
      CloseTold(m, m.projects[key]);
      CloseKeeps(m, m.projects[key]);
      CloseShape(m, m.projects[key]);
    }
    CarryTold(Supersede(m, client, project), client, project, works, refused);
  }

  lemma BridgeOpenTold(m: Mux, b: nat)
    requires Told(m) && Inv(m)
    ensures Told(OnBridgeOpen(m, b))
  {
    hide LastVerb, Subscribes, AllCarried;
    if b < |m.bridges| && m.bridges[b].ready == Connecting && m.bridge == Some(b) {
      SoundNumbers(m);
      assert [] + Subscribes(m.facades, m.projects, |m.facades|) == Subscribes(m.facades, m.projects, |m.facades|);
      forall s: nat ensures LastVerb(Subscribes(m.facades, m.projects, |m.facades|), s) == Some(Subscribe) <==> Current(m, s) {
        SubscribesExactly(m.facades, m.projects, |m.facades|, s);
      }
      assert forall s: nat :: Current(OnBridgeOpen(m, b), s) <==> Current(m, s);
    } else {
      SameTold(m, OnBridgeOpen(m, b));
    }
  }

  lemma StepTold(m: Mux, step: Step)
    requires Told(m) && Inv(m)
    ensures Told(Next(m, step))
  {
    hide AllSound, AllCarried, OpenProject, CloseFacade, OnBridgeOpen, FallBack, LastVerb, Key;
    match step
    case ProjectOpened(client, project, works, refused) => OpenTold(m, client, project, works, refused);
    case FacadeClosed(i) =>
      if i < |m.facades| {
        CloseTold(m, i);
      }
    case BridgeOpens(b) => BridgeOpenTold(m, b);
    case BridgeFrame(b, frame, refused) =>
      FallBackEffect(m, refused);
      if m.bridge == Some(b) && b < |m.bridges| && frame.Some? {
        ReceivedKeepsKey(m, b, frame.value);
        SameTold(m, Next(m, step));
      }
    case BridgeCloses(b, refused) => BridgeCloseTold(m, b, refused);
    case OpenTimesOut(b, refused) => FallBackEffect(m, refused);
    case Direct(i, event) =>
      if i < |m.facades| {
        DirectKeepsKey(m.facades[i], event);
        SameTold(m, Next(m, step));
      }
  }

  lemma DirectKeepsKey(f: Facade, event: DirectEvent)
    ensures KeyOf(OnDirect(f, event)) == KeyOf(f)
  {
  }

  lemma BridgeCloseTold(m: Mux, b: nat, refused: set<nat>)
    requires Told(m)
    ensures Told(OnBridgeClose(m, b, refused))
  {
    hide FallBack, LastVerb;
    if b < |m.bridges| {
      if m.bridge == Some(b) {
        BridgeLossEffect(m, b, refused);
      } else {
        SameTold(m, OnBridgeClose(m, b, refused));
      }
    }
  }

  /** Over every run an open bridge was last told to subscribe exactly the current facades, and unsubscribe every other it was told of. */
  lemma {:induction false} BridgeKnowsExactlyTheCurrent(steps: seq<Step>)
    ensures Told(Run(steps))
  {
    hide Next;
    if steps != [] {
      hide Told;
      BridgeKnowsExactlyTheCurrent(steps[..|steps| - 1]);
      EveryRunKeepsTheInvariant(steps[..|steps| - 1]);
      StepTold(Run(steps[..|steps| - 1]), steps[|steps| - 1]);
    }
  }
}
