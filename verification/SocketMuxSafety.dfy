/** What the shared socket keeps over every run. */
module SocketMuxSafety {
  import opened Options
  import opened SocketMux

  // ---- the events of one facade -------------------------------------------------------------------

  /** The state a stream of events leads to; `None` once it broke the order open, messages, close. */
  function Replay(events: seq<Emission>): Option<Ready> {
    if events == [] then Some(Connecting)
    else
      var before := Replay(events[..|events| - 1]);
      match events[|events| - 1]
      case OpenEvent => if before == Some(Connecting) then Some(Open) else None
      case MessageEvent(_, _) => if before == Some(Open) then Some(Open) else None
      case ErrorEvent => before
      case CloseEvent => if before == Some(Connecting) || before == Some(Open) then Some(Closed) else None
  }

  lemma ReplayMore(events: seq<Emission>, e: Emission)
    ensures (events + [e])[..|events|] == events
    ensures Replay(events + [e]) ==
            match e
            case OpenEvent => if Replay(events) == Some(Connecting) then Some(Open) else None
            case MessageEvent(_, _) => if Replay(events) == Some(Open) then Some(Open) else None
            case ErrorEvent => Replay(events)
            case CloseEvent => if Replay(events) == Some(Connecting) || Replay(events) == Some(Open) then Some(Closed) else None
  {
    assert (events + [e])[..|events|] == events;
  }

  lemma {:induction false} ReplayPrefix(events: seq<Emission>, n: nat)
    requires n <= |events| && Replay(events).Some?
    ensures Replay(events[..n]).Some?
    ensures Replay(events[..n]) == Some(Closed) ==> Replay(events) == Some(Closed)
    ensures Replay(events) == Some(Connecting) ==> Replay(events[..n]) == Some(Connecting)
    decreases |events|
  {
    if n == |events| {
      assert events[..n] == events;
    } else {
      var front := events[..|events| - 1];
      ReplayPrefix(front, n);
      assert front[..n] == events[..n];
    }
  }

  /** What an unbroken stream means: one open, one close, and messages only between the two. */
  lemma UnbrokenStream(events: seq<Emission>, i: nat, j: nat)
    requires Replay(events).Some? && i < j < |events|
    ensures !(events[i].OpenEvent? && events[j].OpenEvent?)
    ensures !(events[i].CloseEvent? && events[j].CloseEvent?)
    ensures !(events[i].CloseEvent? && (events[j].MessageEvent? || events[j].OpenEvent?))
    ensures !(events[i].MessageEvent? && events[j].OpenEvent?)
  {
    ReplayPrefix(events, j + 1);
    ReplayPrefix(events[..j + 1], j);
    assert events[..j + 1][..j] == events[..j];
    ReplayPrefix(events[..j], i + 1);
    assert events[..j][..i + 1] == events[..i + 1] && events[..i + 1][..i] == events[..i];
  }

  /** A message is preceded by the open event. */
  lemma {:induction false} OpenBeforeMessages(events: seq<Emission>)
    ensures Replay(events) == Some(Open) ==> OpenEvent in events
  {
    if events != [] {
      var front := events[..|events| - 1];
      OpenBeforeMessages(front);
      assert forall e :: e in front ==> e in events;
      assert events[|events| - 1] in events;
    }
  }

  ghost predicate OnlyVia(events: seq<Emission>, via: Via) {
    forall i :: 0 <= i < |events| && events[i].MessageEvent? ==> events[i].via == via
  }

  ghost predicate Silent(events: seq<Emission>) {
    forall i :: 0 <= i < |events| ==> !events[i].MessageEvent?
  }

  ghost predicate OneCarrier(events: seq<Emission>) {
    exists via :: OnlyVia(events, via)
  }

  // ---- the invariant --------------------------------------------------------------------------------

  /** The last command sent about a subscription. */
  function LastVerb(sent: seq<Command>, subscription: nat): Option<Verb> {
    if sent == [] then None
    else if sent[|sent| - 1].subscription == subscription then Some(sent[|sent| - 1].verb)
    else LastVerb(sent[..|sent| - 1], subscription)
  }

  lemma LastVerbMore(sent: seq<Command>, c: Command, subscription: nat)
    ensures LastVerb(sent + [c], subscription) == if c.subscription == subscription then Some(c.verb) else LastVerb(sent, subscription)
  {
    assert (sent + [c])[..|sent|] == sent;
  }

  /** A facade by itself: its stream, its registration while it lives, its one carrier. */
  ghost predicate Sound(m: Mux, i: nat)
    requires i < |m.facades|
  {
    var f := m.facades[i];
    && f.subscription == i + 1 && Replay(f.emitted) == Some(f.ready)
    && (f.ready != Closed ==> Registered(m.facades, m.projects, i))
    && (f.direct ==> m.unavailable && OnlyVia(f.emitted, ViaDirect))
    && (!f.direct && !m.supported ==> Silent(f.emitted))
    && OneCarrier(f.emitted)
  }

  /** A live facade without a direct socket has the bridge, and an open bridge was told of it. */
  ghost predicate Carried(m: Mux, i: nat)
    requires i < |m.facades|
  {
    var f := m.facades[i];
    f.ready != Closed && !f.direct ==>
      && m.bridge.Some? && OnlyVia(f.emitted, ViaBridge(m.bridge.value))
      && (BridgeIsOpen(m) ==> LastVerb(m.bridges[m.bridge.value].sent, f.subscription) == Some(Subscribe))
  }

  ghost predicate Shape(m: Mux) {
    && m.nextSubscription == |m.facades| + 1
    && (forall k :: k in m.projects ==> m.projects[k] < |m.facades| && KeyOf(m.facades[m.projects[k]]) == k)
    && (m.bridge.Some? ==> m.bridge.value < |m.bridges| && !m.unavailable)
  }

  ghost predicate AllSound(m: Mux) {
    forall i :: 0 <= i < |m.facades| ==> Sound(m, i)
  }

  ghost predicate AllCarried(m: Mux) {
    forall i :: 0 <= i < |m.facades| ==> Carried(m, i)
  }

  ghost predicate Inv(m: Mux) {
    Shape(m) && AllSound(m) && AllCarried(m)
  }

  // ---- steps of one facade ----------------------------------------------------------------------------

  /** Facade `i` is as it was, and what it depends on is no worse. */
  lemma SameSound(m: Mux, m': Mux, i: nat)
    requires i < |m.facades| && i < |m'.facades| && Sound(m, i) && m'.facades[i] == m.facades[i]
    requires Registered(m.facades, m.projects, i) ==> Registered(m'.facades, m'.projects, i)
    requires (m.unavailable ==> m'.unavailable) && (m.supported ==> m'.supported)
    ensures Sound(m', i)
  {
  }

  lemma SameCarried(m: Mux, m': Mux, i: nat)
    requires i < |m.facades| && i < |m'.facades| && Carried(m, i) && m'.facades[i] == m.facades[i]
    requires m'.bridge == m.bridge
    requires BridgeIsOpen(m') ==>
               && BridgeIsOpen(m)
               && LastVerb(m'.bridges[m'.bridge.value].sent, m.facades[i].subscription)
                  == LastVerb(m.bridges[m.bridge.value].sent, m.facades[i].subscription)
    ensures Carried(m', i)
  {
  }

  /** `g` is `f` after one more event that is no message, keeping its stream unbroken. */
  ghost predicate Quietly(f: Facade, g: Facade) {
    && g == f.(ready := g.ready, emitted := g.emitted)
    && (Replay(f.emitted) == Some(f.ready) ==> Replay(g.emitted) == Some(g.ready))
    && (f.ready == Closed ==> g.ready == Closed)
    && (Silent(f.emitted) ==> Silent(g.emitted))
    && (forall via :: OnlyVia(f.emitted, via) ==> OnlyVia(g.emitted, via))
  }

  lemma EmitQuietly(f: Facade, e: Emission)
    requires !e.MessageEvent?
    ensures Silent(f.emitted) ==> Silent(Emit(f, e).emitted)
    ensures forall via :: OnlyVia(f.emitted, via) ==> OnlyVia(Emit(f, e).emitted, via)
  {
  }

  lemma OpenedQuietly(f: Facade)
    ensures Quietly(f, Opened(f))
  {
    ReplayMore(f.emitted, OpenEvent);
    EmitQuietly(f, OpenEvent);
  }

  lemma EndedQuietly(f: Facade)
    ensures Quietly(f, Ended(f)) && Ended(f).ready == Closed
  {
    ReplayMore(f.emitted, CloseEvent);
    EmitQuietly(f, CloseEvent);
  }

  lemma ErrorQuietly(f: Facade)
    ensures Quietly(f, Emit(f, ErrorEvent))
  {
    ReplayMore(f.emitted, ErrorEvent);
    EmitQuietly(f, ErrorEvent);
  }

  lemma QuietSound(m: Mux, m': Mux, i: nat)
    requires i < |m.facades| && i < |m'.facades| && Sound(m, i) && Quietly(m.facades[i], m'.facades[i])
    requires m'.facades[i].ready != Closed ==> Registered(m'.facades, m'.projects, i)
    requires (m.unavailable ==> m'.unavailable) && (m.supported ==> m'.supported)
    ensures Sound(m', i)
  {
    hide Replay, OnlyVia, Silent;
    var via :| OnlyVia(m.facades[i].emitted, via);
    assert OnlyVia(m'.facades[i].emitted, via);
  }

  lemma MessageSound(f: Facade, data: string, via: Via)
    requires Replay(f.emitted) == Some(f.ready) && OnlyVia(f.emitted, via)
    ensures var g := Messaged(f, data, via);
            && g == f.(emitted := g.emitted) && Replay(g.emitted) == Some(g.ready) && OnlyVia(g.emitted, via)
  {
    ReplayMore(f.emitted, MessageEvent(data, via));
  }

  /** Going direct: the facade has never heard a message, and now lives on its own socket or is closed. */
  lemma DirectSound(f: Facade, works: bool)
    requires Replay(f.emitted) == Some(f.ready) && (!f.direct ==> Silent(f.emitted))
    ensures var g := UseDirect(f, works);
            && Replay(g.emitted) == Some(g.ready) && g == f.(ready := g.ready, direct := g.direct, emitted := g.emitted)
            && (g.ready != Closed ==> g.direct) && (f.direct ==> g.direct) && (f.ready == Closed ==> g == f)
            && (forall via :: OnlyVia(f.emitted, via) ==> OnlyVia(g.emitted, via))
            && (Silent(f.emitted) ==> Silent(g.emitted))
            && (!f.direct ==> OnlyVia(g.emitted, ViaDirect))
  {
    ErrorQuietly(f);
    EndedQuietly(Emit(f, ErrorEvent));
  }

  // ---- steps of the multiplexer -------------------------------------------------------------------------

  lemma EndAllKeeps(m: Mux, m': Mux)
    requires AllSound(m) && m'.facades == EndRegistered(m.facades, m.projects)
    requires (m.unavailable ==> m'.unavailable) && (m.supported ==> m'.supported)
    ensures AllSound(m') && AllCarried(m')
  {
    hide Replay, OnlyVia, Silent, OneCarrier, Ended, Quietly;
    forall i | 0 <= i < |m'.facades| ensures Sound(m', i) && Carried(m', i) {
      assert Sound(m, i);
      EndedQuietly(m.facades[i]);
      if Registered(m.facades, m.projects, i) {
        QuietSound(m, m', i);
      }
    }
  }

  lemma DirectOneKeeps(m: Mux, m': Mux, i: nat, works: bool)
    requires i < |m.facades| && i < |m'.facades| && Sound(m, i) && !m.supported && m'.unavailable && m'.supported == m.supported
    requires m'.facades[i] == UseDirect(m.facades[i], works)
    requires m'.facades[i].ready != Closed ==> Registered(m'.facades, m'.projects, i)
    ensures Sound(m', i) && Carried(m', i)
  {
    hide Replay, OnlyVia, Silent, UseDirect;
    DirectSound(m.facades[i], works);
    var via :| OnlyVia(m.facades[i].emitted, via);
    assert OnlyVia(m'.facades[i].emitted, via);
  }

  lemma DirectAllKeeps(m: Mux, m': Mux, refused: set<nat>)
    requires AllSound(m) && m'.facades == DirectRegistered(m.facades, m.projects, refused) && m'.projects == m.projects
    requires !m.supported && m'.unavailable && m'.supported == m.supported
    ensures AllSound(m') && AllCarried(m')
  {
    hide Replay, OnlyVia, Silent, OneCarrier, UseDirect;
    forall i | 0 <= i < |m'.facades| ensures Sound(m', i) && Carried(m', i) {
      assert Sound(m, i);
      DirectSound(m.facades[i], i !in refused);
      if Registered(m.facades, m.projects, i) {
        DirectOneKeeps(m, m', i, i !in refused);
      }
    }
  }

  lemma FallbackKeeps(m: Mux, refused: set<nat>)
    requires Shape(m) && AllSound(m)
    ensures Inv(FallBack(m, refused)) && FallBack(m, refused).unavailable
  {
    hide AllSound, AllCarried, Ended, UseDirect;
    var m' := FallBack(m, refused);
    if m.supported {
      EndAllKeeps(m, m');
    } else {
      DirectAllKeeps(m, m', refused);
      DirectKeepsKeys(m, refused);
    }
  }

  lemma DirectKeepsKeys(m: Mux, refused: set<nat>)
    ensures var r := DirectRegistered(m.facades, m.projects, refused);
            forall i :: 0 <= i < |r| ==> KeyOf(r[i]) == KeyOf(m.facades[i])
  {
  }

  /** A key names one current facade, so taking another one out leaves it current. */
  lemma StillRegistered(m: Mux, i: nat, j: nat)
    requires Shape(m) && i < |m.facades| && j < |m.facades| && i != j
    requires Registered(m.facades, m.projects, i) && Registered(m.facades, m.projects, j)
    ensures KeyOf(m.facades[i]) != KeyOf(m.facades[j])
  {
  }

  lemma RemovedContext(m: Mux, i: nat)
    requires Shape(m) && i < |m.facades| && Registered(m.facades, m.projects, i)
    ensures var m', key := Remove(m, i), KeyOf(m.facades[i]);
            && Shape(m') && m'.facades == m.facades && m'.projects == m.projects - {key}
            && m'.unavailable == m.unavailable && m'.supported == m.supported
            && (m'.projects != map[] ==>
                  && m'.bridge == m.bridge && (BridgeIsOpen(m') <==> BridgeIsOpen(m))
                  && (BridgeIsOpen(m) ==>
                        m'.bridges[m.bridge.value].sent == m.bridges[m.bridge.value].sent + [CommandFor(Unsubscribe, m.facades[i])]))
  {
  }

  lemma CloseKeepsOther(m: Mux, m': Mux, i: nat, j: nat)
    requires Inv(m) && i < |m.facades| && j < |m.facades| && j != i && m' == CloseFacade(m, i)
    ensures Sound(m', j) && Carried(m', j)
  {
    hide Replay, OnlyVia, Silent, OneCarrier, LastVerb, Remove, AllSound, AllCarried;
    assert Sound(m, j) && Carried(m, j) && Sound(m, i) by { Each(m, i); Each(m, j); }
    if Registered(m.facades, m.projects, i) {
      RemovedContext(m, i);
      if Registered(m.facades, m.projects, j) {
        StillRegistered(m, i, j);
        assert m'.projects != map[] by { assert KeyOf(m.facades[j]) in m'.projects; }
      }
      if m'.projects != map[] && BridgeIsOpen(m) {
        LastVerbMore(m.bridges[m.bridge.value].sent, CommandFor(Unsubscribe, m.facades[i]), m.facades[j].subscription);
      }
      SameSound(m, m', j);
      if m'.projects != map[] {
        SameCarried(m, m', j);
      }
    } else {
      NothingRemoved(m, i);
      SameSound(m, m', j);
      SameCarried(m, m', j);
    }
  }

  lemma NothingRemoved(m: Mux, i: nat)
    requires i < |m.facades| && !Registered(m.facades, m.projects, i)
    ensures Remove(m, i) == m
  {
  }

  lemma Each(m: Mux, i: nat)
    requires Inv(m) && i < |m.facades|
    ensures Sound(m, i) && Carried(m, i)
  {
  }

  lemma CloseKeeps(m: Mux, i: nat)
    requires Inv(m) && i < |m.facades|
    ensures Inv(CloseFacade(m, i))
  {
    hide Sound, Carried, Remove, Ended;
    var m' := CloseFacade(m, i);
    CloseShape(m, i);
    forall j | 0 <= j < |m'.facades| ensures Sound(m', j) && Carried(m', j) {
      if j == i {
        CloseKeepsOwn(m, i);
      } else {
        CloseKeepsOther(m, m', i, j);
      }
    }
  }

  lemma CloseShape(m: Mux, i: nat)
    requires Shape(m) && i < |m.facades|
    ensures var m' := CloseFacade(m, i);
            && Shape(m') && |m'.facades| == |m.facades| && m'.facades[i] == Ended(m.facades[i])
            && m'.projects == m.projects - (if Registered(m.facades, m.projects, i) then {KeyOf(m.facades[i])} else {})
            && m'.unavailable == m.unavailable && m'.supported == m.supported
  {
    hide Remove;
    if Registered(m.facades, m.projects, i) {
      RemovedContext(m, i);
    } else {
      NothingRemoved(m, i);
    }
    assert KeyOf(Ended(m.facades[i])) == KeyOf(m.facades[i]);
  }

  lemma CloseKeepsOwn(m: Mux, i: nat)
    requires Inv(m) && i < |m.facades|
    ensures Sound(CloseFacade(m, i), i) && Carried(CloseFacade(m, i), i)
  {
    hide Replay, OnlyVia, Silent, OneCarrier, Remove, Quietly, Ended, AllSound, AllCarried, CloseFacade;
    var m' := CloseFacade(m, i);
    Each(m, i);
    CloseShape(m, i);
    EndedQuietly(m.facades[i]);
    QuietSound(m, m', i);
  }

  // ---- opening a project ----------------------------------------------------------------------------------

  /** All facades but the newest are in order, and the newest only lacks its carrier. */
  ghost predicate Added(m: Mux) {
    && Shape(m) && AllSound(m) && m.facades != []
    && (forall i :: 0 <= i < |m.facades| - 1 ==> Carried(m, i))
    && var f := m.facades[|m.facades| - 1]; f.emitted == [] && f.ready == Connecting && !f.direct
  }

  lemma AddKeeps(m: Mux, client: string, project: string)
    requires Inv(m) && Key(client, project) !in m.projects
    ensures Added(AddFacade(m, client, project))
  {
    hide Replay, OnlyVia, Silent, LastVerb, Key;
    var m', n := AddFacade(m, client, project), |m.facades|;
    forall i | 0 <= i < n ensures Sound(m', i) && Carried(m', i) {
      Each(m, i);
      SameSound(m, m', i);
      SameCarried(m, m', i);
    }
    NewSound(m', n);
  }

  lemma NewSound(m: Mux, n: nat)
    requires n < |m.facades| && m.facades[n] == Facade(m.facades[n].client, m.facades[n].project, n + 1, Connecting, false, [])
    requires Registered(m.facades, m.projects, n)
    ensures Sound(m, n)
  {
    assert OnlyVia(m.facades[n].emitted, ViaDirect);
  }

  lemma CarryDirect(m: Mux, refused: set<nat>)
    requires Added(m) && m.unavailable
    ensures Inv(Carry(m, true, refused)) && Inv(Carry(m, false, refused))
  {
    hide Replay, OnlyVia, Silent, OneCarrier, UseDirect;
    var n := |m.facades| - 1;
    var m' := m.(facades := m.facades[n := UseDirect(m.facades[n], n !in refused)]);
    assert Sound(m, n);
    NoEvents(m.facades[n]);
    DirectSound(m.facades[n], n !in refused);
    forall i | 0 <= i < n ensures Sound(m', i) && Carried(m', i) {
      assert Sound(m, i) && Carried(m, i);
      SameSound(m, m', i);
      SameCarried(m, m', i);
    }
    NewDirect(m, m', n, n !in refused);
  }

  lemma NoEvents(f: Facade)
    requires f.emitted == []
    ensures Silent(f.emitted) && forall via :: OnlyVia(f.emitted, via)
  {
  }

  lemma NewDirect(m: Mux, m': Mux, n: nat, works: bool)
    requires n < |m.facades| && Sound(m, n) && m.facades[n].emitted == [] && m.unavailable
    requires m' == m.(facades := m.facades[n := UseDirect(m.facades[n], works)])
    requires Registered(m.facades, m.projects, n)
    ensures Sound(m', n) && Carried(m', n)
  {
    hide Replay, UseDirect;
    NoEvents(m.facades[n]);
    DirectSound(m.facades[n], works);
    assert OnlyVia(m'.facades[n].emitted, ViaDirect);
  }

  lemma CarrySubscribed(m: Mux)
    requires Added(m) && BridgeIsOpen(m)
    ensures Inv(Send(m, CommandFor(Subscribe, m.facades[|m.facades| - 1])))
  {
    hide Replay, Silent, LastVerb;
    var n, b := |m.facades| - 1, m.bridge.value;
    var command := CommandFor(Subscribe, m.facades[n]);
    var m' := Send(m, command);
    assert Sound(m, n);
    forall i | 0 <= i <= n ensures Sound(m', i) && Carried(m', i) {
      assert Sound(m, i);
      SameSound(m, m', i);
      LastVerbMore(m.bridges[b].sent, command, m.facades[i].subscription);
      if i < n {
        assert Carried(m, i);
        SameCarried(m, m', i);
      }
    }
  }

  lemma CarryConnecting(m: Mux, works: bool, refused: set<nat>)
    requires Added(m) && !m.unavailable && !BridgeIsOpen(m)
    ensures Inv(Connect(m, works, refused))
  {
    hide Replay, Silent, LastVerb, FallBack;
    var m', n := Connect(m, works, refused), |m.facades| - 1;
    assert Sound(m, n);
    assert KeyOf(m.facades[n]) in m.projects;
    if m.bridge.None? && !works {
      FallbackKeeps(m, refused);
    } else {
      forall i | 0 <= i <= n ensures Sound(m', i) && Carried(m', i) {
        assert Sound(m, i);
        SameSound(m, m', i);
        assert i < n ==> Carried(m, i);
      }
    }
  }

  lemma OpenKeeps(m: Mux, client: string, project: string, works: bool, refused: set<nat>)
    requires Inv(m)
    ensures Inv(OpenProject(m, client, project, works, refused))
  {
    hide AllSound, AllCarried, Connect, CloseFacade, Key;
    var key := Key(client, project);
    var free := Supersede(m, client, project);
    assert Inv(free) && key !in free.projects by {
      if key in m.projects {
        CloseKeeps(m, m.projects[key]);
        CloseShape(m, m.projects[key]);
      }
    }
    AddKeeps(free, client, project);
    var m1 := AddFacade(free, client, project);
    if m1.unavailable {
      CarryDirect(m1, refused);
    } else if BridgeIsOpen(m1) {
      CarrySubscribed(m1);
    } else {
      CarryConnecting(m1, works, refused);
    }
  }

  // ---- the bridge's events ------------------------------------------------------------------------------------

  lemma {:induction false} SubscribesAll(facades: seq<Facade>, projects: map<string, nat>, n: nat, sent: seq<Command>, i: nat)
    requires n <= |facades| && i < n && Registered(facades, projects, i)
    requires forall j :: 0 <= j < |facades| ==> facades[j].subscription == j + 1
    ensures LastVerb(sent + Subscribes(facades, projects, n), i + 1) == Some(Subscribe)
  {
    var before := Subscribes(facades, projects, n - 1);
    if Registered(facades, projects, n - 1) {
      var c := CommandFor(Subscribe, facades[n - 1]);
      assert sent + (before + [c]) == (sent + before) + [c];
      LastVerbMore(sent + before, c, i + 1);
    }
    if i < n - 1 {
      SubscribesAll(facades, projects, n - 1, sent, i);
    }
  }

  lemma BridgeOpenKeeps(m: Mux, b: nat)
    requires Inv(m)
    ensures Inv(OnBridgeOpen(m, b))
  {
    hide Replay, Silent, OnlyVia, OneCarrier, LastVerb, Subscribes;
    var m' := OnBridgeOpen(m, b);
    forall i | 0 <= i < |m'.facades| ensures Sound(m', i) && Carried(m', i) {
      Each(m, i);
      SameSound(m, m', i);
      if b < |m.bridges| && m.bridges[b].ready == Connecting && m.bridge == Some(b) {
        if m.facades[i].ready != Closed {
          SoundNumbers(m);
          SubscribesAll(m.facades, m.projects, |m.facades|, m.bridges[b].sent, i);
        }
      } else {
        SameCarried(m, m', i);
      }
    }
  }

  lemma SoundNumbers(m: Mux)
    requires AllSound(m)
    ensures forall j :: 0 <= j < |m.facades| ==> m.facades[j].subscription == j + 1
  {
    forall j | 0 <= j < |m.facades| ensures m.facades[j].subscription == j + 1 {
      assert Sound(m, j);
    }
  }

  lemma ReceivedSound(m: Mux, m': Mux, i: nat, kind: FrameKind, b: nat)
    requires i < |m.facades| == |m'.facades| && Sound(m, i) && Carried(m, i) && m.bridge == Some(b)
    requires m'.facades[i] == Received(m.facades[i], kind, b) && m'.projects == m.projects && m'.bridge == m.bridge
    requires Registered(m.facades, m.projects, i) && !m.unavailable && m'.unavailable == m.unavailable && m'.supported
    requires BridgeIsOpen(m') ==> BridgeIsOpen(m) && m'.bridges[b].sent == m.bridges[b].sent
    ensures Sound(m', i) && Carried(m', i)
  {
    hide Replay, Silent, OnlyVia, LastVerb;
    var f := m.facades[i];
    assert m.facades[i].ready != Closed ==> OnlyVia(f.emitted, ViaBridge(b));
    match kind
    case SubscribedFrame =>
      OpenedQuietly(f);
      QuietSound(m, m', i);
    case ClosedFrame =>
      EndedQuietly(f);
      QuietSound(m, m', i);
    case EventFrame(data) =>
      if f.ready == Open {
        MessageSound(f, data, ViaBridge(b));
      }
  }

  lemma FrameKeeps(m: Mux, b: nat, frame: Frame, refused: set<nat>)
    requires Inv(m) && m.bridge == Some(b) && b < |m.bridges|
    ensures Inv(OnBridgeFrame(m, b, Some(frame), refused))
  {
    hide Replay, Silent, OnlyVia, OneCarrier, LastVerb, Received;
    var m', target := OnBridgeFrame(m, b, Some(frame), refused), Target(m, frame);
    ReceivedKeepsKey(m, b, frame);
    forall i | 0 <= i < |m'.facades| ensures Sound(m', i) && Carried(m', i) {
      Each(m, i);
      if target == Some(i) {
        ReceivedSound(m, m', i, frame.kind, b);
      } else {
        SameSound(m, m', i);
        SameCarried(m, m', i);
      }
    }
  }

  lemma ReceivedKeepsKey(m: Mux, b: nat, frame: Frame)
    ensures forall i :: 0 <= i < |m.facades| ==> KeyOf(Received(m.facades[i], frame.kind, b)) == KeyOf(m.facades[i])
  {
  }

  lemma BridgeCloseKeeps(m: Mux, b: nat, refused: set<nat>)
    requires Inv(m)
    ensures Inv(OnBridgeClose(m, b, refused))
  {
    hide Replay, Silent, OnlyVia, OneCarrier, LastVerb, Ended, FallBack;
    if b < |m.bridges| {
      var m' := OnBridgeClose(m, b, refused);
      var closed := m.(bridges := m.bridges[b := m.bridges[b].(ready := Closed)]);
      var lost := closed.(bridge := None);
      forall i | 0 <= i < |m.facades| ensures Sound(lost, i) && (m.bridge != Some(b) ==> Sound(closed, i) && Carried(closed, i)) {
        Each(m, i);
        SameSound(m, lost, i);
        SameSound(m, closed, i);
        if m.bridge != Some(b) {
          SameCarried(m, closed, i);
        }
      }
      if m.bridge == Some(b) {
        if !m.bridges[b].greeted || !m.bridges[b].contractSeen {
          FallbackKeeps(lost, refused);
        } else {
          EndAllKeeps(lost, m');
        }
      }
    }
  }

  lemma DirectEventKeeps(m: Mux, i: nat, event: DirectEvent)
    requires Inv(m) && i < |m.facades|
    ensures Inv(Next(m, Direct(i, event)))
  {
    hide Replay, Silent, OnlyVia, LastVerb;
    var m', f := Next(m, Direct(i, event)), m.facades[i];
    forall j | 0 <= j < |m.facades| ensures Sound(m', j) && Carried(m', j) {
      Each(m, j);
      if j != i || !f.direct {
        SameSound(m, m', j);
        SameCarried(m, m', j);
      } else {
        OpenedQuietly(f);
        EndedQuietly(f);
        ErrorQuietly(f);
        if event.DirectMessage? {
          MessageSound(f, event.data, ViaDirect);
        } else {
          QuietSound(m, m', i);
        }
      }
    }
  }

  lemma StepKeeps(m: Mux, step: Step)
    requires Inv(m)
    ensures Inv(Next(m, step))
  {
    hide AllSound, AllCarried, OpenProject, CloseFacade, OnBridgeOpen, OnBridgeClose, FallBack;
    match step
    case ProjectOpened(client, project, works, refused) => OpenKeeps(m, client, project, works, refused);
    case FacadeClosed(i) =>
      if i < |m.facades| {
        CloseKeeps(m, i);
      }
    case BridgeOpens(b) => BridgeOpenKeeps(m, b);
    case BridgeFrame(b, frame, refused) =>
      if m.bridge == Some(b) && b < |m.bridges| {
        if frame.None? {
          FallbackKeeps(m, refused);
        } else {
          FrameKeeps(m, b, frame.value, refused);
        }
      }
    case BridgeCloses(b, refused) => BridgeCloseKeeps(m, b, refused);
    case OpenTimesOut(b, refused) => FallbackKeeps(m, refused);
    case Direct(i, event) =>
      if i < |m.facades| {
        DirectEventKeeps(m, i, event);
      }
  }

  lemma {:induction false} EveryRunKeepsTheInvariant(steps: seq<Step>)
    ensures Inv(Run(steps))
  {
    hide Next;
    if steps != [] {
      hide Inv;
      EveryRunKeepsTheInvariant(steps[..|steps| - 1]);
      StepKeeps(Run(steps[..|steps| - 1]), steps[|steps| - 1]);
    }
  }

  // ---- what follows for every run ---------------------------------------------------------------------------

  /** A facade opens at most once and closes at most once, with messages only between the two. */
  lemma FacadesSpeakInOrder(steps: seq<Step>, i: nat, a: nat, b: nat)
    requires i < |Run(steps).facades| && a < b < |Run(steps).facades[i].emitted|
    ensures var e := Run(steps).facades[i].emitted;
            && !(e[a].OpenEvent? && e[b].OpenEvent?)
            && !(e[a].CloseEvent? && (e[b].OpenEvent? || e[b].MessageEvent? || e[b].CloseEvent?))
            && !(e[a].MessageEvent? && e[b].OpenEvent?)
  {
    EveryRunKeepsTheInvariant(steps);
    Each(Run(steps), i);
    UnbrokenStream(Run(steps).facades[i].emitted, a, b);
  }

  lemma MessageAfterOpen(e: seq<Emission>, b: nat)
    requires Replay(e).Some? && b < |e| && e[b].MessageEvent?
    ensures OpenEvent in e[..b]
  {
    ReplayPrefix(e, b + 1);
    assert e[..b + 1][..b] == e[..b];
    OpenBeforeMessages(e[..b]);
  }

  lemma MessagesFollowTheOpen(steps: seq<Step>, i: nat, b: nat)
    requires i < |Run(steps).facades| && b < |Run(steps).facades[i].emitted|
    ensures var e := Run(steps).facades[i].emitted; e[b].MessageEvent? ==> OpenEvent in e[..b]
  {
    hide Run, Replay;
    EveryRunKeepsTheInvariant(steps);
    Each(Run(steps), i);
    if Run(steps).facades[i].emitted[b].MessageEvent? {
      MessageAfterOpen(Run(steps).facades[i].emitted, b);
    }
  }

  /** A facade that is not closed is the current one of its key and has a carrier that knows of it. */
  lemma NoFacadeIsStranded(steps: seq<Step>, i: nat)
    requires i < |Run(steps).facades| && Run(steps).facades[i].ready != Closed
    ensures var m := Run(steps);
            && Registered(m.facades, m.projects, i)
            && (m.facades[i].direct || m.bridge.Some?)
            && (!m.facades[i].direct && BridgeIsOpen(m) ==> LastVerb(m.bridges[m.bridge.value].sent, i + 1) == Some(Subscribe))
  {
    EveryRunKeepsTheInvariant(steps);
    Each(Run(steps), i);
  }

  /** All messages of a facade came over one bridge connection, or all over its own direct socket. */
  lemma OneCarrierPerFacade(steps: seq<Step>, i: nat, a: nat, b: nat)
    requires i < |Run(steps).facades| && a < |Run(steps).facades[i].emitted| && b < |Run(steps).facades[i].emitted|
    ensures var e := Run(steps).facades[i].emitted;
            e[a].MessageEvent? && e[b].MessageEvent? ==> e[a].via == e[b].via
  {
    EveryRunKeepsTheInvariant(steps);
    Each(Run(steps), i);
  }

  /**
    A frame touches at most the facade that owns its subscription number, and that one only while it
    is current and its key is the frame's; an event frame then adds exactly its data.
   */
  lemma FrameReachesOnlyItsFacade(steps: seq<Step>, b: nat, frame: Frame, refused: set<nat>, i: nat)
    requires i < |Run(steps).facades|
    ensures var m := Run(steps);
            var m' := Next(m, BridgeFrame(b, Some(frame), refused));
            var f := m.facades[i];
            var mine := m.bridge == Some(b) && frame.subscription == i + 1 && Key(frame.client, frame.project) == KeyOf(f)
                        && Registered(m.facades, m.projects, i);
            && |m'.facades| == |m.facades|
            && (!mine ==> m'.facades[i] == f)
            && (mine && frame.kind.EventFrame? && f.ready == Open ==>
                  m'.facades[i].emitted == f.emitted + [MessageEvent(frame.kind.data, ViaBridge(b))])
  {
    hide Key;
    EveryRunKeepsTheInvariant(steps);
    Each(Run(steps), i);
  }

  /** The same facade, having emitted no less. */
  predicate Later(f: Facade, g: Facade) {
    g.client == f.client && g.project == f.project && g.subscription == f.subscription && f.emitted <= g.emitted
  }

  ghost predicate AllLater(m: Mux, m': Mux) {
    && |m.facades| <= |m'.facades| && (m.unavailable ==> m'.unavailable)
    && forall i :: 0 <= i < |m.facades| ==> Later(m.facades[i], m'.facades[i])
  }

  lemma AllLaterTwice(m: Mux, n: Mux, m': Mux)
    requires AllLater(m, n) && AllLater(n, m')
    ensures AllLater(m, m')
  {
    forall i | 0 <= i < |m.facades| ensures Later(m.facades[i], m'.facades[i]) {
      assert Later(m.facades[i], n.facades[i]) && Later(n.facades[i], m'.facades[i]);
    }
  }

  lemma FallbackIsLater(m: Mux, refused: set<nat>)
    ensures AllLater(m, FallBack(m, refused))
  {
  }

  lemma CloseIsLater(m: Mux, i: nat)
    requires Shape(m) && i < |m.facades|
    ensures AllLater(m, CloseFacade(m, i))
  {
    hide Remove;
    if Registered(m.facades, m.projects, i) {
      RemovedContext(m, i);
    } else {
      NothingRemoved(m, i);
    }
  }

  lemma CarryIsLater(m: Mux, works: bool, refused: set<nat>)
    requires m.facades != []
    ensures AllLater(m, Carry(m, works, refused))
  {
    hide FallBack;
    FallbackIsLater(m, refused);
  }

  lemma OpenIsLater(m: Mux, client: string, project: string, works: bool, refused: set<nat>)
    requires Inv(m)
    ensures AllLater(m, OpenProject(m, client, project, works, refused))
  {
    hide Carry, CloseFacade, Key, AllSound, AllCarried;
    var free := Supersede(m, client, project);
    assert AllLater(m, free) by {
      if Key(client, project) in m.projects {
        CloseIsLater(m, m.projects[Key(client, project)]);
      }
    }
    var added := AddFacade(free, client, project);
    AllLaterTwice(m, free, added);
    CarryIsLater(added, works, refused);
    AllLaterTwice(m, added, Carry(added, works, refused));
  }

  /**
    Subscription numbers are never reused: a facade keeps its own for good and takes back no event;
    and direct mode, once entered, is never left.
   */
  lemma FacadesKeepTheirIdentity(m: Mux, step: Step)
    requires Inv(m)
    ensures AllLater(m, Next(m, step))
  {
    hide AllSound, AllCarried, OpenProject, CloseFacade, FallBack;
    match step
    case ProjectOpened(client, project, works, refused) => OpenIsLater(m, client, project, works, refused);
    case FacadeClosed(i) =>
      if i < |m.facades| {
        CloseIsLater(m, i);
      }
    case BridgeOpens(b) =>
    case BridgeFrame(b, frame, refused) => FallbackIsLater(m, refused);
    case BridgeCloses(b, refused) => BridgeCloseIsLater(m, b, refused);
    case OpenTimesOut(b, refused) => FallbackIsLater(m, refused);
    case Direct(i, event) =>
  }

  lemma BridgeCloseIsLater(m: Mux, b: nat, refused: set<nat>)
    ensures AllLater(m, OnBridgeClose(m, b, refused))
  {
    hide FallBack;
    if b < |m.bridges| {
      var lost := m.(bridges := m.bridges[b := m.bridges[b].(ready := Closed)], bridge := None);
      FallbackIsLater(lost, refused);
    }
  }

  /** Over a whole run: what any facade was, it stays, under the number only it ever had. */
  lemma {:induction false} SubscriptionsAreNeverReused(steps: seq<Step>, more: seq<Step>)
    ensures AllLater(Run(steps), Run(steps + more))
    ensures forall i, j :: 0 <= i < j < |Run(steps).facades| ==> Run(steps).facades[i].subscription != Run(steps).facades[j].subscription
  {
    hide Next, AllLater;
    EveryRunKeepsTheInvariant(steps);
    SoundNumbers(Run(steps));
    if more == [] {
      assert steps + more == steps;
      LaterItself(Run(steps));
    } else {
      var front, step := more[..|more| - 1], more[|more| - 1];
      SubscriptionsAreNeverReused(steps, front);
      assert (steps + more)[..|steps + more| - 1] == steps + front;
      EveryRunKeepsTheInvariant(steps + front);
      FacadesKeepTheirIdentity(Run(steps + front), step);
      AllLaterTwice(Run(steps), Run(steps + front), Run(steps + more));
    }
  }

  lemma LaterItself(m: Mux)
    ensures AllLater(m, m)
  {
  }

  // ---- routing keys ---------------------------------------------------------------------------------------------

  /** Every frame with this facade's key names its very client and project. */
  ghost predicate RoutesExactly(client: string, project: string) {
    forall c: string, p: string :: p != "" && Key(c, p) == Key(client, project) ==> c == client && p == project
  }

  lemma SameSplit(client: string, project: string, c: string, p: string)
    requires NUL !in client && (forall i :: 0 <= i < |project| - 1 ==> project[i] != NUL)
    requires p != "" && Key(c, p) == Key(client, project)
    ensures c == client && p == project
  {
    var s, n := Key(client, project), |client|;
    assert forall i :: 0 <= i < n ==> s[i] == client[i];
    assert forall i :: n < i < |s| ==> s[i] == project[i - n - 1];
    assert s[|c|] == NUL && |c| + 1 < |s|;
    assert |c| == n;
    assert c == s[..n] && client == s[..n] && p == s[n + 1..] && project == s[n + 1..];
  }

  /**
    A frame's key names the facade's client and project exactly when no other split of the key is a
    frame: the client has no NUL and the project none before its last character.
   */
  lemma RoutesExactlyWhenPlain(client: string, project: string)
    ensures RoutesExactly(client, project) <==> NUL !in client && forall i :: 0 <= i < |project| - 1 ==> project[i] != NUL
  {
    if NUL !in client && forall i :: 0 <= i < |project| - 1 ==> project[i] != NUL {
      forall c: string, p: string | p != "" && Key(c, p) == Key(client, project) ensures c == client && p == project {
        SameSplit(client, project, c, p);
      }
    } else if NUL in client {
      var i :| 0 <= i < |client| && client[i] == NUL;
      var c, p := client[..i], client[i + 1..] + [NUL] + project;
      assert client == c + [NUL] + client[i + 1..];
      assert Key(c, p) == Key(client, project);
    } else {
      var i :| 0 <= i < |project| - 1 && project[i] == NUL;
      var c, p := client + [NUL] + project[..i], project[i + 1..];
      assert project == project[..i] + [NUL] + p;
      assert Key(c, p) == Key(client, project);
    }
  }
}
