/**
  One bridge WebSocket shared by all projects (`ChangeWebSocketMultiplexer`): a socket facade per
  project, routed by client, project and subscription, with a fallback to direct sockets.
 */
module SocketMux {
  import opened Options

  datatype Ready = Connecting | Open | Closed

  /** What carried a message to a facade. */
  datatype Via = ViaBridge(bridge: nat) | ViaDirect

  datatype Emission = OpenEvent | MessageEvent(data: string, via: Via) | ErrorEvent | CloseEvent

  /** `emitted` records every event the facade dispatched. */
  datatype Facade = Facade(client: string, project: string, subscription: nat, ready: Ready, direct: bool, emitted: seq<Emission>)

  datatype Verb = Subscribe | Unsubscribe

  datatype Command = Command(verb: Verb, client: string, project: string, subscription: nat)

  datatype FrameKind = SubscribedFrame | ClosedFrame | EventFrame(data: string)

  datatype Frame = Frame(kind: FrameKind, client: string, project: string, subscription: nat)

  datatype Bridge = Bridge(ready: Ready, greeted: bool, contractSeen: bool, sent: seq<Command>)

  /** `facades` holds every facade ever made; `projects` the current one of each key. */
  datatype Mux = Mux(
    facades: seq<Facade>,
    projects: map<string, nat>,
    bridges: seq<Bridge>,
    bridge: Option<nat>,
    supported: bool,
    unavailable: bool,
    nextSubscription: nat)

  const NUL: char := '\0'

  function Key(client: string, project: string): string {
    client + [NUL] + project
  }

  function KeyOf(f: Facade): string {
    Key(f.client, f.project)
  }

  // ---- one facade ---------------------------------------------------------------------------------

  function Emit(f: Facade, e: Emission): Facade {
    f.(emitted := f.emitted + [e])
  }

  function Opened(f: Facade): Facade {
    if f.ready != Connecting then f else Emit(f.(ready := Open), OpenEvent)
  }

  function Messaged(f: Facade, data: string, via: Via): Facade {
    if f.ready != Open then f else Emit(f, MessageEvent(data, via))
  }

  function Ended(f: Facade): Facade {
    if f.ready == Closed then f else Emit(f.(ready := Closed), CloseEvent)
  }

  /** `works` says whether the direct socket could be made. */
  function UseDirect(f: Facade, works: bool): Facade {
    if f.ready == Closed || f.direct then f
    else if works then f.(direct := true)
    else Ended(Emit(f, ErrorEvent))
  }

  // ---- the multiplexer ------------------------------------------------------------------------------

  predicate Registered(facades: seq<Facade>, projects: map<string, nat>, i: nat)
    requires i < |facades|
  {
    KeyOf(facades[i]) in projects && projects[KeyOf(facades[i])] == i
  }

  function EndRegistered(facades: seq<Facade>, projects: map<string, nat>): (r: seq<Facade>)
    ensures |r| == |facades|
    ensures forall i :: 0 <= i < |r| ==> r[i] == if Registered(facades, projects, i) then Ended(facades[i]) else facades[i]
  {
    seq(|facades|, i requires 0 <= i < |facades| => if Registered(facades, projects, i) then Ended(facades[i]) else facades[i])
  }

  function DirectRegistered(facades: seq<Facade>, projects: map<string, nat>, refused: set<nat>): (r: seq<Facade>)
    ensures |r| == |facades|
    ensures forall i :: 0 <= i < |r| ==>
              r[i] == if Registered(facades, projects, i) then UseDirect(facades[i], i !in refused) else facades[i]
  {
    seq(|facades|, i requires 0 <= i < |facades| =>
      if Registered(facades, projects, i) then UseDirect(facades[i], i !in refused) else facades[i])
  }

  function CommandFor(verb: Verb, f: Facade): Command {
    Command(verb, f.client, f.project, f.subscription)
  }

  /** Subscriptions for the first `n` facades that are current, oldest first. */
  function Subscribes(facades: seq<Facade>, projects: map<string, nat>, n: nat): seq<Command>
    requires n <= |facades|
  {
    if n == 0 then []
    else
      var before := Subscribes(facades, projects, n - 1);
      if Registered(facades, projects, n - 1) then before + [CommandFor(Subscribe, facades[n - 1])] else before
  }

  predicate BridgeIsOpen(m: Mux) {
    m.bridge.Some? && m.bridge.value < |m.bridges| && m.bridges[m.bridge.value].ready == Open
  }

  /** Sent only over a bridge that is open. */
  function Send(m: Mux, command: Command): Mux {
    if !BridgeIsOpen(m) then m
    else
      var b := m.bridge.value;
      m.(bridges := m.bridges[b := m.bridges[b].(sent := m.bridges[b].sent + [command])])
  }

  function DropBridge(m: Mux): Mux {
    if m.bridge.Some? && m.bridge.value < |m.bridges|
    then m.(bridge := None, bridges := m.bridges[m.bridge.value := m.bridges[m.bridge.value].(ready := Closed)])
    else m.(bridge := None)
  }

  function FallBack(m: Mux, refused: set<nat>): Mux {
    var dropped := DropBridge(m).(unavailable := true);
    if m.supported then dropped.(facades := EndRegistered(m.facades, m.projects), projects := map[])
    else dropped.(facades := DirectRegistered(m.facades, m.projects, refused))
  }

  function Connect(m: Mux, works: bool, refused: set<nat>): Mux {
    if m.bridge.Some? || m.projects == map[] then m
    else if !works then FallBack(m, refused)
    else m.(bridges := m.bridges + [Bridge(Connecting, false, false, [])], bridge := Some(|m.bridges|))
  }

  function Remove(m: Mux, i: nat): Mux
    requires i < |m.facades|
  {
    if !Registered(m.facades, m.projects, i) then m
    else
      var left := Send(m.(projects := m.projects - {KeyOf(m.facades[i])}), CommandFor(Unsubscribe, m.facades[i]));
      if left.projects == map[] then DropBridge(left) else left
  }

  function CloseFacade(m: Mux, i: nat): Mux
    requires i < |m.facades|
  {
    var removed := Remove(m, i);
    removed.(facades := removed.facades[i := Ended(removed.facades[i])])
  }

  function Supersede(m: Mux, client: string, project: string): Mux {
    var key := Key(client, project);
    if key in m.projects && m.projects[key] < |m.facades| then CloseFacade(m, m.projects[key]) else m
  }

  function AddFacade(m: Mux, client: string, project: string): Mux {
    m.(facades := m.facades + [Facade(client, project, m.nextSubscription, Connecting, false, [])],
       projects := m.projects[Key(client, project) := |m.facades|],
       nextSubscription := m.nextSubscription + 1)
  }

  /** Gives the newest facade its carrier. */
  function Carry(m: Mux, works: bool, refused: set<nat>): Mux
    requires m.facades != []
  {
    var i := |m.facades| - 1;
    if m.unavailable then m.(facades := m.facades[i := UseDirect(m.facades[i], i !in refused)])
    else if BridgeIsOpen(m) then Send(m, CommandFor(Subscribe, m.facades[i]))
    else Connect(m, works, refused)
  }

  function OpenProject(m: Mux, client: string, project: string, works: bool, refused: set<nat>): Mux {
    Carry(AddFacade(Supersede(m, client, project), client, project), works, refused)
  }

  function OnBridgeOpen(m: Mux, b: nat): Mux {
    if b >= |m.bridges| || m.bridges[b].ready != Connecting then m
    else if m.bridge != Some(b) then m.(bridges := m.bridges[b := m.bridges[b].(ready := Open)])
    else
      var sent := m.bridges[b].sent + Subscribes(m.facades, m.projects, |m.facades|);
      m.(bridges := m.bridges[b := m.bridges[b].(ready := Open, greeted := true, sent := sent)])
  }

  /** The facade a frame is for: the current one of its key, if the subscription is that facade's. */
  function Target(m: Mux, frame: Frame): Option<nat> {
    var key := Key(frame.client, frame.project);
    if key in m.projects && m.projects[key] < |m.facades| && m.facades[m.projects[key]].subscription == frame.subscription
    then Some(m.projects[key]) else None
  }

  function Received(f: Facade, kind: FrameKind, b: nat): Facade {
    match kind
    case SubscribedFrame => Opened(f)
    case EventFrame(data) => Messaged(f, data, ViaBridge(b))
    case ClosedFrame => Ended(f)
  }

  /** `None` is a malformed frame. */
  function OnBridgeFrame(m: Mux, b: nat, frame: Option<Frame>, refused: set<nat>): Mux {
    if m.bridge != Some(b) || b >= |m.bridges| then m
    else if frame.None? then FallBack(m, refused)
    else
      var seen := m.(supported := true, bridges := m.bridges[b := m.bridges[b].(contractSeen := true)]);
      var target := Target(m, frame.value);
      if target.None? then seen
      else seen.(facades := m.facades[target.value := Received(m.facades[target.value], frame.value.kind, b)])
  }

  function OnBridgeClose(m: Mux, b: nat, refused: set<nat>): Mux {
    if b >= |m.bridges| then m
    else
      var closed := m.(bridges := m.bridges[b := m.bridges[b].(ready := Closed)]);
      if m.bridge != Some(b) then closed
      else
        var lost := closed.(bridge := None);
        if !m.bridges[b].greeted || !m.bridges[b].contractSeen then FallBack(lost, refused)
        else lost.(facades := EndRegistered(m.facades, m.projects), projects := map[])
  }

  function OnOpenTimeout(m: Mux, b: nat, refused: set<nat>): Mux {
    if m.bridge == Some(b) && b < |m.bridges| && m.bridges[b].ready == Connecting then FallBack(m, refused) else m
  }

  datatype DirectEvent = DirectOpens | DirectMessage(data: string) | DirectErrors | DirectCloses

  function OnDirect(f: Facade, e: DirectEvent): Facade {
    if !f.direct then f
    else
      match e
      case DirectOpens => Opened(f)
      case DirectMessage(data) => Messaged(f, data, ViaDirect)
      case DirectErrors => Emit(f, ErrorEvent)
      case DirectCloses => Ended(f)
  }

  datatype Step =
    | ProjectOpened(client: string, project: string, works: bool, refused: set<nat>)
    | FacadeClosed(facade: nat)
    | BridgeOpens(b: nat)
    | BridgeFrame(b: nat, frame: Option<Frame>, refused: set<nat>)
    | BridgeCloses(b: nat, refused: set<nat>)
    | OpenTimesOut(b: nat, refused: set<nat>)
    | Direct(facade: nat, event: DirectEvent)

  function Next(m: Mux, step: Step): Mux {
    match step
    case ProjectOpened(client, project, works, refused) => OpenProject(m, client, project, works, refused)
    case FacadeClosed(i) => if i < |m.facades| then CloseFacade(m, i) else m
    case BridgeOpens(b) => OnBridgeOpen(m, b)
    case BridgeFrame(b, frame, refused) => OnBridgeFrame(m, b, frame, refused)
    case BridgeCloses(b, refused) => OnBridgeClose(m, b, refused)
    case OpenTimesOut(b, refused) => OnOpenTimeout(m, b, refused)
    case Direct(i, event) => if i < |m.facades| then m.(facades := m.facades[i := OnDirect(m.facades[i], event)]) else m
  }

  const START := Mux([], map[], [], None, false, false, 1)

  function Run(steps: seq<Step>): Mux {
    if steps == [] then START else Next(Run(steps[..|steps| - 1]), steps[|steps| - 1])
  }

  // ---- the multiplexer as the source writes it ------------------------------------------------------

  class ChangeWebSocketMultiplexer {
    var facades: seq<Facade>
    var projects: map<string, nat>
    var bridges: seq<Bridge>
    var bridge: Option<nat>
    var supported: bool
    var unavailable: bool
    var nextSubscription: nat

    ghost function View(): Mux
      reads this
    {
      Mux(facades, projects, bridges, bridge, supported, unavailable, nextSubscription)
    }

    constructor ()
      ensures View() == START
    {
      facades, projects, bridges, bridge := [], map[], [], None;
      supported, unavailable, nextSubscription := false, false, 1;
    }

    method SendCommand(command: Command)
      modifies this
      ensures View() == Send(old(View()), command)
    {
      if bridge.Some? && bridge.value < |bridges| && bridges[bridge.value].ready == Open {
        var b := bridge.value;
        bridges := bridges[b := bridges[b].(sent := bridges[b].sent + [command])];
      }
    }

    method CloseBridge()
      modifies this
      ensures View() == DropBridge(old(View()))
    {
      if bridge.Some? && bridge.value < |bridges| {
        bridges := bridges[bridge.value := bridges[bridge.value].(ready := Closed)];
      }
      bridge := None;
    }

    /** Ends every current facade and forgets them all. */
    method EndAll()
      modifies this
      ensures View() == old(View()).(facades := EndRegistered(old(facades), old(projects)), projects := map[])
    {
      var was, sockets := facades, projects;
      projects := map[];
      for i := 0 to |was|
        invariant View() == old(View()).(facades := facades, projects := map[]) && |facades| == |was|
        invariant forall j :: 0 <= j < |was| ==>
                    facades[j] == if j < i && Registered(was, sockets, j) then Ended(was[j]) else was[j]
      {
        if Registered(was, sockets, i) {
          facades := facades[i := Ended(was[i])];
        }
      }
      assert facades == EndRegistered(was, sockets);
    }

    method FallBackToDirect(refused: set<nat>)
      modifies this
      ensures View() == FallBack(old(View()), refused)
    {
      unavailable := true;
      CloseBridge();
      if supported {
        EndAll();
      } else {
        var was := facades;
        for i := 0 to |was|
          invariant View() == DropBridge(old(View())).(unavailable := true, facades := facades) && |facades| == |was|
          invariant forall j :: 0 <= j < |was| ==>
                      facades[j] == if j < i && Registered(was, projects, j) then UseDirect(was[j], j !in refused) else was[j]
        {
          if Registered(was, projects, i) {
            facades := facades[i := UseDirect(was[i], i !in refused)];
          }
        }
        assert facades == DirectRegistered(was, projects, refused);
      }
    }

    method ConnectBridge(works: bool, refused: set<nat>)
      modifies this
      ensures View() == Connect(old(View()), works, refused)
    {
      if bridge.Some? || projects == map[] {
        return;
      }
      if !works {
        FallBackToDirect(refused);
        return;
      }
      bridge := Some(|bridges|);
      bridges := bridges + [Bridge(Connecting, false, false, [])];
    }

    method RemoveSocket(i: nat)
      requires i < |facades|
      modifies this
      ensures View() == Remove(old(View()), i)
    {
      if !Registered(facades, projects, i) {
        return;
      }
      projects := projects - {KeyOf(facades[i])};
      SendCommand(CommandFor(Unsubscribe, facades[i]));
      if projects == map[] {
        CloseBridge();
      }
    }

    method CloseSocket(i: nat)
      requires i < |facades|
      modifies this
      ensures View() == CloseFacade(old(View()), i)
    {
      RemoveSocket(i);
      facades := facades[i := Ended(facades[i])];
    }

    method OpenSocket(client: string, project: string, works: bool, refused: set<nat>)
      modifies this
      ensures View() == OpenProject(old(View()), client, project, works, refused)
    {
      hide Key, CloseFacade, Connect, UseDirect, Send;
      var key := Key(client, project);
      if key in projects && projects[key] < |facades| {
        CloseSocket(projects[key]);
      }
      var i := |facades|;
      facades := facades + [Facade(client, project, nextSubscription, Connecting, false, [])];
      nextSubscription := nextSubscription + 1;
      projects := projects[key := i];
      if unavailable {
        facades := facades[i := UseDirect(facades[i], i !in refused)];
      } else if bridge.Some? && bridge.value < |bridges| && bridges[bridge.value].ready == Open {
        SendCommand(CommandFor(Subscribe, facades[i]));
      } else {
        ConnectBridge(works, refused);
      }
    }

    method BridgeOpened(b: nat)
      modifies this
      ensures View() == OnBridgeOpen(old(View()), b)
    {
      if b >= |bridges| || bridges[b].ready != Connecting {
        return;
      }
      bridges := bridges[b := bridges[b].(ready := Open)];
      if bridge != Some(b) {
        return;
      }
      bridges := bridges[b := bridges[b].(greeted := true)];
      ghost var at := bridges[b];
      for i := 0 to |facades|
        invariant View() == old(View()).(bridges := bridges) && |bridges| == |old(bridges)|
        invariant bridges[b] == at.(sent := at.sent + Subscribes(facades, projects, i))
        invariant forall j :: 0 <= j < |bridges| && j != b ==> bridges[j] == old(bridges)[j]
      {
        if Registered(facades, projects, i) {
          ghost var before := Subscribes(facades, projects, i);
          assert at.sent + (before + [CommandFor(Subscribe, facades[i])]) == (at.sent + before) + [CommandFor(Subscribe, facades[i])];
          SendCommand(CommandFor(Subscribe, facades[i]));
        }
      }
      assert bridges == OnBridgeOpen(old(View()), b).bridges;
    }

    method BridgeMessage(b: nat, frame: Option<Frame>, refused: set<nat>)
      modifies this
      ensures View() == OnBridgeFrame(old(View()), b, frame, refused)
    {
      if bridge != Some(b) || b >= |bridges| {
        return;
      }
      if frame.None? {
        FallBackToDirect(refused);
        return;
      }
      bridges := bridges[b := bridges[b].(contractSeen := true)];
      supported := true;
      var key := Key(frame.value.client, frame.value.project);
      if key in projects && projects[key] < |facades| {
        var i := projects[key];
        if facades[i].subscription == frame.value.subscription {
          facades := facades[i := Received(facades[i], frame.value.kind, b)];
        }
      }
    }

    method BridgeClosed(b: nat, refused: set<nat>)
      modifies this
      ensures View() == OnBridgeClose(old(View()), b, refused)
    {
      if b >= |bridges| {
        return;
      }
      bridges := bridges[b := bridges[b].(ready := Closed)];
      if bridge != Some(b) {
        return;
      }
      bridge := None;
      if !bridges[b].greeted || !bridges[b].contractSeen {
        FallBackToDirect(refused);
      } else {
        EndAll();
      }
    }
  }
}
