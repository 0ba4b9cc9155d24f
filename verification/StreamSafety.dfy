/**
  What every run of the change-stream worker protocol keeps: each consumer is told of every
  recorded event exactly once or through a reconcile, and no project is left without a stream.
 */
module StreamSafety {
  import opened Options
  import opened Deliveries
  import opened DeliveryQueue
  import opened StreamProtocol

  // ---- the part of the wires that belongs to one generation ------------------------------

  function Mine(g: nat, bs: seq<Batch>): seq<Batch> {
    if bs == [] then []
    else if bs[0].generation == g then [bs[0]] + Mine(g, bs[1..])
    else Mine(g, bs[1..])
  }

  lemma {:induction false} MineAppend(g: nat, a: seq<Batch>, b: seq<Batch>)
    ensures Mine(g, a + b) == Mine(g, a) + Mine(g, b)
  {
    if a == [] {
      assert a + b == b;
    } else {
      assert (a + b)[0] == a[0] && (a + b)[1..] == a[1..] + b;
      MineAppend(g, a[1..], b);
    }
  }

  lemma {:induction false} MineNone(g: nat, bs: seq<Batch>)
    requires forall b :: b in bs ==> b.generation != g
    ensures Mine(g, bs) == []
  {
    if bs != [] {
      assert bs[0] in bs;
      MineNone(g, bs[1..]);
    }
  }

  function AcksFor(g: nat, ms: seq<ToWorker>): seq<nat> {
    if ms == [] then []
    else if ms[0].AckOf? && ms[0].generation == g then [ms[0].seqNo] + AcksFor(g, ms[1..])
    else AcksFor(g, ms[1..])
  }

  lemma {:induction false} AcksAppend(g: nat, a: seq<ToWorker>, b: seq<ToWorker>)
    ensures AcksFor(g, a + b) == AcksFor(g, a) + AcksFor(g, b)
  {
    if a == [] {
      assert a + b == b;
    } else {
      assert (a + b)[1..] == a[1..] + b;
      AcksAppend(g, a[1..], b);
    }
  }

  lemma AcksOne(g: nat, m: ToWorker)
    ensures AcksFor(g, [m]) == if m.AckOf? && m.generation == g then [m.seqNo] else []
  {
    assert [m][1..] == [];
  }

  lemma {:induction false} AcksNone(g: nat, ms: seq<ToWorker>)
    requires forall m :: m in ms && m.AckOf? ==> m.generation != g
    ensures AcksFor(g, ms) == []
  {
    if ms != [] {
      assert ms[0] in ms;
      AcksNone(g, ms[1..]);
    }
  }

  function Carried(bs: seq<Batch>): seq<Delivery> {
    seq(|bs|, i requires 0 <= i < |bs| => bs[i].delivery)
  }

  function SeqNos(bs: seq<Batch>): seq<nat> {
    seq(|bs|, i requires 0 <= i < |bs| => bs[i].seqNo)
  }

  predicate Serves(l: Lane, g: nat) {
    l.subscription.Some? && l.subscription.value.generation == g
  }

  function Busy(h: Hosted): seq<Batch> {
    if h.busy.Some? then [h.busy.value] else []
  }

  /** Everything between the worker's queue and the consumer. */
  function OnTheWay(l: Lane, h: Hosted): seq<Batch> {
    Busy(h) + h.chain + l.toHost
  }

  /** The current generation's deliveries that were sent and not yet finished. */
  function Outstanding(l: Lane, h: Hosted): seq<Batch> {
    Mine(h.generation, OnTheWay(l, h))
  }

  /** The current generation's stream from the consumer back to its transport. */
  function Stream(l: Lane, h: Hosted): seq<Delivery> {
    Carried(Outstanding(l, h)) + if Serves(l, h.generation) then l.subscription.value.queue.queued else []
  }

  function Tokens(q: Queue): seq<nat> {
    if q.inFlight.Some? then [q.inFlight.value] else []
  }

  // ---- the invariant ---------------------------------------------------------------------

  ghost predicate Channels(l: Lane, sh: Shared, maxEvents: nat) {
    && l.served <= l.head
    && (!sh.up ==> l.toWorker == [] && l.toHost == [] && l.subscription.None?)
    && (forall m :: m in l.toWorker ==> m.generation < sh.nextGeneration)
    && (forall b :: b in l.toHost ==> b.generation < sh.nextGeneration)
    && (forall i, j :: 0 <= i < j < |l.toWorker| && l.toWorker[i].Open? && l.toWorker[j].Open? ==>
          l.toWorker[i].generation < l.toWorker[j].generation)
    && (l.subscription.Some? ==>
          && l.subscription.value.generation < sh.nextGeneration
          && WellFormed(l.subscription.value.queue, maxEvents)
          && forall m :: m in l.toWorker && m.Open? ==> l.subscription.value.generation < m.generation)
  }

  ghost predicate PageSide(h: Hosted, sh: Shared, served: nat) {
    && h.generation < sh.nextGeneration
    && (forall b :: b in Busy(h) + h.chain ==> b.generation < sh.nextGeneration)
    && Told(h.calls, Reach(h)) && Reach(h) <= served
    && (h.position.Some? ==> h.cursor.Some? && h.position.value <= h.cursor.value)
    && (sh.worker ==> h.main.None?) && (h.rejected ==> h.busy.Some?)
    && (h.busy.Some? && h.busy.value.delivery.Resync? ==>
          h.cursor.Some? && CursorOf(h.busy.value.delivery) <= h.cursor.value)
    && (!sh.worker ==> forall b :: b in Busy(h) + h.chain ==> b.generation != h.generation)
    && (h.main.Some? ==>
          && h.busy.None? && h.chain == [] && OrZero(h.cursor) <= h.main.value.reached
          && (h.main.value.feed.Some? ==> h.main.value.feed.value == h.main.value.reached))
  }

  ghost predicate Opening(l: Lane, g: nat) {
    exists m :: m in l.toWorker && m.Open? && m.generation == g
  }

  ghost predicate StreamSide(l: Lane, h: Hosted, sh: Shared) {
    var g := h.generation;
    && Chain(h.position, Stream(l, h)) && OrZero(EndOf(h.position, Stream(l, h))) <= l.served
    && (Serves(l, g) ==>
          && (l.subscription.value.feed.Some? ==> EndOf(h.position, Stream(l, h)) == l.subscription.value.feed)
          && SeqNos(Outstanding(l, h)) + AcksFor(g, l.toWorker) == Tokens(l.subscription.value.queue))
    && (!Serves(l, g) ==> AcksFor(g, l.toWorker) == [])
    && (forall m :: m in l.toWorker && m.Open? ==>
          m.generation <= g && (m.generation == g ==> Outstanding(l, h) == [] && m.resume == h.position))
    && Close(g) !in l.toWorker
    && (sh.up ==> Serves(l, g) || Opening(l, g))
  }

  ghost predicate LaneInv(l: Lane, sh: Shared, maxEvents: nat) {
    && Channels(l, sh, maxEvents)
    && (l.hosted.Some? ==> PageSide(l.hosted.value, sh, l.served))
    && (l.hosted.Some? && sh.worker ==> StreamSide(l, l.hosted.value, sh))
  }

  // ---- page steps ------------------------------------------------------------------------

  /** Handing over the front of the stream tells the consumer everything up to its cursor. */
  lemma BeginTells(h: Hosted)
    requires h.main.None? && h.busy.None? && h.chain != [] && h.chain[0].generation == h.generation
    requires Told(h.calls, Reach(h))
    requires h.position.Some? ==> h.cursor.Some? && h.position.value <= h.cursor.value
    requires Follows(h.position, h.chain[0].delivery)
    ensures Told(BeginTask(h).calls, Reach(BeginTask(h)))
  {
    hide Told, Increasing, NewEvents, Stamps;
    var lo := OrZero(h.cursor);
    match h.chain[0].delivery
    case Resync(reason, at) =>
      TellMore(h.calls, lo, Reconciled(reason, at), Max(lo, at));
    case Deliver(p, force) =>
      var kept := p.(events := NewEvents(p.events, h.cursor));
      NewEventStamps(p.events, h.cursor, OrZero(h.position), p.cursor);
      forall k: nat | lo < k <= Max(lo, p.cursor) ensures Covers(Handed(kept, force), k) {
        assert p.overflow || k in Stamps(p.events);
      }
      WiderIncreasing(Stamps(kept.events), Max(OrZero(h.position), lo), lo, p.cursor, Max(lo, p.cursor));
      TellMore(h.calls, lo, Handed(kept, force), Max(lo, p.cursor));
  }

  /** Moving deliveries along between the queue and the consumer is invisible to the stream. */
  lemma SameStream(l: Lane, h: Hosted, l': Lane, h': Hosted, sh: Shared)
    requires StreamSide(l, h, sh)
    requires h'.generation == h.generation && h'.position == h.position && Outstanding(l', h') == Outstanding(l, h)
    requires l'.toWorker == l.toWorker && l'.subscription == l.subscription && l'.served >= l.served
    ensures StreamSide(l', h', sh)
  {
    assert Stream(l', h') == Stream(l, h);
  }

  lemma WiderIncreasing(cs: seq<nat>, lo: nat, lo': nat, hi: nat, hi': nat)
    requires Increasing(cs, lo, hi) && lo' <= lo && hi <= hi'
    ensures Increasing(cs, lo', hi')
  {
  }

  lemma BeginPage(h: Hosted, sh: Shared, served: nat)
    requires PageSide(h, sh, served) && h.busy.None? && h.chain != []
    requires h.chain[0].generation == h.generation ==>
               sh.worker && Follows(h.position, h.chain[0].delivery) && CursorOf(h.chain[0].delivery) <= served
    ensures PageSide(BeginTask(h), sh, served)
  {
    hide Told, Follows;
    var h', b := BeginTask(h), h.chain[0];
    assert b in h.chain;
    if b.generation == h.generation {
      BeginTells(h);
      assert Busy(h') + h'.chain == h.chain;
    } else {
      assert h'.chain == h.chain[1..];
    }
  }

  lemma BeginKeeps(l: Lane, sh: Shared, maxEvents: nat)
    requires LaneInv(l, sh, maxEvents)
    ensures LaneInv(LaneNext(l, Begin, sh, maxEvents), sh, maxEvents)
  {
    hide Told, WellFormed, Follows, AcksFor, PageSide, BeginTask;
    if l.hosted.Some? && l.hosted.value.busy.None? && l.hosted.value.chain != [] {
      var h, l' := l.hosted.value, LaneNext(l, Begin, sh, maxEvents);
      BeginWay(l, h, l');
      if h.chain[0].generation == h.generation {
        assert sh.worker by { ChainIsMine(h, sh, l.served); }
        ChainCursors(h.position, Stream(l, h));
      }
      BeginPage(h, sh, l.served);
      if sh.worker {
        SameStream(l, h, l', l'.hosted.value, sh);
      }
    }
  }

  lemma ChainIsMine(h: Hosted, sh: Shared, served: nat)
    requires PageSide(h, sh, served) && h.chain != [] && h.chain[0].generation == h.generation
    ensures sh.worker
  {
    hide Told;
    assert h.chain[0] in Busy(h) + h.chain;
  }

  lemma BeginWay(l: Lane, h: Hosted, l': Lane)
    requires h.busy.None? && h.chain != [] && l' == l.(hosted := Some(BeginTask(h)))
    ensures l'.hosted.value.generation == h.generation && l'.hosted.value.position == h.position
    ensures Outstanding(l', l'.hosted.value) == Outstanding(l, h)
    ensures h.chain[0].generation == h.generation ==> Stream(l, h) != [] && Stream(l, h)[0] == h.chain[0].delivery
  {
    var b, h', way := h.chain[0], l'.hosted.value, OnTheWay(l, h);
    assert way[0] == b && way[1..] == h.chain[1..] + l.toHost;
    if b.generation == h.generation {
      assert OnTheWay(l', h') == way;
    } else {
      assert OnTheWay(l', h') == way[1..];
    }
  }

  lemma FinishPage(h: Hosted, sh: Shared, served: nat)
    requires PageSide(h, sh, served) && h.busy.Some? && !h.rejected
    ensures PageSide(FinishTask(h), sh, served)
  {
    hide Told;
    assert h.busy.value in Busy(h) + h.chain;
    assert Busy(FinishTask(h)) + h.chain == h.chain;
  }

  /** The finished delivery leaves the stream; its acknowledgement takes over the one token. */
  lemma FinishStream(l: Lane, sh: Shared, maxEvents: nat)
    requires LaneInv(l, sh, maxEvents) && sh.worker && l.hosted.Some? && l.hosted.value.busy.Some?
    requires l.hosted.value.busy.value.generation == l.hosted.value.generation && !l.hosted.value.rejected
    ensures var l' := LaneNext(l, Finish, sh, maxEvents); StreamSide(l', l'.hosted.value, sh)
  {
    hide Chain, PageSide, AcksFor, Mine, SeqNos, FinishTask, Channels, Stream, Outstanding, Tokens;
    var h, l' := l.hosted.value, LaneNext(l, Finish, sh, maxEvents);
    var g, b, h' := h.generation, h.busy.value, l'.hosted.value;
    FinishedHead(l, l', h, h');
    FinishedFields(h);
    ChainTail(h.position, Stream(l, h));
    AcksAppend(g, l.toWorker, [AckOf(g, b.seqNo)]);
    AcksOne(g, AckOf(g, b.seqNo));
    assert l.toWorker + [] == l.toWorker;
    assert ([b] + Outstanding(l', h'))[0] == b;
    if Serves(l, g) {
      OneToken(Outstanding(l, h), AcksFor(g, l.toWorker), l.subscription.value.queue);
      assert |[b] + Outstanding(l', h')| == 1;
      NoSeqNos();
      assert l'.toWorker == l.toWorker + [AckOf(g, b.seqNo)] by { ServedIsUp(l, sh, maxEvents); }
      assert [] + [b.seqNo] == [b.seqNo];
    }
    OpeningMore(l, l', g);
  }

  lemma ServedIsUp(l: Lane, sh: Shared, maxEvents: nat)
    requires Channels(l, sh, maxEvents) && l.subscription.Some?
    ensures sh.up
  {
  }

  lemma OpeningMore(l: Lane, l': Lane, g: nat)
    requires l.toWorker <= l'.toWorker
    ensures Opening(l, g) ==> Opening(l', g)
  {
    if Opening(l, g) {
      var m :| m in l.toWorker && m.Open? && m.generation == g;
      assert m in l'.toWorker;
    }
  }

  lemma ChainTail(from: Option<nat>, ds: seq<Delivery>)
    requires ds != [] && Chain(from, ds)
    ensures Chain(Some(CursorOf(ds[0])), ds[1..])
  {
  }

  /** The delivery the consumer just finished was the only one under way. */
  lemma OneToken(bs: seq<Batch>, acks: seq<nat>, q: Queue)
    requires bs != [] && SeqNos(bs) + acks == Tokens(q)
    ensures bs == [bs[0]] && acks == [] && Tokens(q) == [bs[0].seqNo]
  {
    assert |SeqNos(bs)| == |bs| && SeqNos(bs)[0] == bs[0].seqNo;
    assert |SeqNos(bs) + acks| == |Tokens(q)| <= 1;
  }

  lemma NoSeqNos()
    ensures SeqNos([]) == []
  {
  }

  lemma FinishedFields(h: Hosted)
    requires h.busy.Some? && h.busy.value.generation == h.generation
    ensures var h' := FinishTask(h);
            h'.generation == h.generation && h'.position == Some(CursorOf(h.busy.value.delivery)) && h'.busy.None? && h'.chain == h.chain
  {
  }

  lemma FinishedHead(l: Lane, l': Lane, h: Hosted, h': Hosted)
    requires h.busy.Some? && h.busy.value.generation == h.generation && h' == FinishTask(h)
    requires l'.toHost == l.toHost && l'.subscription == l.subscription
    ensures Outstanding(l, h) == [h.busy.value] + Outstanding(l', h')
    ensures Stream(l, h) != [] && Stream(l, h)[0] == h.busy.value.delivery && Stream(l, h)[1..] == Stream(l', h')
    ensures EndOf(h'.position, Stream(l', h')) == EndOf(h.position, Stream(l, h))
  {
    var way := OnTheWay(l, h);
    assert way[0] == h.busy.value && way[1..] == OnTheWay(l', h');
  }

  lemma FinishKeeps(l: Lane, sh: Shared, maxEvents: nat)
    requires LaneInv(l, sh, maxEvents)
    ensures LaneInv(LaneNext(l, Finish, sh, maxEvents), sh, maxEvents)
  {
    hide Told, WellFormed, StreamSide, PageSide, Mine, FinishTask;
    if l.hosted.Some? && l.hosted.value.busy.Some? && !l.hosted.value.rejected {
      var h, l' := l.hosted.value, LaneNext(l, Finish, sh, maxEvents);
      FinishPage(h, sh, l.served);
      FinishChannels(l, l', sh, maxEvents);
      if h.busy.value.generation == h.generation && sh.worker {
        FinishStream(l, sh, maxEvents);
      } else if sh.worker {
        StaleFinish(l, l', h, sh);
      }
    }
  }

  lemma FinishChannels(l: Lane, l': Lane, sh: Shared, maxEvents: nat)
    requires LaneInv(l, sh, maxEvents) && l.hosted.Some? && l.hosted.value.busy.Some? && !l.hosted.value.rejected
    requires l' == LaneNext(l, Finish, sh, maxEvents)
    ensures Channels(l', sh, maxEvents)
  {
    hide WellFormed, StreamSide, Told;
    var h := l.hosted.value;
    if h.busy.value.generation == h.generation && sh.worker && sh.up {
      MessageChannels(l, AckOf(h.generation, h.busy.value.seqNo), sh, maxEvents);
    } else {
      assert l'.toWorker == l.toWorker;
    }
  }

  lemma StaleFinish(l: Lane, l': Lane, h: Hosted, sh: Shared)
    requires StreamSide(l, h, sh) && h.busy.Some? && h.busy.value.generation != h.generation
    requires l' == l.(hosted := Some(FinishTask(h)), toWorker := l.toWorker + [])
    ensures StreamSide(l', FinishTask(h), sh)
  {
    hide StreamSide;
    var way := OnTheWay(l, h);
    assert way[0] == h.busy.value && way[1..] == OnTheWay(l', FinishTask(h));
    assert l'.toWorker == l.toWorker;
    SameStream(l, h, l', FinishTask(h), sh);
  }

  lemma HostReceivesKeeps(l: Lane, sh: Shared, maxEvents: nat)
    requires LaneInv(l, sh, maxEvents)
    ensures LaneInv(LaneNext(l, HostReceives, sh, maxEvents), sh, maxEvents)
  {
    hide Told, WellFormed, StreamSide, Mine;
    if l.toHost != [] && l.hosted.Some? && sh.worker {
      var h, l', b := l.hosted.value, LaneNext(l, HostReceives, sh, maxEvents), l.toHost[0];
      var h', before := l'.hosted.value, Busy(h) + h.chain;
      assert b in l.toHost;
      assert OnTheWay(l, h) == before + [b] + l'.toHost;
      if b.generation == h.generation {
        assert OnTheWay(l', h') == OnTheWay(l, h);
        assert Busy(h') + h'.chain == before + [b];
      } else {
        MineAppend(h.generation, before + [b], l'.toHost);
        MineAppend(h.generation, before, [b]);
        MineAppend(h.generation, before, l'.toHost);
        MineNone(h.generation, [b]);
      }
      SameStream(l, h, l', h', sh);
    }
  }

  // ---- worker steps ----------------------------------------------------------------------

  lemma PostedStream(g: nat, sent: seq<Sent>)
    ensures Mine(g, Posted(g, sent)) == Posted(g, sent) && Carried(Posted(g, sent)) == DeliveriesOf(sent)
    ensures forall other :: other != g ==> Mine(other, Posted(g, sent)) == []
  {
    MineAll(g, Posted(g, sent));
    forall other | other != g ensures Mine(other, Posted(g, sent)) == [] {
      MineNone(other, Posted(g, sent));
    }
  }

  lemma {:induction false} MineAll(g: nat, bs: seq<Batch>)
    requires forall b :: b in bs ==> b.generation == g
    ensures Mine(g, bs) == bs
  {
    if bs != [] {
      assert bs[0] in bs;
      MineAll(g, bs[1..]);
    }
  }

  /** New batches at the end of the wire, seen from the host's generation. */
  lemma SendGrowsStream(l: Lane, l': Lane, h: Hosted, g: nat, sent: seq<Sent>)
    requires l'.toHost == l.toHost + Posted(g, sent)
    ensures Outstanding(l', h) == Outstanding(l, h) + if g == h.generation then Posted(g, sent) else []
    ensures Carried(Posted(g, sent)) == DeliveriesOf(sent)
  {
    assert OnTheWay(l', h) == OnTheWay(l, h) + Posted(g, sent);
    MineAppend(h.generation, OnTheWay(l, h), Posted(g, sent));
    PostedStream(g, sent);
  }

  lemma EmitTokens(l: Lane, d: Delivery, sh: Shared, maxEvents: nat)
    requires LaneInv(l, sh, maxEvents) && sh.worker && l.hosted.Some? && Serves(l, l.hosted.value.generation)
    ensures var l', g := Emit(l, d, maxEvents), l.hosted.value.generation;
            SeqNos(Outstanding(l', l.hosted.value)) + AcksFor(g, l'.toWorker) == Tokens(l'.subscription.value.queue)
  {
    hide Told, Follows, PageSide, Chain, Enqueue, AcksFor, Mine;
    var h, l', q := l.hosted.value, Emit(l, d, maxEvents), l.subscription.value.queue;
    var g, out, r := h.generation, Outstanding(l, h), Push(q, d, maxEvents);
    SendGrowsStream(l, l', h, g, r.sent);
    PushKeepsWellFormed(q, d, maxEvents);
    if q.inFlight.None? {
      assert |SeqNos(out) + AcksFor(g, l.toWorker)| == 0;
      assert out == [] && r.sent[0] in r.sent;
      assert Outstanding(l', h) == Posted(g, r.sent);
    } else {
      assert Posted(g, r.sent) == [];
    }
  }

  lemma EmitContents(l: Lane, d: Delivery, maxEvents: nat, h: Hosted)
    requires Serves(l, h.generation)
    ensures Stream(Emit(l, d, maxEvents), h)
         == Carried(Outstanding(l, h)) + Enqueue(l.subscription.value.queue, d, maxEvents).queued
  {
    hide Enqueue, Mine, Flush, Posted, Carried, DeliveriesOf, Outstanding;
    var l', q, out := Emit(l, d, maxEvents), l.subscription.value.queue, Outstanding(l, h);
    var r, e := Push(q, d, maxEvents), Enqueue(q, d, maxEvents);
    SendGrowsStream(l, l', h, h.generation, r.sent);
    FlushedStream(e);
    CarriedPosted(out, h.generation, r.sent);
    assert (Carried(out) + DeliveriesOf(r.sent)) + r.queue.queued == Carried(out) + (DeliveriesOf(r.sent) + r.queue.queued);
  }

  /** What a flush sends and what it leaves are what was queued. */
  lemma FlushedStream(q: Queue)
    ensures DeliveriesOf(Flush(q).sent) + Flush(q).queue.queued == q.queued
  {
    FlushKeepsStream(q, []);
    assert [] + Flush(q).sent == Flush(q).sent && DeliveriesOf([]) == [];
  }

  lemma CarriedPosted(out: seq<Batch>, g: nat, sent: seq<Sent>)
    ensures Carried(out + Posted(g, sent)) == Carried(out) + DeliveriesOf(sent)
  {
  }

  /** A delivery that carries the stream on is queued, coalesced or sent without a hole. */
  lemma EmitStream(l: Lane, d: Delivery, sh: Shared, maxEvents: nat)
    requires LaneInv(l, sh, maxEvents) && sh.worker && l.hosted.Some? && Serves(l, l.hosted.value.generation)
    requires Follows(EndOf(l.hosted.value.position, Stream(l, l.hosted.value)), d)
    ensures StreamSide(Emit(l, d, maxEvents), l.hosted.value, sh)
  {
    hide Told, Follows, PageSide, WellFormed, Enqueue, Mine, AcksFor;
    var h, q, l' := l.hosted.value, l.subscription.value.queue, Emit(l, d, maxEvents);
    var out, e := Outstanding(l, h), Enqueue(q, d, maxEvents);
    EmitTokens(l, d, sh, maxEvents);
    EmitContents(l, d, maxEvents, h);
    ChainSplit(h.position, Stream(l, h), [d]);
    assert Stream(l, h) + [d] == Carried(out) + (q.queued + [d]);
    ChainSplit(h.position, Carried(out), q.queued + [d]);
    EnqueueKeepsChain(EndOf(h.position, Carried(out)), q, d, maxEvents);
    ChainSplit(h.position, Carried(out), e.queued);
  }

  lemma EmitChannels(l: Lane, d: Delivery, sh: Shared, maxEvents: nat)
    requires Channels(l, sh, maxEvents) && l.subscription.Some? && CursorOf(d) <= l.head
    ensures Channels(Emit(l, d, maxEvents), sh, maxEvents)
  {
    hide Enqueue, WellFormed;
    var sub := l.subscription.value;
    PushKeepsWellFormed(sub.queue, d, maxEvents);
    var posted := Posted(sub.generation, Push(sub.queue, d, maxEvents).sent);
    assert forall b :: b in l.toHost + posted ==> b in l.toHost || b in posted;
  }

  lemma EmitKeeps(l: Lane, d: Delivery, sh: Shared, maxEvents: nat)
    requires LaneInv(l, sh, maxEvents) && l.subscription.Some? && CursorOf(d) <= l.head
    requires d.Resync? ==> l.served <= d.at
    requires d.Deliver? ==> l.subscription.value.feed.Some? && Follows(l.subscription.value.feed, d)
    ensures LaneInv(Emit(l, d, maxEvents), sh, maxEvents)
  {
    hide Told, PageFollows, Chain, Mine, AcksFor, WellFormed, Push, Channels, Stream;
    EmitChannels(l, d, sh, maxEvents);
    if l.hosted.Some? && sh.worker {
      var h, l', sub := l.hosted.value, Emit(l, d, maxEvents), l.subscription.value;
      if Serves(l, h.generation) {
        EmitStream(l, d, sh, maxEvents);
      } else {
        SendGrowsStream(l, l', h, sub.generation, Push(sub.queue, d, maxEvents).sent);
        assert Stream(l', h) == Stream(l, h) by { OtherQueue(l, l', h); }
      }
    }
  }

  lemma SameQueue(l: Lane, l': Lane, h: Hosted)
    requires l'.subscription == l.subscription && Outstanding(l', h) == Outstanding(l, h)
    ensures Stream(l', h) == Stream(l, h)
  {
  }

  lemma OtherQueue(l: Lane, l': Lane, h: Hosted)
    requires !Serves(l, h.generation) && !Serves(l', h.generation) && Outstanding(l', h) == Outstanding(l, h)
    ensures Stream(l', h) == Stream(l, h)
  {
  }

  lemma AckStream(l: Lane, n: nat, sh: Shared, maxEvents: nat)
    requires LaneInv(l, sh, maxEvents) && sh.worker && l.hosted.Some? && Serves(l, l.hosted.value.generation)
    requires l.toWorker != [] && l.toWorker[0] == AckOf(l.hosted.value.generation, n)
    ensures var l' := LaneNext(l, WorkerReceives, sh, maxEvents); StreamSide(l', l.hosted.value, sh)
  {
    hide Told, Follows, PageSide, Mine, Chain, Stream;
    var h, q, l' := l.hosted.value, l.subscription.value.queue, LaneNext(l, WorkerReceives, sh, maxEvents);
    var g, out, r := h.generation, Outstanding(l, h), Ack(q, n);
    assert AcksFor(g, l.toWorker) == [n] + AcksFor(g, l.toWorker[1..]);
    var tokens := SeqNos(out) + AcksFor(g, l.toWorker);
    assert |tokens| == 1 && out == [] && tokens[0] == n;
    assert q.inFlight == Some(n);
    AckKeepsWellFormed(q, n, maxEvents);
    SendGrowsStream(l, l', h, g, r.sent);
    AckContents(l, l', h, n, r);
    assert Outstanding(l', h) == Posted(g, r.sent);
    assert r.sent != [] ==> r.sent[0] in r.sent;
  }

  /** The acknowledged delivery is gone already; the next one moves from the queue to the wire. */
  lemma AckContents(l: Lane, l': Lane, h: Hosted, n: nat, r: Outcome)
    requires Serves(l, h.generation) && l.subscription.value.queue.inFlight == Some(n)
    requires r == Ack(l.subscription.value.queue, n) && Outstanding(l, h) == []
    requires l'.subscription == Some(l.subscription.value.(queue := r.queue))
    requires l'.toHost == l.toHost + Posted(h.generation, r.sent)
    ensures Stream(l', h) == Stream(l, h)
  {
    hide Mine;
    var q := l.subscription.value.queue;
    SendGrowsStream(l, l', h, h.generation, r.sent);
    FlushKeepsStream(q.(inFlight := None), []);
    assert [] + r.sent == r.sent && DeliveriesOf([]) == [];
    assert Outstanding(l', h) == Posted(h.generation, r.sent);
  }

  /** The worker's own side of a message, whatever the page is doing. */
  lemma ReceiveChannels(l: Lane, sh: Shared, maxEvents: nat)
    requires Channels(l, sh, maxEvents) && l.toWorker != []
    ensures Channels(LaneNext(l, WorkerReceives, sh, maxEvents), sh, maxEvents)
  {
    hide WellFormed, Ack, Posted;
    var l', m, rest := LaneNext(l, WorkerReceives, sh, maxEvents), l.toWorker[0], l.toWorker[1..];
    assert m in l.toWorker;
    assert forall i :: 0 <= i < |rest| ==> rest[i] == l.toWorker[i + 1];
    assert forall x :: x in rest ==> x in l.toWorker;
    match m
    case Open(g, _) =>
      forall x | x in rest && x.Open? ensures g < x.generation {
        var i :| 0 <= i < |rest| && rest[i] == x;
        assert l.toWorker[i + 1] == x;
      }
      EmptyIsWellFormed(maxEvents);
    case Close(_) =>
    case AckOf(g, n) =>
      if Serves(l, g) {
        AckKeepsWellFormed(l.subscription.value.queue, n, maxEvents);
        PostedGeneration(g, Ack(l.subscription.value.queue, n).sent);
      }
  }

  lemma EmptyIsWellFormed(maxEvents: nat)
    ensures WellFormed(EMPTY_QUEUE, maxEvents)
  {
  }

  lemma PostedGeneration(g: nat, sent: seq<Sent>)
    ensures forall b :: b in Posted(g, sent) ==> b.generation == g
  {
  }

  lemma NothingCarried()
    ensures Carried([]) == []
  {
  }

  lemma NoChain(from: Option<nat>)
    ensures Chain(from, [])
  {
  }

  /** Opening the current generation starts its stream where the host asked; anything else is older. */
  lemma OpenStream(l: Lane, sh: Shared, maxEvents: nat)
    requires LaneInv(l, sh, maxEvents) && sh.worker && l.hosted.Some?
    requires l.toWorker != [] && l.toWorker[0].Open?
    ensures var l' := LaneNext(l, WorkerReceives, sh, maxEvents); StreamSide(l', l.hosted.value, sh)
  {
    hide Told, PageSide, WellFormed, Chain, Mine, Carried;
    var h, l', m := l.hosted.value, LaneNext(l, WorkerReceives, sh, maxEvents), l.toWorker[0];
    assert m in l.toWorker;
    assert AcksFor(h.generation, l.toWorker) == AcksFor(h.generation, l'.toWorker);
    assert Outstanding(l', h) == Outstanding(l, h);
    assert forall x :: x in l.toWorker ==> x == m || x in l'.toWorker;
    if m.generation == h.generation {
      assert Stream(l', h) == [] by { NothingCarried(); }
      NoChain(h.position);
      NoSeqNos();
    } else {
      assert Stream(l', h) == Stream(l, h);
    }
  }

  lemma WorkerReceivesKeeps(l: Lane, sh: Shared, maxEvents: nat)
    requires LaneInv(l, sh, maxEvents)
    ensures LaneInv(LaneNext(l, WorkerReceives, sh, maxEvents), sh, maxEvents)
  {
    hide Told, WellFormed, Follows, Mine, Chain, Channels, Push, Ack, Flush;
    if l.toWorker != [] {
      ReceiveChannels(l, sh, maxEvents);
      if l.hosted.Some? && sh.worker {
        var h, l', m := l.hosted.value, LaneNext(l, WorkerReceives, sh, maxEvents), l.toWorker[0];
        assert m in l.toWorker;
        assert forall x :: x in l.toWorker ==> x == m || x in l'.toWorker;
        match m
        case Open(_, _) => OpenStream(l, sh, maxEvents);
        case Close(g) =>
          assert g != h.generation;
          SameStreamShorter(l, h, l', sh);
        case AckOf(g, n) =>
          if g == h.generation && Serves(l, g) {
            AckStream(l, n, sh, maxEvents);
          } else {
            if Serves(l, g) {
              SendGrowsStream(l, l', h, g, Ack(l.subscription.value.queue, n).sent);
            }
            SameStreamShorter(l, h, l', sh);
          }
      }
    }
  }

  /** A message that does not concern the current generation changes nothing of its stream. */
  lemma SameStreamShorter(l: Lane, h: Hosted, l': Lane, sh: Shared)
    requires StreamSide(l, h, sh) && l.toWorker != [] && l'.toWorker == l.toWorker[1..]
    requires !(l.toWorker[0].generation == h.generation) && !l.toWorker[0].Open?
    requires Outstanding(l', h) == Outstanding(l, h) && l'.served == l.served
    requires Serves(l, h.generation) ==> l'.subscription == l.subscription
    requires Serves(l', h.generation) ==> Serves(l, h.generation)
    ensures StreamSide(l', h, sh)
  {
    hide Chain, Mine;
    assert Stream(l', h) == Stream(l, h);
    assert AcksFor(h.generation, l.toWorker) == AcksFor(h.generation, l'.toWorker);
    assert forall x :: x in l.toWorker ==> x == l.toWorker[0] || x in l'.toWorker;
    assert forall x :: x in l'.toWorker ==> x in l.toWorker;
  }

  // ---- the main-thread stream and the remaining lane steps --------------------------------

  lemma MainKeeps(l: Lane, step: LaneStep, sh: Shared, maxEvents: nat)
    requires LaneInv(l, sh, maxEvents)
    requires step.MainStarts? || step.MainHandshake? || step.MainRead? || step.MainOutage?
    ensures LaneInv(LaneNext(l, step, sh, maxEvents), sh, maxEvents)
  {
    hide Chain, Mine, AcksFor, WellFormed, Told;
    if Following(l) {
      var h := l.hosted.value;
      var m := h.main.value;
      match step
      case MainHandshake(reason, c) =>
        if m.feed.None? && l.served <= c <= l.head {
          TellMore(h.calls, m.reached, Reconciled(reason, c), c);
        }
      case MainRead(page, force) =>
        if m.feed.Some? && page.cursor <= l.head && PageFollows(m.feed, page) {
          TellMore(h.calls, m.reached, Handed(page, force), page.cursor);
        }
      case MainStarts =>
      case MainOutage =>
    }
  }

  lemma LateAckKeeps(l: Lane, g: nat, n: nat, sh: Shared, maxEvents: nat)
    requires LaneInv(l, sh, maxEvents)
    ensures LaneInv(LaneNext(l, LateAck(g, n), sh, maxEvents), sh, maxEvents)
  {
    hide Chain, Mine, WellFormed, PageSide, AcksFor, Stream;
    var l' := LaneNext(l, LateAck(g, n), sh, maxEvents);
    if l' != l {
      MessageChannels(l, AckOf(g, n), sh, maxEvents);
      if l.hosted.Some? && sh.worker {
        var h := l.hosted.value;
        AcksAppend(h.generation, l.toWorker, [AckOf(g, n)]);
        AcksOne(h.generation, AckOf(g, n));
        assert Stream(l', h) == Stream(l, h) by { SameQueue(l, l', h); }
        assert forall m :: m in l.toWorker ==> m in l'.toWorker;
      }
    }
  }

  lemma MessageChannels(l: Lane, m: ToWorker, sh: Shared, maxEvents: nat)
    requires Channels(l, sh, maxEvents) && sh.up && m.generation < sh.nextGeneration
    requires m.Open? ==> (forall x :: x in l.toWorker ==> x.generation < m.generation)
                         && (l.subscription.Some? ==> l.subscription.value.generation < m.generation)
    ensures Channels(l.(toWorker := l.toWorker + [m]), sh, maxEvents)
  {
    hide WellFormed;
    var more := l.toWorker + [m];
    forall i, j | 0 <= i < j < |more| && more[i].Open? && more[j].Open? ensures more[i].generation < more[j].generation {
      assert more[i] in l.toWorker;
    }
  }

  lemma RecordKeeps(l: Lane, sh: Shared, maxEvents: nat)
    requires LaneInv(l, sh, maxEvents)
    ensures LaneInv(l.(head := l.head + 1), sh, maxEvents)
  {
    hide Chain, Mine, AcksFor, WellFormed, PageSide, StreamSide;
    if l.hosted.Some? && sh.worker {
      SameStream(l, l.hosted.value, l.(head := l.head + 1), l.hosted.value, sh);
    }
  }

  /** A consumer call that rejects leaves its delivery where it is. */
  lemma RejectKeeps(l: Lane, sh: Shared, maxEvents: nat)
    requires LaneInv(l, sh, maxEvents)
    ensures LaneInv(LaneNext(l, Reject, sh, maxEvents), sh, maxEvents)
  {
    hide Chain, Mine, AcksFor, WellFormed, StreamSide, Told, Channels;
    var l' := LaneNext(l, Reject, sh, maxEvents);
    if l.hosted.Some? && l.hosted.value.busy.Some? {
      var h, h' := l.hosted.value, l'.hosted.value;
      assert Busy(h') + h'.chain == Busy(h) + h.chain && Reach(h') == Reach(h) && OnTheWay(l', h') == OnTheWay(l, h);
      SameChannels(l, l', sh, maxEvents);
      if sh.worker {
        SameStream(l, h, l', h', sh);
      }
    }
  }

  lemma SameChannels(l: Lane, l': Lane, sh: Shared, maxEvents: nat)
    requires Channels(l, sh, maxEvents) && l' == l.(hosted := l'.hosted)
    ensures Channels(l', sh, maxEvents)
  {
    hide WellFormed;
  }

  lemma OutageKeeps(l: Lane, sh: Shared, maxEvents: nat)
    requires LaneInv(l, sh, maxEvents)
    ensures LaneInv(LaneNext(l, Outage, sh, maxEvents), sh, maxEvents)
  {
    hide Chain, Mine, AcksFor, WellFormed, PageSide;
    if l.subscription.Some? && l.hosted.Some? && sh.worker {
      assert Stream(LaneNext(l, Outage, sh, maxEvents), l.hosted.value) == Stream(l, l.hosted.value);
    }
  }

  lemma LaneStepKeeps(l: Lane, step: LaneStep, sh: Shared, maxEvents: nat)
    requires LaneInv(l, sh, maxEvents)
    ensures LaneInv(LaneNext(l, step, sh, maxEvents), sh, maxEvents)
  {
    hide LaneInv, Emit, BeginTask, FinishTask, WorkerHandles;
    match step
    case Record => RecordKeeps(l, sh, maxEvents);
    case Handshake(reason, c) =>
      if l.subscription.Some? && l.subscription.value.feed.None? && l.served <= c <= l.head {
        EmitKeeps(l, Resync(reason, c), sh, maxEvents);
      }
    case Read(page, force) =>
      if l.subscription.Some? && l.subscription.value.feed.Some? && page.cursor <= l.head
         && PageFollows(l.subscription.value.feed, page) {
        EmitKeeps(l, Deliver(page, force), sh, maxEvents);
      }
    case Outage => OutageKeeps(l, sh, maxEvents);
    case WorkerReceives => WorkerReceivesKeeps(l, sh, maxEvents);
    case HostReceives => HostReceivesKeeps(l, sh, maxEvents);
    case Begin => BeginKeeps(l, sh, maxEvents);
    case Finish => FinishKeeps(l, sh, maxEvents);
    case Reject => RejectKeeps(l, sh, maxEvents);
    case LateAck(g, n) => LateAckKeeps(l, g, n, sh, maxEvents);
    case MainStarts => MainKeeps(l, step, sh, maxEvents);
    case MainHandshake(_, _) => MainKeeps(l, step, sh, maxEvents);
    case MainRead(_, _) => MainKeeps(l, step, sh, maxEvents);
    case MainOutage => MainKeeps(l, step, sh, maxEvents);
  }

  // ---- starts, stops and changes of the shared worker -------------------------------------

  lemma FreshStream(l: Lane, h: Hosted)
    requires forall b :: b in OnTheWay(l, h) ==> b.generation != h.generation
    requires forall m :: m in l.toWorker && m.AckOf? ==> m.generation != h.generation
    requires !Serves(l, h.generation)
    ensures Outstanding(l, h) == [] && Stream(l, h) == [] && AcksFor(h.generation, l.toWorker) == []
  {
    MineNone(h.generation, OnTheWay(l, h));
    AcksNone(h.generation, l.toWorker);
  }

  /** A project that was just opened, or waits for a worker, has an empty stream from where it resumes. */
  lemma FreshStreamSide(l: Lane, h: Hosted, sh: Shared)
    requires forall b :: b in OnTheWay(l, h) ==> b.generation != h.generation
    requires !Serves(l, h.generation) && OrZero(h.position) <= l.served
    requires forall m :: m in l.toWorker ==> m == Open(h.generation, h.position) || m.generation < h.generation
    requires sh.up ==> Open(h.generation, h.position) in l.toWorker
    ensures StreamSide(l, h, sh)
  {
    hide Mine, AcksFor;
    FreshStream(l, h);
  }

  lemma NewPage(h: Hosted, sh: Shared, served: nat)
    requires h.generation < sh.nextGeneration && h.cursor.None? && h.position.None?
    requires h.chain == [] && h.busy.None? && h.calls == [] && !h.rejected
    requires h.main == if sh.worker then None else Some(MainStream(None, 0))
    ensures PageSide(h, sh, served)
  {
    assert HandedStamps(h.calls) == [];
  }

  lemma StartedKeeps(l: Lane, sh: Shared, sh': Shared, maxEvents: nat)
    requires LaneInv(l, sh, maxEvents) && sh' == sh.(nextGeneration := sh.nextGeneration + 1)
    requires sh.up ==> sh.worker
    ensures LaneInv(Started(l, sh.nextGeneration, sh), sh', maxEvents)
  {
    hide WellFormed, StreamSide, PageSide;
    var g, l' := sh.nextGeneration, Started(l, sh.nextGeneration, sh);
    var h := l'.hosted.value;
    NewPage(h, sh', l'.served);
    assert Channels(l, sh', maxEvents);
    if sh.up {
      MessageChannels(l, Open(g, None), sh', maxEvents);
      assert Open(g, None) in l'.toWorker;
    } else {
      assert l'.toWorker == l.toWorker;
    }
    assert OnTheWay(l', h) == l.toHost;
    FreshStreamSide(l', h, sh');
  }

  lemma StoppedKeeps(l: Lane, sh: Shared, maxEvents: nat)
    requires LaneInv(l, sh, maxEvents)
    ensures LaneInv(Stopped(l, sh), sh, maxEvents)
  {
    hide WellFormed, StreamSide;
    if l.hosted.Some? {
      if sh.up {
        MessageChannels(l, Close(l.hosted.value.generation), sh, maxEvents);
      } else {
        assert l.toWorker + [] == l.toWorker;
      }
    }
  }

  lemma HeldStream(l: Lane, h: Hosted, sh: Shared, sh': Shared)
    requires StreamSide(l, h, sh) && !sh'.up
    ensures StreamSide(WorkerGone(l), h, sh')
  {
    hide Mine, Follows, Chain, Carried, AcksFor;
    var l', held, g := WorkerGone(l), Busy(h) + h.chain, h.generation;
    assert OnTheWay(l, h) == held + l.toHost && OnTheWay(l', h) == held;
    MineAppend(g, held, l.toHost);
    CarriedAppend(Mine(g, held), Mine(g, l.toHost));
    var queued := if Serves(l, g) then l.subscription.value.queue.queued else [];
    var kept, lost := Carried(Mine(g, held)), Carried(Mine(g, l.toHost)) + queued;
    assert Stream(l, h) == kept + lost && Stream(l', h) == kept;
    ChainSplit(h.position, kept, lost);
    ChainCursors(EndOf(h.position, kept), lost);
    AcksNone(g, []);
  }

  lemma CarriedAppend(a: seq<Batch>, b: seq<Batch>)
    ensures Carried(a + b) == Carried(a) + Carried(b)
  {
  }

  /** A dead worker takes its channels with it; what the host holds still carries its stream. */
  lemma WorkerGoneKeeps(l: Lane, sh: Shared, sh': Shared, maxEvents: nat)
    requires LaneInv(l, sh, maxEvents) && !sh'.up && sh'.worker == sh.worker
    requires sh'.nextGeneration == sh.nextGeneration
    ensures LaneInv(WorkerGone(l), sh', maxEvents)
  {
    hide WellFormed, Told, StreamSide;
    if l.hosted.Some? && sh.worker {
      HeldStream(l, l.hosted.value, sh, sh');
    }
  }

  lemma ReopenedKeeps(l: Lane, restart: bool, next: nat, sh: Shared, sh': Shared, maxEvents: nat)
    requires LaneInv(l, sh, maxEvents) && sh.worker && sh'.worker && sh'.up
    requires sh.nextGeneration <= next < sh'.nextGeneration
    requires !restart && l.hosted.Some? ==> l.hosted.value.busy.None? && l.hosted.value.chain == []
    ensures LaneInv(Reopened(l, restart, next), sh', maxEvents)
  {
    hide Told, StreamSide;
    if l.hosted.Some? {
      var h, l' := l.hosted.value, Reopened(l, restart, next);
      var h' := l'.hosted.value;
      assert l'.toWorker[0] in l'.toWorker;
      assert OnTheWay(l', h') == Busy(h) + h.chain;
      FreshStreamSide(l', h', sh');
    }
  }

  lemma FellBackKeeps(l: Lane, g: nat, sh: Shared, sh': Shared, maxEvents: nat)
    requires LaneInv(l, sh, maxEvents) && sh.worker && !sh'.worker && !sh'.up
    requires sh.nextGeneration <= g < sh'.nextGeneration
    ensures LaneInv(FellBack(l, g), sh', maxEvents)
  {
    hide Told, PageSide, StreamSide, Channels;
    GoneChannels(l, FellBack(l, g), sh, sh', maxEvents);
    if l.hosted.Some? {
      FellBackPage(l.hosted.value, g, sh, sh', l.served);
    }
  }

  /** Without a worker nothing is on the way. */
  lemma GoneChannels(l: Lane, l': Lane, sh: Shared, sh': Shared, maxEvents: nat)
    requires Channels(l, sh, maxEvents) && l' == WorkerGone(l).(hosted := l'.hosted) && !sh'.up
    ensures Channels(l', sh', maxEvents)
  {
    hide WellFormed;
  }

  /** A generation nobody holds makes everything still chained stale. */
  lemma FellBackPage(h: Hosted, g: nat, sh: Shared, sh': Shared, served: nat)
    requires PageSide(h, sh, served) && sh.worker && !sh'.worker && sh.nextGeneration <= g < sh'.nextGeneration
    ensures PageSide(h.(generation := g), sh', served)
  {
    hide Told;
    var h' := h.(generation := g);
    assert Busy(h') + h'.chain == Busy(h) + h.chain && Reach(h') == Reach(h);
  }

  /** Using up generations elsewhere does not concern a lane. */
  lemma LaterGenerations(l: Lane, sh: Shared, sh': Shared, maxEvents: nat)
    requires LaneInv(l, sh, maxEvents)
    requires sh'.worker == sh.worker && sh'.up == sh.up && sh'.nextGeneration >= sh.nextGeneration
    ensures LaneInv(l, sh', maxEvents)
  {
    hide Told, Chain, Mine, AcksFor, WellFormed;
  }

  // ---- every run -------------------------------------------------------------------------

  ghost predicate SystemInv(s: System, cfg: Config) {
    && (forall p :: 0 <= p < |s.lanes| ==> LaneInv(s.lanes[p], s.shared, cfg.maxEvents))
    && (s.shared.up ==> s.shared.worker)
    && (s.shared.restartArmed ==> s.shared.worker && !s.shared.up)
    && (s.shared.worker && !s.shared.up && !s.shared.restartArmed ==>
          forall p :: 0 <= p < |s.lanes| ==> s.lanes[p].hosted.None?)
  }

  lemma FallBackKeeps(s: System, cfg: Config)
    requires s.shared.worker && forall p :: 0 <= p < |s.lanes| ==> LaneInv(s.lanes[p], s.shared, cfg.maxEvents)
    ensures SystemInv(FallBack(s), cfg)
  {
    hide LaneInv;
    var s' := FallBack(s);
    forall p | 0 <= p < |s.lanes| ensures LaneInv(s'.lanes[p], s'.shared, cfg.maxEvents) {
      FellBackKeeps(s.lanes[p], s.shared.nextGeneration + p, s.shared, s'.shared, cfg.maxEvents);
    }
  }

  lemma LaunchKeeps(s: System, restart: bool, created: bool, cfg: Config)
    requires s.shared.worker && forall p :: 0 <= p < |s.lanes| ==> LaneInv(s.lanes[p], s.shared, cfg.maxEvents)
    requires !restart ==> forall p :: 0 <= p < |s.lanes| && s.lanes[p].hosted.Some? ==>
                            s.lanes[p].hosted.value.busy.None? && s.lanes[p].hosted.value.chain == []
    ensures SystemInv(Launch(s, restart, created), cfg)
  {
    hide LaneInv;
    if created {
      var s' := Launch(s, restart, created);
      forall p | 0 <= p < |s.lanes| ensures LaneInv(s'.lanes[p], s'.shared, cfg.maxEvents) {
        ReopenedKeeps(s.lanes[p], restart, s.shared.nextGeneration + p, s.shared, s'.shared, cfg.maxEvents);
      }
    } else {
      FallBackKeeps(s, cfg);
    }
  }

  lemma StartKeeps(s: System, p: nat, created: bool, cfg: Config)
    requires SystemInv(s, cfg) && p < |s.lanes|
    ensures SystemInv(Next(s, Start(p, created), cfg), cfg)
  {
    hide LaneInv;
    var n := s.shared.nextGeneration;
    var begun := System(s.shared.(nextGeneration := n + 1), s.lanes[p := Started(s.lanes[p], n, s.shared)]);
    forall q | 0 <= q < |s.lanes| ensures LaneInv(begun.lanes[q], begun.shared, cfg.maxEvents) {
      if q == p {
        StartedKeeps(s.lanes[p], s.shared, begun.shared, cfg.maxEvents);
      } else {
        LaterGenerations(s.lanes[q], s.shared, begun.shared, cfg.maxEvents);
      }
    }
    if s.shared.worker && !s.shared.up && !s.shared.restartArmed {
      LaunchKeeps(begun, false, created, cfg);
    }
  }

  lemma CrashKeeps(s: System, at: nat, cfg: Config)
    requires SystemInv(s, cfg) && s.shared.worker && s.shared.up
    ensures SystemInv(Next(s, Crash(at), cfg), cfg)
  {
    hide LaneInv, Recent;
    var recent := Recent(s.shared.crashes + [at], at, cfg.restartWindow);
    var down := System(s.shared.(up := false, restartArmed := true, crashes := recent),
                       AllGone(s.lanes));
    forall p | 0 <= p < |s.lanes| ensures LaneInv(down.lanes[p], down.shared, cfg.maxEvents) {
      WorkerGoneKeeps(s.lanes[p], s.shared, down.shared, cfg.maxEvents);
    }
    if |recent| > cfg.maxRestarts {
      FallBackKeeps(down, cfg);
    }
  }

  lemma StepKeeps(s: System, step: Step, cfg: Config)
    requires SystemInv(s, cfg)
    ensures SystemInv(Next(s, step, cfg), cfg)
  {
    hide LaneInv, LaneNext, Launch, FallBack, Started, Stopped;
    match step
    case OnLane(p, laneStep) =>
      if p < |s.lanes| {
        LaneStepKeeps(s.lanes[p], laneStep, s.shared, cfg.maxEvents);
        NoLaneAppears(s.lanes[p], laneStep, s.shared, cfg.maxEvents);
      }
    case Start(p, created) =>
      if p < |s.lanes| {
        StartKeeps(s, p, created, cfg);
      }
    case Stop(p) =>
      if p < |s.lanes| {
        StoppedKeeps(s.lanes[p], s.shared, cfg.maxEvents);
        assert Stopped(s.lanes[p], s.shared).hosted.None? by { StoppedIsGone(s.lanes[p], s.shared); }
      }
    case Crash(at) =>
      if s.shared.worker && s.shared.up {
        CrashKeeps(s, at, cfg);
      }
    case Relaunch(created) =>
      if s.shared.worker && s.shared.restartArmed {
        LaunchKeeps(s, true, created, cfg);
      }
    case GiveUp =>
      if s.shared.up {
        FallBackKeeps(s, cfg);
      }
  }

  lemma StoppedIsGone(l: Lane, sh: Shared)
    ensures Stopped(l, sh).hosted.None?
  {
  }

  lemma NoLaneAppears(l: Lane, step: LaneStep, sh: Shared, maxEvents: nat)
    ensures l.hosted.None? ==> LaneNext(l, step, sh, maxEvents).hosted.None?
  {
  }

  lemma NewLaneKeeps(sh: Shared, maxEvents: nat)
    ensures LaneInv(NEW_LANE, sh, maxEvents)
  {
  }

  lemma {:induction false} EveryRunKeepsTheInvariant(projects: nat, steps: seq<Step>, cfg: Config)
    ensures SystemInv(Run(projects, steps, cfg), cfg)
  {
    hide LaneInv, LaneNext, Launch, FallBack;
    NewLaneKeeps(StreamProtocol.Initial(projects).shared, cfg.maxEvents);
    if steps != [] {
      EveryRunKeepsTheInvariant(projects, steps[..|steps| - 1], cfg);
      StepKeeps(Run(projects, steps[..|steps| - 1], cfg), steps[|steps| - 1], cfg);
    }
  }

  /**
    Exactly once: over every run, with worker crashes, restarts, fallback, stale generations and
    deliveries caught in the middle of their consumer call, each project's consumer was handed
    recorded events in strictly increasing cursor order, and every event up to the applied cursor
    was handed over or covered by a reconcile.
   */
  lemma ExactlyOnce(projects: nat, steps: seq<Step>, cfg: Config, p: nat)
    requires p < |Run(projects, steps, cfg).lanes| && Run(projects, steps, cfg).lanes[p].hosted.Some?
    ensures var l := Run(projects, steps, cfg).lanes[p];
            var h := l.hosted.value;
            && (forall i, j :: 0 <= i < j < |HandedStamps(h.calls)| ==> HandedStamps(h.calls)[i] < HandedStamps(h.calls)[j])
            && (forall k: nat :: 0 < k <= Reach(h) ==> Covered(h.calls, k))
            && (forall i :: 0 <= i < |HandedStamps(h.calls)| ==> HandedStamps(h.calls)[i] <= Reach(h))
            && OrZero(h.cursor) <= Reach(h) <= l.head
  {
    hide Next;
    EveryRunKeepsTheInvariant(projects, steps, cfg);
    assert LaneInv(Run(projects, steps, cfg).lanes[p], Run(projects, steps, cfg).shared, cfg.maxEvents);
  }

  /**
    No project is stranded: over every run, while the page relies on a worker, a hosted project is
    followed by it or its open is on the way, or a restart is armed; and a project with deliveries
    waiting has exactly one delivery or acknowledgement under way, so the next one will be sent.
   */
  lemma NoProjectIsStranded(projects: nat, steps: seq<Step>, cfg: Config, p: nat)
    requires p < |Run(projects, steps, cfg).lanes| && Run(projects, steps, cfg).lanes[p].hosted.Some?
    requires Run(projects, steps, cfg).shared.worker
    ensures var s := Run(projects, steps, cfg);
            var l := s.lanes[p];
            var h := l.hosted.value;
            && (!s.shared.up ==> s.shared.restartArmed)
            && (s.shared.up ==> Serves(l, h.generation) || Opening(l, h.generation))
            && (Serves(l, h.generation) && l.subscription.value.queue.queued != [] ==>
                  |Outstanding(l, h)| + |AcksFor(h.generation, l.toWorker)| == 1)
  {
    EveryRunKeepsTheInvariant(projects, steps, cfg);
    var s := Run(projects, steps, cfg);
    var l := s.lanes[p];
    assert LaneInv(l, s.shared, cfg.maxEvents);
    if Serves(l, l.hosted.value.generation) {
      var h := l.hosted.value;
      assert |SeqNos(Outstanding(l, h)) + AcksFor(h.generation, l.toWorker)| == |Tokens(l.subscription.value.queue)|;
    }
  }
}
