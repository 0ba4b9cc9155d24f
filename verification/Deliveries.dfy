/**
  What crosses the boundary between the change-stream worker and the page: event pages and
  resync notices, and what it means for a list of them to carry a project's stream on from a
  replay cursor without a hole.
 */
module Deliveries {
  import opened Options

  /** Within one server run a cursor names one recorded event; announcements carry none. */
  datatype Event = Stamped(cursor: nat) | Announcement(text: string)

  datatype Page = Page(cursor: nat, events: seq<Event>, overflow: bool)

  datatype Reason = Initial | Reconnect | Overflowed

  datatype Delivery = Resync(reason: Reason, at: nat) | Deliver(response: Page, force: bool)

  function CursorOf(d: Delivery): nat {
    match d
    case Resync(_, at) => at
    case Deliver(response, _) => response.cursor
  }

  function EventsOf(d: Delivery): seq<Event> {
    match d
    case Resync(_, _) => []
    case Deliver(response, _) => response.events
  }

  /** The cursors of the recorded events in a page, in page order. */
  function Stamps(events: seq<Event>): seq<nat> {
    if events == [] then []
    else if events[0].Stamped? then [events[0].cursor] + Stamps(events[1..])
    else Stamps(events[1..])
  }

  lemma {:induction false} StampsAppend(a: seq<Event>, b: seq<Event>)
    ensures Stamps(a + b) == Stamps(a) + Stamps(b)
  {
    if a == [] {
      assert a + b == b;
    } else {
      assert (a + b)[1..] == a[1..] + b;
      StampsAppend(a[1..], b);
    }
  }

  lemma StampsOne(e: Event)
    ensures Stamps([e]) == if e.Stamped? then [e.cursor] else []
  {
    assert [e][1..] == [];
  }

  /** Strictly increasing, and inside the half-open span (lo, hi]. */
  ghost predicate Increasing(cs: seq<nat>, lo: nat, hi: nat) {
    && (forall i :: 0 <= i < |cs| ==> lo < cs[i] <= hi)
    && (forall i, j :: 0 <= i < j < |cs| ==> cs[i] < cs[j])
  }

  lemma IncreasingCons(c: nat, rest: seq<nat>, lo: nat, hi: nat)
    ensures Increasing([c] + rest, lo, hi) <==> lo < c <= hi && Increasing(rest, c, hi)
  {
    var all := [c] + rest;
    assert all[0] == c;
    assert forall i :: 0 <= i < |rest| ==> rest[i] == all[i + 1];
    if lo < c <= hi && Increasing(rest, c, hi) {
      assert forall i :: 0 < i < |all| ==> all[i] == rest[i - 1];
    }
  }

  lemma IncreasingAppend(a: seq<nat>, b: seq<nat>, lo: nat, mid: nat, hi: nat)
    requires Increasing(a, lo, mid) && Increasing(b, mid, hi) && lo <= mid <= hi
    ensures Increasing(a + b, lo, hi)
  {
  }

  function OrZero(position: Option<nat>): nat {
    if position.Some? then position.value else 0
  }

  /**
    A page that carries the stream on from `from`: its recorded events are new, in order and at
    most the page cursor, and unless it says that events were lost it misses none of them. Only
    an overflow page can follow an unknown position.
   */
  ghost predicate PageFollows(from: Option<nat>, p: Page) {
    && OrZero(from) <= p.cursor
    && Increasing(Stamps(p.events), OrZero(from), p.cursor)
    && (!p.overflow ==>
          from.Some? && forall k :: from.value < k <= p.cursor ==> k in Stamps(p.events))
  }

  ghost predicate Follows(from: Option<nat>, d: Delivery) {
    match d
    case Resync(_, at) => OrZero(from) <= at
    case Deliver(response, _) => PageFollows(from, response)
  }

  ghost predicate Chain(from: Option<nat>, ds: seq<Delivery>)
    decreases |ds|
  {
    ds == [] || (Follows(from, ds[0]) && Chain(Some(CursorOf(ds[0])), ds[1..]))
  }

  function EndOf(from: Option<nat>, ds: seq<Delivery>): Option<nat> {
    if ds == [] then from else Some(CursorOf(ds[|ds| - 1]))
  }

  lemma {:induction false} ChainSplit(from: Option<nat>, a: seq<Delivery>, b: seq<Delivery>)
    ensures Chain(from, a + b) <==> Chain(from, a) && Chain(EndOf(from, a), b)
    ensures EndOf(from, a + b) == EndOf(EndOf(from, a), b)
    decreases |a|
  {
    if a == [] {
      assert a + b == b;
    } else {
      assert (a + b)[1..] == a[1..] + b;
      ChainSplit(Some(CursorOf(a[0])), a[1..], b);
    }
  }

  /** Along a chain the cursors never go back, so every one of them is at most the last. */
  lemma {:induction false} ChainCursors(from: Option<nat>, ds: seq<Delivery>)
    requires Chain(from, ds)
    ensures OrZero(from) <= OrZero(EndOf(from, ds))
    ensures forall i :: 0 <= i < |ds| ==> CursorOf(ds[i]) <= OrZero(EndOf(from, ds))
    decreases |ds|
  {
    if ds != [] {
      var rest := ds[1..];
      ChainCursors(Some(CursorOf(ds[0])), rest);
      forall i | 0 <= i < |ds| ensures CursorOf(ds[i]) <= OrZero(EndOf(from, ds)) {
        if i > 0 {
          assert ds[i] == rest[i - 1];
        }
      }
    }
  }

  /** Joining two adjacent pages: later cursor, either overflow, events in order. */
  function Joined(p: Page, q: Page): Page {
    Page(q.cursor, p.events + q.events, p.overflow || q.overflow)
  }

  lemma JoinedFollows(from: Option<nat>, p: Page, q: Page)
    requires PageFollows(from, p) && PageFollows(Some(p.cursor), q)
    ensures PageFollows(from, Joined(p, q))
  {
    StampsAppend(p.events, q.events);
    var a, b := Stamps(p.events), Stamps(q.events);
    IncreasingAppend(a, b, OrZero(from), p.cursor, q.cursor);
    forall k | !Joined(p, q).overflow && from.Some? && from.value < k <= q.cursor ensures k in a + b {
      if k > p.cursor {
        assert k in b;
      }
    }
  }
}
