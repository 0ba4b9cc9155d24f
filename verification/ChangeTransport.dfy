/**
  The transport behind a subscription: a replay cursor advanced by long polls and by socket events,
  over the server's event log. Everything it hands on is one contiguous stream exactly when no
  timed-out poll raced a record.
 */
module ChangeTransport {
  import opened Options
  import opened Deliveries
  import opened EventLog

  // ---- the client's side --------------------------------------------------------------------------

  /** The transport's own variables, and what it gave its sink. */
  datatype Client = Client(cursor: Option<nat>, reconnecting: bool, emitted: seq<Delivery>)

  function Hand(c: Client, d: Delivery): Client {
    c.(emitted := c.emitted + [d])
  }

  /** The reply to a poll without a cursor: a resync, and after an outage a forced empty page. */
  function Greeted(c: Client, head: nat): Client {
    var resynced := Hand(c.(cursor := Some(head)), Resync(if c.reconnecting then Reconnect else Initial, head));
    if c.reconnecting then Hand(resynced.(reconnecting := false), Deliver(Page(head, [], false), true)) else resynced
  }

  /** A page of a replay, catch-up or long poll. */
  function Replayed(c: Client, page: Page): Client {
    Hand(c.(cursor := Some(page.cursor)), Deliver(page, false))
  }

  /** An event from the socket: the next one is handed on, an older one ignored, a later one is a gap. */
  function Accepted(c: Client, event: Event): Client
    requires c.cursor.Some?
  {
    match event
    case Announcement(_) => Hand(c, Deliver(Page(c.cursor.value, [event], false), false))
    case Stamped(k) =>
      if k == c.cursor.value + 1 then Hand(c.(cursor := Some(k)), Deliver(Page(k, [event], false), false)) else c
  }

  predicate IsGap(c: Client, event: Event)
    requires c.cursor.Some?
  {
    event.Stamped? && event.cursor > c.cursor.value + 1
  }

  class ProjectChangeTransport {
    var cursor: Option<nat>
    var reconnecting: bool
    var emitted: seq<Delivery>

    ghost function View(): Client
      reads this
    {
      Client(cursor, reconnecting, emitted)
    }

    /** `resume` is given by an owner that takes a stream over. */
    constructor (resume: Option<Option<nat>>)
      ensures View() == Client(if resume.Some? then resume.value else None, resume.Some?, [])
    {
      cursor := if resume.Some? then resume.value else None;
      reconnecting := resume.Some?;
      emitted := [];
    }

    method OnHandshake(head: nat)
      modifies this
      ensures View() == Greeted(old(View()), head)
    {
      cursor := Some(head);
      emitted := emitted + [Resync(if reconnecting then Reconnect else Initial, head)];
      if reconnecting {
        emitted := emitted + [Deliver(Page(head, [], false), true)];
      }
      reconnecting := false;
    }

    method OnPage(page: Page)
      modifies this
      ensures View() == Replayed(old(View()), page)
    {
      cursor := Some(page.cursor);
      emitted := emitted + [Deliver(page, false)];
    }

    /** `gap` says that the socket is given up and its events are replayed by a poll. */
    method OnSocketEvent(event: Event) returns (gap: bool)
      requires cursor.Some?
      modifies this
      ensures View() == Accepted(old(View()), event)
      ensures gap <==> IsGap(old(View()), event)
    {
      gap := false;
      match event {
        case Announcement(_) =>
          emitted := emitted + [Deliver(Page(cursor.value, [event], false), false)];
        case Stamped(k) =>
          if k <= cursor.value {
            return;
          }
          if k != cursor.value + 1 {
            return true;
          }
          cursor := Some(k);
          emitted := emitted + [Deliver(Page(k, [event], false), false)];
      }
    }

    method OnPollFailed()
      modifies this
      ensures View() == old(View()).(cursor := None, reconnecting := true)
    {
      cursor, reconnecting := None, true;
    }
  }

  // ---- with the server --------------------------------------------------------------------------------

  /** The one poll under way: the cursor it asked with, and the log's length when the server read it. */
  datatype Asked = Asked(since: Option<nat>, read: Option<nat>)

  /** `head` is the number of events recorded; `raced` whether a timed-out reply ever skipped one. */
  datatype Link = Link(head: nat, client: Client, asked: Option<Asked>, raced: bool)

  datatype Step =
    | Recorded
    | PollSent
    | PollRead
    | PollReplies(wait: Wait)
    | PollFails
    | CatchUpFails
    | SocketSays(event: Event)
    | SocketLost

  /** The server's reply to a poll that found `read` events recorded and ends now. */
  function ReplyTo(since: nat, read: nat, head: nat, wait: Wait): Page {
    if since < read then BacklogAt(read, since) else AfterWait(head, since, wait)
  }

  /** The wait timed out and an event was recorded before the cursor was read. */
  predicate Races(since: nat, read: nat, head: nat, wait: Wait) {
    since >= read && wait.TimedOut? && since < head
  }

  function Answer(l: Link, wait: Wait): Link
    requires l.asked.Some? && l.asked.value.read.Some?
  {
    var since, read, done := l.asked.value.since, l.asked.value.read.value, l.(asked := None);
    match since
    case None => done.(client := Greeted(l.client, read))
    case Some(c) =>
      done.(client := Replayed(l.client, ReplyTo(c, read, l.head, wait)), raced := l.raced || Races(c, read, l.head, wait))
  }

  function Next(l: Link, step: Step): Link {
    match step
    case Recorded => l.(head := l.head + 1)
    case PollSent => if l.asked.None? then l.(asked := Some(Asked(l.client.cursor, None))) else l
    case PollRead =>
      if l.asked.Some? && l.asked.value.read.None? then l.(asked := Some(l.asked.value.(read := Some(l.head)))) else l
    case PollReplies(wait) => if l.asked.Some? && l.asked.value.read.Some? then Answer(l, wait) else l
    case PollFails =>
      if l.asked.Some? then l.(asked := None, client := l.client.(cursor := None, reconnecting := true)) else l
    case CatchUpFails => if l.asked.Some? then l.(asked := None, client := l.client.(reconnecting := true)) else l
    case SocketSays(event) =>
      if l.asked.None? && l.client.cursor.Some? && (event.Stamped? ==> event.cursor <= l.head)
      then l.(client := Accepted(l.client, event)) else l
    case SocketLost => l.(client := l.client.(reconnecting := true))
  }

  function Run(l: Link, steps: seq<Step>): Link {
    if steps == [] then l else Next(Run(l, steps[..|steps| - 1]), steps[|steps| - 1])
  }

  /** A transport that starts, or takes over from `resume`, on a log of `head` events. */
  function Fresh(head: nat, resume: Option<nat>, reconnecting: bool): Link {
    Link(head, Client(resume, reconnecting, []), None, false)
  }

  // ---- one contiguous stream ----------------------------------------------------------------------------

  /** Where the stream handed on so far ends. */
  function End(resume: Option<nat>, l: Link): Option<nat> {
    EndOf(resume, l.client.emitted)
  }

  ghost predicate Inv(resume: Option<nat>, l: Link) {
    && OrZero(End(resume, l)) <= l.head
    && (l.client.cursor.Some? ==> End(resume, l) == l.client.cursor)
    && (l.asked.Some? ==>
          && l.asked.value.since == l.client.cursor
          && (l.asked.value.read.Some? ==> OrZero(End(resume, l)) <= l.asked.value.read.value <= l.head))
    && (Chain(resume, l.client.emitted) <==> !l.raced)
  }

  lemma HandOn(resume: Option<nat>, c: Client, d: Delivery)
    ensures Chain(resume, Hand(c, d).emitted) <==> Chain(resume, c.emitted) && Follows(EndOf(resume, c.emitted), d)
    ensures EndOf(resume, Hand(c, d).emitted) == Some(CursorOf(d))
  {
    hide Follows;
    ChainSplit(resume, c.emitted, [d]);
    assert [d][1..] == [];
  }

  lemma ReplyFollows(since: nat, read: nat, head: nat, wait: Wait)
    requires since <= read <= head
    ensures var page := ReplyTo(since, read, head, wait);
            (PageFollows(Some(since), page) <==> !Races(since, read, head, wait)) && page.cursor <= head
  {
    hide PageFollows;
    BacklogFollows(read, since);
    AfterWaitFollows(head, since, wait);
  }

  lemma OneEventFollows(c: nat, event: Event)
    requires event.Stamped? ==> event.cursor == c + 1
    ensures PageFollows(Some(c), Page(if event.Stamped? then c + 1 else c, [event], false))
  {
    StampsOne(event);
  }

  lemma EmptyPageFollows(c: nat)
    ensures PageFollows(Some(c), Page(c, [], false))
  {
  }

  lemma AnswerKeeps(resume: Option<nat>, l: Link, wait: Wait)
    requires Inv(resume, l) && l.asked.Some? && l.asked.value.read.Some?
    ensures Inv(resume, Answer(l, wait))
  {
    hide PageFollows, ReplyTo, Races, Chain, EndOf;
    var since, read, c := l.asked.value.since, l.asked.value.read.value, l.client;
    match since
    case None =>
      var resync := Resync(if c.reconnecting then Reconnect else Initial, read);
      var resynced := Hand(c.(cursor := Some(read)), resync);
      HandOn(resume, c.(cursor := Some(read)), resync);
      EmptyPageFollows(read);
      HandOn(resume, resynced.(reconnecting := false), Deliver(Page(read, [], false), true));
    case Some(k) =>
      var page := ReplyTo(k, read, l.head, wait);
      ReplyFollows(k, read, l.head, wait);
      HandOn(resume, c.(cursor := Some(page.cursor)), Deliver(page, false));
  }

  lemma SocketKeeps(resume: Option<nat>, l: Link, event: Event)
    requires Inv(resume, l)
    ensures Inv(resume, Next(l, SocketSays(event)))
  {
    hide PageFollows, Chain, EndOf;
    var c, l' := l.client, Next(l, SocketSays(event));
    if l'.client != c {
      var k := if event.Stamped? then event.cursor else c.cursor.value;
      OneEventFollows(c.cursor.value, event);
      HandOn(resume, c.(cursor := Some(k)), Deliver(Page(k, [event], false), false));
    }
  }

  lemma StepKeeps(resume: Option<nat>, l: Link, step: Step)
    requires Inv(resume, l)
    ensures Inv(resume, Next(l, step))
  {
    hide Chain, EndOf, Answer, Accepted;
    match step
    case PollReplies(wait) =>
      if l.asked.Some? && l.asked.value.read.Some? {
        AnswerKeeps(resume, l, wait);
      }
    case SocketSays(event) => SocketKeeps(resume, l, event);
    case _ =>
  }

  /**
    Over every run of polls that read, wait, reply or fail, socket events in any order and lost
    sockets, what the transport hands on is one stream without a hole from where it resumed, exactly
    when no timed-out reply raced a record; and it never runs ahead of the log.
   */
  lemma {:induction false} OneStreamUnlessRaced(head: nat, resume: Option<nat>, reconnecting: bool, steps: seq<Step>)
    requires OrZero(resume) <= head
    ensures var l := Run(Fresh(head, resume, reconnecting), steps);
            && Inv(resume, l)
            && (Chain(resume, l.client.emitted) <==> !l.raced)
            && OrZero(EndOf(resume, l.client.emitted)) <= l.head
  {
    hide Next;
    if steps != [] {
      hide Inv;
      OneStreamUnlessRaced(head, resume, reconnecting, steps[..|steps| - 1]);
      StepKeeps(resume, Run(Fresh(head, resume, reconnecting), steps[..|steps| - 1]), steps[|steps| - 1]);
      InvMeans(resume, Run(Fresh(head, resume, reconnecting), steps));
    }
  }

  lemma InvMeans(resume: Option<nat>, l: Link)
    requires Inv(resume, l)
    ensures (Chain(resume, l.client.emitted) <==> !l.raced) && OrZero(EndOf(resume, l.client.emitted)) <= l.head
  {
    hide Chain;
  }

  /** The race happens: one event recorded while the first poll waits, and its timed-out reply skips it. */
  lemma RaceSkipsAnEvent()
    ensures var l := Run(Fresh(0, Some(0), false), [PollSent, PollRead, Recorded, PollReplies(TimedOut)]);
            l.raced && l.client.emitted == [Deliver(Page(1, [], false), false)] && !Chain(Some(0), l.client.emitted)
  {
    var s1, s2, s3 := [PollSent], [PollSent, PollRead], [PollSent, PollRead, Recorded];
    var all := [PollSent, PollRead, Recorded, PollReplies(TimedOut)];
    assert s1[..0] == [] && s2[..1] == s1 && s3[..2] == s2 && all[..3] == s3;
    var start := Fresh(0, Some(0), false);
    assert Run(start, s1) == Next(start, PollSent);
    assert Run(start, s2) == Next(Run(start, s1), PollRead);
    assert Run(start, s3) == Link(1, Client(Some(0), false, []), Some(Asked(Some(0), Some(0))), false);
    OneStreamUnlessRaced(0, Some(0), false, all);
  }

  // ---- nothing is held back ---------------------------------------------------------------------------

  /** The socket says the `n` events after `c`, and what each of them is handed on as. */
  function Said(c: nat, n: nat): (r: seq<Step>)
    ensures |r| == n
  {
    if n == 0 then [] else Said(c, n - 1) + [SocketSays(Stamped(c + n))]
  }

  function OneByOne(c: nat, n: nat): seq<Delivery> {
    if n == 0 then [] else OneByOne(c, n - 1) + [Deliver(Page(c + n, [Stamped(c + n)], false), false)]
  }

  /** A live socket that says the recorded events in order: each is handed on at once, alone, and the cursor keeps up. */
  lemma {:induction false} LiveEventsAreHandedOn(l: Link, n: nat)
    requires l.asked.None? && l.client.cursor.Some? && l.client.cursor.value + n <= l.head
    ensures var c := l.client.cursor.value;
            Run(l, Said(c, n)) == l.(client := l.client.(cursor := Some(c + n), emitted := l.client.emitted + OneByOne(c, n)))
  {
    hide Next, Said, OneByOne;
    var c := l.client.cursor.value;
    OneMoreSaid(l, c, n);
    if n > 0 {
      LiveEventsAreHandedOn(l, n - 1);
      NextEventHandedOn(Run(l, Said(c, n - 1)), c + n - 1);
      assert l.client.emitted + OneByOne(c, n - 1) + [Deliver(Page(c + n, [Stamped(c + n)], false), false)] == l.client.emitted + OneByOne(c, n);
    } else {
      assert l.client.emitted + [] == l.client.emitted;
    }
  }

  lemma OneMoreSaid(l: Link, c: nat, n: nat)
    ensures n == 0 ==> Run(l, Said(c, n)) == l && OneByOne(c, n) == []
    ensures n > 0 ==> Run(l, Said(c, n)) == Next(Run(l, Said(c, n - 1)), SocketSays(Stamped(c + n)))
    ensures n > 0 ==> OneByOne(c, n) == OneByOne(c, n - 1) + [Deliver(Page(c + n, [Stamped(c + n)], false), false)]
  {
    hide Next;
    if n > 0 {
      assert Said(c, n)[..n - 1] == Said(c, n - 1);
    }
  }

  lemma NextEventHandedOn(l: Link, c: nat)
    requires l.asked.None? && l.client.cursor == Some(c) && c < l.head
    ensures Next(l, SocketSays(Stamped(c + 1)))
         == l.(client := l.client.(cursor := Some(c + 1), emitted := l.client.emitted + [Deliver(Page(c + 1, [Stamped(c + 1)], false), false)]))
  {
  }

  /** Any other socket event: an announcement is handed on at the cursor, a repeated or later event not at all. */
  lemma OtherSocketEvents(l: Link, event: Event)
    requires l.asked.None? && l.client.cursor.Some? && event != Stamped(l.client.cursor.value + 1)
    ensures var told := if event.Announcement? then [Deliver(Page(l.client.cursor.value, [event], false), false)] else [];
            Next(l, SocketSays(event)) == l.(client := l.client.(emitted := l.client.emitted + told))
  {
    assert l.client.emitted + [] == l.client.emitted;
  }

  /** One poll: sent, read by the server and replied to, with nothing in between. */
  function Polled(l: Link, wait: Wait): Link {
    Next(Next(Next(l, PollSent), PollRead), PollReplies(wait))
  }

  /**
    One poll brings a transport with a cursor up to the log: it hands on one page, up to the newest
    event, and that page lacks an event past the old cursor exactly when it says so: the log had
    dropped one.
   */
  lemma OnePollCatchesUp(resume: Option<nat>, l: Link, wait: Wait)
    requires Inv(resume, l) && l.asked.None? && l.client.cursor.Some?
    ensures var c, r := l.client.cursor.value, Polled(l, wait);
            && r.client.cursor == Some(l.head) && r.client.reconnecting == l.client.reconnecting && r.raced == l.raced
            && exists page :: r.client.emitted == l.client.emitted + [Deliver(page, false)] && CatchesUp(page, c, l.head, wait)
  {
    hide PageFollows, Chain, EndOf, BacklogAt;
    var c, r := l.client.cursor.value, Polled(l, wait);
    var page := ReplyTo(c, l.head, l.head, wait);
    assert r.client.emitted == l.client.emitted + [Deliver(page, false)];
    ReplyCatchesUp(c, l.head, wait);
  }

  lemma ReplyCatchesUp(since: nat, head: nat, wait: Wait)
    requires since <= head
    ensures CatchesUp(ReplyTo(since, head, head, wait), since, head, wait) && ReplyTo(since, head, head, wait).cursor == head
  {
    hide BacklogAt;
    var page := ReplyTo(since, head, head, wait);
    BacklogCatchesUp(since, head);
    if page != BacklogAt(head, since) {
      assert page.events == [] && Stamps(page.events) == [];
      assert since == head;
    }
  }

  ghost predicate CatchesUp(page: Page, since: nat, head: nat, wait: Wait) {
    && page.cursor == head
    && (page.overflow <==> since + EVENT_LOG_CAP < head || (since == head && wait.Lagged?))
    && (forall k: nat :: k in Stamps(page.events) ==> since < k <= head)
    && (Covers(page, since, head) <==> since + EVENT_LOG_CAP >= head)
  }

  /** The page holds every event past `since`. */
  ghost predicate Covers(page: Page, since: nat, head: nat) {
    forall k: nat :: since < k <= head ==> k in Stamps(page.events)
  }

  lemma BacklogCatchesUp(since: nat, head: nat)
    requires since <= head
    ensures CatchesUp(BacklogAt(head, since), since, head, Woken)
  {
    var page := BacklogAt(head, since);
    var first := Max(since, head - Min(head, EVENT_LOG_CAP)) + 1;
    SpanStamps(first, head);
    forall k: nat | first <= k <= head ensures k in Stamps(page.events) {
      assert Stamps(page.events)[k - first] == k;
    }
    if since + EVENT_LOG_CAP < head {
      assert since + 1 !in Stamps(page.events);
    }
  }

  /** A poll without a cursor, as the first one and the one after an outage: the consumer is told to reload, and why. */
  function Greeting(reconnecting: bool, head: nat): seq<Delivery> {
    if reconnecting then [Resync(Reconnect, head), Deliver(Page(head, [], false), true)] else [Resync(Initial, head)]
  }

  lemma HandshakeTells(l: Link, wait: Wait)
    requires l.asked.None? && l.client.cursor.None?
    ensures Polled(l, wait) == l.(client := Client(Some(l.head), false, l.client.emitted + Greeting(l.client.reconnecting, l.head)))
  {
    var e := l.client.emitted;
    assert e + [Resync(Reconnect, l.head)] + [Deliver(Page(l.head, [], false), true)] == e + Greeting(true, l.head);
  }

  /**
    A failed poll loses no change: whatever was recorded before or meanwhile, the next poll that
    succeeds makes the consumer reload at a cursor that covers it.
   */
  lemma OutageForcesARefresh(l: Link, missed: nat, wait: Wait)
    requires l.asked.Some?
    ensures var down := Next(l, PollFails);
            var later := down.(head := down.head + missed);
            Polled(later, wait) == later.(client := Client(Some(l.head + missed), false,
              l.client.emitted + [Resync(Reconnect, l.head + missed), Deliver(Page(l.head + missed, [], false), true)]))
  {
    var down := Next(l, PollFails);
    HandshakeTells(down.(head := down.head + missed), wait);
  }
}
