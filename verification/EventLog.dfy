/**
  The server's bounded event ring (`EventLog`) and the long-poll replies read from it: where the
  contiguous pages of the change stream come from, and exactly when a reply is one.
 */
module EventLog {
  import opened Options
  import opened Deliveries

  const EVENT_LOG_CAP: nat := 512

  /** The cursors `first .. last` as events. */
  function Span(first: nat, last: int): seq<Event>
    decreases last - first
  {
    if last < first then [] else Span(first, last - 1) + [Stamped(last)]
  }

  lemma {:induction false} SpanStamps(first: nat, last: int)
    ensures |Stamps(Span(first, last))| == Max(0, last - first + 1)
    ensures forall i :: 0 <= i < |Stamps(Span(first, last))| ==> Stamps(Span(first, last))[i] == first + i
    decreases last - first
  {
    if last >= first {
      SpanStamps(first, last - 1);
      StampsAppend(Span(first, last - 1), [Stamped(last)]);
      StampsOne(Stamped(last));
    }
  }

  class EventRing {
    /** The last sequence number assigned; 0 when nothing was recorded. */
    var seqNo: nat
    /** The cursors still held, oldest first. */
    var ring: seq<nat>

    /** The ring is the newest events without a hole, as many as the capacity allows. */
    ghost predicate Valid()
      reads this
    {
      && |ring| == Min(seqNo, EVENT_LOG_CAP)
      && forall i :: 0 <= i < |ring| ==> ring[i] == seqNo - |ring| + 1 + i
    }

    constructor ()
      ensures Valid() && seqNo == 0
    {
      seqNo, ring := 0, [];
    }

    method Record() returns (event: Event)
      requires Valid()
      modifies this
      ensures Valid() && seqNo == old(seqNo) + 1 && event == Stamped(seqNo)
    {
      seqNo := seqNo + 1;
      event := Stamped(seqNo);
      ring := ring + [seqNo];
      while |ring| > EVENT_LOG_CAP
        invariant seqNo == old(seqNo) + 1 && event == Stamped(seqNo)
        invariant Min(seqNo, EVENT_LOG_CAP) <= |ring| <= seqNo
        invariant forall i :: 0 <= i < |ring| ==> ring[i] == seqNo - |ring| + 1 + i
      {
        ring := ring[1..];
      }
    }

    /**
      The backlog after `since`: every retained event past it, and `overflow` exactly when some
      event past it is no longer retained.
     */
    method Since(since: nat) returns (events: seq<Event>, overflow: bool)
      requires Valid()
      ensures events == Span(Max(since, seqNo - |ring|) + 1, seqNo)
      ensures overflow <==> exists k: nat :: since < k <= seqNo && k !in ring
    {
      overflow := |ring| > 0 && since + 1 < ring[0];
      if overflow {
        assert since < since + 1 <= seqNo && since + 1 !in ring;
      } else {
        forall k: nat | since < k <= seqNo ensures k in ring {
          assert ring[k - 1 - (seqNo - |ring|)] == k;
        }
      }
      events := [];
      for i := 0 to |ring|
        invariant events == Span(Max(since, seqNo - |ring|) + 1, seqNo - |ring| + i)
      {
        if ring[i] > since {
          events := events + [Stamped(ring[i])];
        }
      }
    }

    /** The backlog is a function of the log's length. */
    method Backlog(since: nat) returns (page: Page)
      requires Valid()
      ensures page == BacklogAt(seqNo, since)
    {
      var events, overflow := Since(since);
      page := Page(seqNo, events, overflow);
      assert overflow <==> since < seqNo - |ring| by {
        if since < seqNo - |ring| {
          assert since < since + 1 <= seqNo && since + 1 !in ring;
        }
        if overflow {
          var k: nat :| since < k <= seqNo && k !in ring;
          assert k > seqNo - |ring| ==> ring[k - 1 - (seqNo - |ring|)] == k;
        }
      }
    }

    /** A poll is answered at once exactly when something past `since` was recorded; else it waits. */
    method AnswerAtOnce(since: nat) returns (page: Option<Page>)
      requires Valid()
      ensures page == if since < seqNo then Some(BacklogAt(seqNo, since)) else None
    {
      var reply := Backlog(since);
      SpanLength(Max(since, seqNo - Min(seqNo, EVENT_LOG_CAP)) + 1, seqNo);
      page := if reply.overflow || |reply.events| > 0 then Some(reply) else None;
    }
  }

  lemma {:induction false} SpanLength(first: nat, last: int)
    ensures |Span(first, last)| == Max(0, last - first + 1)
    decreases last - first
  {
    if last >= first {
      SpanLength(first, last - 1);
    }
  }

  /** What the log holds past `since` when `head` events were recorded. */
  function BacklogAt(head: nat, since: nat): Page {
    var kept := Min(head, EVENT_LOG_CAP);
    Page(head, Span(Max(since, head - kept) + 1, head), since < head - kept)
  }

  /** A backlog continues the stream from `since` exactly when `since` is not ahead of the log. */
  lemma BacklogFollows(head: nat, since: nat)
    ensures PageFollows(Some(since), BacklogAt(head, since)) <==> since <= head
  {
    var page := BacklogAt(head, since);
    var first := Max(since, head - Min(head, EVENT_LOG_CAP)) + 1;
    SpanStamps(first, head);
    if !page.overflow {
      forall k: nat | since < k <= head ensures k in Stamps(page.events) {
        assert Stamps(page.events)[k - first] == k;
      }
    }
  }

  // ---- replies after a wait -----------------------------------------------------------------------

  /** How the wait of a poll that was caught up ended. */
  datatype Wait = Woken | Lagged | TimedOut

  /** The reply made when `head` events are recorded at the end of the wait. */
  function AfterWait(head: nat, since: nat, wait: Wait): Page {
    match wait
    case Woken => BacklogAt(head, since)
    case Lagged => Page(head, [], true)
    case TimedOut => Page(head, [], false)
  }

  /**
    A reply made after the wait continues the stream exactly when the caller is not ahead of the log,
    as one from an earlier server run can be, and no timed-out wait raced a record: an event recorded
    between the wait's end and the read of the cursor is skipped without a trace.
   */
  lemma AfterWaitFollows(head: nat, since: nat, wait: Wait)
    ensures PageFollows(Some(since), AfterWait(head, since, wait)) <==> since <= head && (wait.TimedOut? ==> head == since)
  {
    match wait
    case Woken => BacklogFollows(head, since);
    case Lagged =>
    case TimedOut =>
      if since < head {
        assert since + 1 !in Stamps(AfterWait(head, since, wait).events);
      }
  }
}
