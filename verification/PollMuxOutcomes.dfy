/**
  How each poll of the multiplexer ends: which outcome an answer, a failure, a direct reply, a newer
  poll or an abort gives to which poll, and which polls are left waiting.
 */
module PollMuxOutcomes {
  import opened Options
  import opened Deliveries
  import opened PollMux
  import opened PollMuxSafety

  /** What the first result for `key` says. */
  function ResultFor(rs: seq<Result>, key: string): Option<Outcome> {
    if rs == [] then None
    else
      var before, last := ResultFor(rs[..|rs| - 1], key), rs[|rs| - 1];
      if before.Some? then before else if last.key == key then Some(last.outcome) else None
  }

  /** `e` was pending in `m` and got `outcome` on the way to `m'`. */
  ghost predicate Got(m: Mux, m': Mux, e: Entry, outcome: Outcome) {
    && e !in m'.pending && |m.settled| < |m'.settled| && m.settled <= m'.settled
    && Settlement(e, outcome) in m'.settled[|m.settled|..]
  }

  lemma {:induction false} FindOwnKey(es: seq<Entry>, e: Entry)
    requires Distinct(es) && e in es
    ensures FindKey(es, e.key) == Some(e)
  {
    if es[0] != e {
      assert es == [es[0]] + es[1..];
      DistinctCons(es[0], es[1..]);
      FindOwnKey(es[1..], e);
    }
  }

  lemma {:induction false} SettledGrows(m: Mux, members: seq<Entry>, rs: seq<Result>)
    ensures m.settled <= SettleResults(m, members, rs).settled
  {
    if rs != [] {
      SettledGrows(m, members, rs[..|rs| - 1]);
    }
  }

  lemma {:induction false} ResultsSettle(m: Mux, members: seq<Entry>, rs: seq<Result>, e: Entry)
    requires Accounted(m) && Distinct(members) && e in members && e in m.pending
    ensures var m', result := SettleResults(m, members, rs), ResultFor(rs, e.key);
            if result.Some? then Got(m, m', e, result.value) else e in m'.pending
  {
    hide Accounted;
    if rs != [] {
      var front, r := rs[..|rs| - 1], rs[|rs| - 1];
      var mid, m' := SettleResults(m, members, front), SettleResults(m, members, rs);
      ResultsSettle(m, members, front, e);
      SettleResultsKeeps(m, members, front);
      SettledGrows(m, members, front);
      FindKeyFinds(members, r.key);
      FindOwnKey(members, e);
      var entry := FindKey(members, r.key);
      if entry.Some? && entry.value in mid.pending {
        SettleKeeps(mid, entry.value, r.outcome);
        var s := Settlement(entry.value, r.outcome);
        assert m'.settled == mid.settled + [s];
        assert m'.settled[|m.settled|..] == mid.settled[|m.settled|..] + [s];
        assert m'.settled[|mid.settled|] == s;
      }
    } else {
      assert SettleResults(m, members, rs) == m;
    }
  }

  lemma {:induction false} ResultsLeaveOthers(m: Mux, members: seq<Entry>, rs: seq<Result>, x: Entry)
    requires x in m.pending && x !in members
    ensures x in SettleResults(m, members, rs).pending
  {
    if rs != [] {
      var front, r := rs[..|rs| - 1], rs[|rs| - 1];
      ResultsLeaveOthers(m, members, front, x);
      FindKeyFinds(members, r.key);
      var entry := FindKey(members, r.key);
      if entry.Some? {
        WithoutMembers(SettleResults(m, members, front).pending, entry.value);
      }
    }
  }

  /**
    A shared answer with results settles every poll its request carried that still waits and has a
    result, with the first result for its project; every other pending poll goes on waiting, with a
    flush armed for it.
   */
  lemma AnswerSettlesEveryResult(m: Mux, id: nat, rs: seq<Result>, now: int, e: Entry)
    requires Inv(m) && rs != [] && m.inflight.Some? && m.inflight.value.id == id && e in m.pending
    ensures var m', result := AnswerArrives(m, id, Results(rs), now), ResultFor(rs, e.key);
            && (if e in m.inflight.value.members && result.Some? then Got(m, m', e, result.value) else e in m'.pending)
            && (m'.pending != [] ==> m'.timer) && m'.inflight.None?
  {
    hide Accounted, Slots, Carried, Got;
    var members, idle, m' := m.inflight.value.members, m.(inflight := None), AnswerArrives(m, id, Results(rs), now);
    SameAccounts(m, idle);
    var after := SettleResults(idle, members, rs);
    if e in members {
      ResultsSettle(idle, members, rs, e);
      if ResultFor(rs, e.key).Some? {
        SameGot(idle, after, m, m', e, ResultFor(rs, e.key).value);
      }
    } else {
      ResultsLeaveOthers(idle, members, rs, e);
    }
  }

  lemma SameGot(a: Mux, a': Mux, b: Mux, b': Mux, e: Entry, outcome: Outcome)
    requires Got(a, a', e, outcome) && b.settled == a.settled && b'.settled == a'.settled && b'.pending == a'.pending
    ensures Got(b, b', e, outcome)
  {
  }

  lemma {:induction false} FailSettles(m: Mux, members: seq<Entry>, e: Entry)
    requires Accounted(m) && e in m.pending
    ensures m.settled <= FailAll(m, members).settled
    ensures if e in members then Got(m, FailAll(m, members), e, Rejected(Failed)) else e in FailAll(m, members).pending
  {
    hide Accounted;
    if members != [] {
      var front, last := members[..|members| - 1], members[|members| - 1];
      assert members == front + [last];
      var mid, m' := FailAll(m, front), FailAll(m, members);
      FailSettles(m, front, e);
      FailAllKeeps(m, front);
      if last in mid.pending {
        SettleKeeps(mid, last, Rejected(Failed));
        var s := Settlement(last, Rejected(Failed));
        assert m'.settled == mid.settled + [s];
        assert m'.settled[|m.settled|..] == mid.settled[|m.settled|..] + [s];
        assert m'.settled[|mid.settled|] == s;
      }
    }
  }

  /** A shared request that fails as a whole rejects every poll it carried that still waits, and no other. */
  lemma FailureRejectsEveryMember(m: Mux, id: nat, now: int, e: Entry)
    requires Inv(m) && m.inflight.Some? && m.inflight.value.id == id && e in m.pending
    ensures var m' := AnswerArrives(m, id, Unusable, now);
            && (if e in m.inflight.value.members then Got(m, m', e, Rejected(Failed)) else e in m'.pending)
            && (m'.pending != [] ==> m'.timer) && m'.inflight.None?
  {
    hide Accounted, Slots, Carried, Got;
    var members, idle, m' := m.inflight.value.members, m.(inflight := None), AnswerArrives(m, id, Unusable, now);
    SameAccounts(m, idle);
    FailAllKeeps(idle, members);
    FailSettles(idle, members, e);
    if e in members {
      SameGot(idle, FailAll(idle, members), m, m', e, Rejected(Failed));
    }
  }

  // ---- direct polls ---------------------------------------------------------------------------------

  lemma {:induction false} DrainOnlyStarts(m: Mux, now: int)
    ensures var m' := Drain(m, now); m' == m.(active := m'.active, starts := m'.starts)
    decreases DIRECT_POLL_MAX_IN_FLIGHT - |m.active|
  {
    hide Waiting;
    if m.direct && |m.active| < DIRECT_POLL_MAX_IN_FLIGHT && Waiting(m.pending, m.active) != [] {
      DrainOnlyStarts(StartDirect(m, Waiting(m.pending, m.active)[0], now), now);
    }
  }

  /** The caller's own cursor, nothing new and nothing lost. */
  predicate NothingNew(e: Entry, page: Page) {
    e.since == Some(page.cursor) && page.events == [] && !page.overflow
  }

  /**
    A direct reply ends its poll with exactly the page it brought, or with a failure; only a page with
    nothing new that took at least half of its time, with time left to the deadline, sends the poll to
    the back of the queue instead. A poll that is no longer pending gets nothing.
   */
  lemma DirectReplyEndsItsPoll(m: Mux, i: nat, reply: Reply, now: int)
    requires i < |m.active|
    ensures var r, m' := m.active[i], DirectDone(m, i, reply, now);
            var e := r.entry;
            var again := reply.Answered? && NothingNew(e, reply.page) && r.timeout > 0 && 2 * (now - r.started) >= r.timeout && now < e.deadline;
            && (e !in m.pending ==> m'.settled == m.settled && m'.pending == m.pending)
            && (e in m.pending && again ==> m'.settled == m.settled && m'.pending == Without(m.pending, e) + [e])
            && (e in m.pending && !again ==>
                  && m'.settled == m.settled + [Settlement(e, if reply.Answered? then Resolved(reply.page) else Rejected(Failed))]
                  && m'.pending == Without(m.pending, e))
  {
    hide Drain;
    var r, freed := m.active[i], FreeSlot(m, i);
    var after :=
      if r.entry !in m.pending then freed
      else if reply.Refused? then Settle(freed, r.entry, Rejected(Failed))
      else if Continues(r, reply.page, now) then freed.(pending := Without(freed.pending, r.entry) + [r.entry])
      else Settle(freed, r.entry, Resolved(reply.page));
    DrainOnlyStarts(after, now);
  }

  /** A poll that takes a slot is given a second, or less when its deadline is nearer. */
  lemma StartedWithItsTime(m: Mux, now: int)
    requires Inv(m) && m.direct
    ensures var m' := Drain(m, now);
            && m.active <= m'.active
            && forall i :: |m.active| <= i < |m'.active| ==>
                 var r := m'.active[i]; r.started == now && r.timeout == Min(1000, Max(0, r.entry.deadline - now)) && r.entry in m.pending
  {
    hide Accounted, Slots, Waiting, Drain, SlotsUsed;
    assert Distinct(m.pending) && (forall e :: e in m.pending ==> e.id < m.nextId) by { AccountedMeans(m); }
    var k := DrainEffect(m, now);
    WaitingMembers(m.pending, m.active);
    var w, m' := Waiting(m.pending, m.active), Drain(m, now);
    forall i | |m.active| <= i < |m'.active|
      ensures var r := m'.active[i]; r.started == now && r.timeout == Min(1000, Max(0, r.entry.deadline - now)) && r.entry in m.pending {
      var j := i - |m.active|;
      assert m'.active[|m.active| + j] == Running(w[j], now, TimeoutAt(w[j], now));
      assert w[j] in w;
    }
  }

  lemma AccountedMeans(m: Mux)
    requires Accounted(m)
    ensures Distinct(m.pending) && forall e :: e in m.pending ==> e.id < m.nextId
  {
  }

  // ---- polls, aborts and flushes ----------------------------------------------------------------------

  /** A new poll joins at the back under a new id and rejects the older poll of its project, no other. */
  lemma PollSupersedesOnlyItsOwn(m: Mux, key: string, since: Option<nat>, deadline: int, now: int)
    ensures var m', e, old' := Poll(m, key, since, deadline, now), Entry(m.nextId, key, since, deadline), FindKey(m.pending, key);
            && m'.nextId == m.nextId + 1
            && (old'.None? ==> m'.pending == m.pending + [e] && m'.settled == m.settled)
            && (old'.Some? ==>
                  m'.pending == Without(m.pending, old'.value) + [e] && m'.settled == m.settled + [Settlement(old'.value, Rejected(Superseded))])
            && (!m.direct ==> m'.timer)
  {
    hide Drain;
    var previous := FindKey(m.pending, key);
    var rest := if previous.Some? then Settle(m, previous.value, Rejected(Superseded)) else m;
    DrainOnlyStarts(rest.(pending := rest.pending + [Entry(m.nextId, key, since, deadline)], nextId := m.nextId + 1), now);
  }

  lemma AbortRejectsOnlyItsOwn(m: Mux, e: Entry, now: int)
    ensures var m' := Abort(m, e, now);
            if e in m.pending then m'.pending == Without(m.pending, e) && m'.settled == m.settled + [Settlement(e, Rejected(Aborted))]
            else m' == m
    ensures e in m.pending && !m.direct && m.inflight.Some? && e in m.inflight.value.members ==> Abort(m, e, now).timer
  {
    hide Drain;
    if e in m.pending {
      var rest := Settle(m, e, Rejected(Aborted));
      DrainOnlyStarts(if m.inflight.Some? && e in m.inflight.value.members then Schedule(rest) else rest, now);
    }
  }

  /** A flush keeps a request that carries just the pending polls; otherwise a new one carries them all, or direct mode begins when they are too many. */
  lemma FlushCarriesEveryPendingPoll(m: Mux, now: int)
    requires m.timer && !m.direct
    ensures var m' := TimerFires(m, now);
            && m'.pending == m.pending && m'.settled == m.settled
            && (m.inflight.Some? && SameMembers(m.inflight.value.members, m.pending) ==> m' == m.(timer := false))
            && (!(m.inflight.Some? && SameMembers(m.inflight.value.members, m.pending)) ==>
                  if m.pending == [] then m'.inflight.None? && !m'.direct
                  else if |m.pending| > 64 then m'.direct && m'.inflight.None?
                  else !m'.direct && m'.inflight == Some(Request(m.nextRequest, m.pending)) && m'.nextRequest == m.nextRequest + 1)
  {
    hide Drain, SameMembers;
    DrainOnlyStarts(m.(timer := false, inflight := None, direct := true), now);
  }

  /** An answer without a usable bridge turns to direct polls and settles nobody. */
  lemma UnsupportedGoesDirect(m: Mux, id: nat, answer: Answer, now: int)
    requires m.inflight.Some? && m.inflight.value.id == id && !m.direct && (answer == Unsupported || answer == Results([]))
    ensures var m' := AnswerArrives(m, id, answer, now);
            m'.direct && m'.inflight.None? && !m'.timer && m'.pending == m.pending && m'.settled == m.settled
  {
    hide Drain;
    DrainOnlyStarts(m.(timer := false, inflight := None, direct := true), now);
  }
}
