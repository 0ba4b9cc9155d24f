/**
  What the preference store holds: the last value written to each key, locally at once and durably
  once it is saved; that saving can always be completed; and how a flush and a native close proceed.
 */
module StorageHistory {
  import opened Options
  import opened DesktopStorage

  // ---- the last value -------------------------------------------------------------------------------

  /** `clear` removes what localStorage shows; the enumeration of its keys is complete. */
  ghost predicate Clears(c: Client, keys: seq<Key>) {
    forall k :: k in c.local ==> k in keys
  }

  /** What a page starts with: the bridge's record of the key if it has one, else what the browser kept. */
  function StartValue(local: map<Key, string>, snapshot: map<Key, Option<string>>, k: Key): Option<string> {
    if k in snapshot then snapshot[k] else if k in local then Some(local[k]) else None
  }

  /** The value of the last set, remove or clear of `k` in the run, or the one it started with. */
  ghost function LastValue(start: System, steps: seq<Step>, k: Key): Option<string> {
    if steps == [] then LocalValue(start.client, k)
    else
      var front := steps[..|steps| - 1];
      match steps[|steps| - 1]
      case PageSets(j, value) => if j == k then Some(value) else LastValue(start, front, k)
      case PageRemoves(j) => if j == k then None else LastValue(start, front, k)
      case PageClears(keys) => if Clears(Run(start, front).client, keys) then None else LastValue(start, front, k)
      case _ => LastValue(start, front, k)
  }

  lemma {:induction false} BuryKeepsLocal(c: Client, keys: seq<Key>)
    ensures Bury(c, keys).local == c.local
  {
    hide Tracked;
    if keys != [] {
      BuryKeepsLocal(c, keys[..|keys| - 1]);
    }
  }

  lemma {:induction false} ImportKeepsLocal(c: Client, keys: seq<Key>, known: set<Key>)
    ensures Import(c, keys, known).local == c.local
  {
    hide Tracked;
    if keys != [] {
      ImportKeepsLocal(c, keys[..|keys| - 1], known);
    }
  }

  lemma StartsWith(local: map<Key, string>, snapshot: map<Key, Option<string>>, keys: seq<Key>, k: Key)
    ensures LocalValue(Begin(local, snapshot, keys).client, k) == StartValue(local, snapshot, k)
  {
    ImportKeepsLocal(Client(Hydrated(local, snapshot), map[], 0, {}), keys, snapshot.Keys);
  }

  lemma StepLocal(s: System, step: Step, k: Key)
    ensures LocalValue(Next(s, step).client, k) ==
            match step
            case PageSets(j, value) => if j == k then Some(value) else LocalValue(s.client, k)
            case PageRemoves(j) => if j == k then None else LocalValue(s.client, k)
            case PageClears(keys) => if Clears(s.client, keys) then None else LocalValue(s.client, k)
            case _ => LocalValue(s.client, k)
  {
    hide Tracked;
    if step.PageClears? {
      BuryKeepsLocal(s.client.(local := map[]), step.keys);
    }
  }

  /** Over every run a key's local value is the one last written to it. */
  lemma {:induction false} LocalIsTheLastValue(start: System, steps: seq<Step>, k: Key)
    ensures LocalValue(Run(start, steps).client, k) == LastValue(start, steps, k)
  {
    hide Next, Clears, LocalValue;
    if steps != [] {
      LocalIsTheLastValue(start, steps[..|steps| - 1], k);
      StepLocal(Run(start, steps[..|steps| - 1]), steps[|steps| - 1], k);
    }
  }

  /** And the durable value is that too, for every tracked key with nothing pending. */
  lemma DurableIsTheLastValue(local: map<Key, string>, snapshot: map<Key, Option<string>>, keys: seq<Key>, steps: seq<Step>, k: Key)
    requires Enumerates(keys, Hydrated(local, snapshot)) && Tracked(k)
    ensures var start := Begin(local, snapshot, keys);
            && LastValue(start, [], k) == StartValue(local, snapshot, k)
            && (k !in Run(start, steps).client.pending ==> DurableValue(Run(start, steps), k) == LastValue(start, steps, k))
  {
    hide Begin, Run;
    var start := Begin(local, snapshot, keys);
    StartsWith(local, snapshot, keys, k);
    LocalIsTheLastValue(start, steps, k);
    CacheAgreesWithStore(local, snapshot, keys, steps, k);
  }

  /** A native close that returns leaves the last value of every tracked key durable. */
  lemma NativeCloseSavesTheLastValues(local: map<Key, string>, snapshot: map<Key, Option<string>>, keys: seq<Key>, steps: seq<Step>, k: Key)
    requires Enumerates(keys, Hydrated(local, snapshot)) && Tracked(k) && steps != []
    ensures var start := Begin(local, snapshot, keys);
            var s, s' := Run(start, steps[..|steps| - 1]), Run(start, steps);
            !s.closer.Returned? && s'.closer.Returned? ==> DurableValue(s', k) == LastValue(start, steps, k)
  {
    hide Begin, Run, LastValue;
    LocalIsTheLastValue(Begin(local, snapshot, keys), steps, k);
    NativeCloseLosesNothing(local, snapshot, keys, steps, k);
  }

  // ---- saving can always be completed --------------------------------------------------------------------

  lemma {:induction false} RunsJoin(s: System, a: seq<Step>, b: seq<Step>)
    ensures Run(s, a + b) == Run(Run(s, a), b)
  {
    hide Next;
    if b == [] {
      assert a + b == a;
    } else {
      RunsJoin(s, a, b[..|b| - 1]);
      assert (a + b)[..|a + b| - 1] == a + b[..|b| - 1];
    }
  }

  lemma RunOne(s: System, step: Step)
    ensures Run(s, [step]) == Next(s, step)
  {
    hide Next;
    assert [step][..0] == [];
  }

  /** Writes queued for a key, counting the one under way. */
  function Work(s: System, k: Key): nat {
    2 * |QueueOf(s, k)| + if k in s.writing then 1 else 0
  }

  ghost predicate Answered(s: System, s': System, k: Key) {
    && s'.client == s.client && s.saved <= s'.saved
    && (forall p :: p in QueueOf(s, k) ==> p in s'.saved)
    && (k in s.writing ==> s.writing[k] in s'.saved)
  }

  lemma OneWrite(s: System, k: Key) returns (step: Step)
    requires Work(s, k) > 0
    ensures var s' := Next(s, step);
            && Work(s', k) < Work(s, k) && s'.client == s.client && s.saved <= s'.saved
            && (forall p :: p in QueueOf(s, k) ==> p in QueueOf(s', k) || p in s'.saved || (k in s'.writing && s'.writing[k] == p))
            && (k in s.writing ==> s.writing[k] in s'.saved)
  {
    if k in s.writing {
      step := WriteCommits(k, true);
    } else {
      step := WriteBegins(k);
      var q := QueueOf(s, k);
      assert q == [q[0]] + q[1..];
    }
  }

  /** The bridge can answer every request queued for a key. */
  lemma {:induction false} QueueDrains(s: System, k: Key) returns (steps: seq<Step>)
    ensures Answered(s, Run(s, steps), k)
    decreases Work(s, k)
  {
    steps := [];
    if Work(s, k) > 0 {
      hide Next, Run;
      var step := OneWrite(s, k);
      var rest := QueueDrains(Next(s, step), k);
      steps := [step] + rest;
      RunsJoin(s, [step], rest);
      RunOne(s, step);
    }
  }

  lemma Sends(s: System, k: Key)
    requires k in s.client.pending
    ensures var p := Put(k, s.client.pending[k]);
            var s' := Next(Next(s, CloseSends(k)), RequestArrives(p));
            s'.client == s.client && p in QueueOf(s', k)
  {
    var p := Put(k, s.client.pending[k]);
    var s' := Next(Next(s, CloseSends(k)), RequestArrives(p));
    assert QueueOf(s', k)[|QueueOf(s', k)| - 1] == p;
  }

  lemma Retires(s: System, p: Put)
    requires p in s.saved && p.key in s.client.pending && s.client.pending[p.key] == p.mutation
    ensures Next(s, CloseSaved(p)).client == s.client.(pending := s.client.pending - {p.key})
  {
  }

  /** One pending mutation can be sent, written and retired, whatever else is under way. */
  lemma OneSaved(s: System, k: Key) returns (steps: seq<Step>)
    requires k in s.client.pending
    ensures Run(s, steps).client == s.client.(pending := s.client.pending - {k})
  {
    hide Next, Run;
    var p := Put(k, s.client.pending[k]);
    var first, second := CloseSends(k), RequestArrives(p);
    var sent := Next(Next(s, first), second);
    Sends(s, k);
    var drain := QueueDrains(sent, k);
    var answered := Run(sent, drain);
    Retires(answered, p);
    steps := (([first] + [second]) + drain) + [CloseSaved(p)];
    RunOne(s, first);
    RunOne(Next(s, first), second);
    RunOne(answered, CloseSaved(p));
    RunsJoin(s, [first], [second]);
    RunsJoin(s, [first] + [second], drain);
    RunsJoin(s, ([first] + [second]) + drain, [CloseSaved(p)]);
  }

  /** From any state, whatever was lost, failed or reordered, there is a continuation after which nothing is pending. */
  lemma {:induction false} SavingCanBeCompleted(s: System) returns (steps: seq<Step>)
    ensures Run(s, steps).client == s.client.(pending := map[])
    decreases |s.client.pending|
  {
    if s.client.pending == map[] {
      steps := [];
    } else {
      hide Next;
      var k :| k in s.client.pending;
      var one := OneSaved(s, k);
      var rest := SavingCanBeCompleted(Run(s, one));
      steps := one + rest;
      RunsJoin(s, one, rest);
    }
  }

  // ---- replies, flushes and the native close ---------------------------------------------------------------

  /** A success reply retires exactly the mutation it saved; a newer one of the key stays pending. */
  lemma ReplyRetiresItsMutation(s: System, p: Put)
    requires p in s.saved
    ensures Next(s, CloseSaved(p)).client.pending
         == if p.key in s.client.pending && s.client.pending[p.key] == p.mutation then s.client.pending - {p.key} else s.client.pending
    ensures s.flushing.Some? && s.flushing.value.awaiting == Some(p) ==>
              var s' := Next(s, FlushSaved);
              && s'.client == Next(s, CloseSaved(p)).client
              && s'.flushing == Some(Flushing(s.flushing.value.failed, None))
  {
  }

  /** A failed save keeps its mutation and bars only its own key from the rest of the flush. */
  lemma FailedSaveBarsOnlyItsKey(s: System, p: Put, k: Key)
    requires s.flushing.Some? && s.flushing.value.awaiting == Some(p)
    ensures var s' := Next(s, FlushFails);
            && s'.client == s.client && s'.flushing == Some(Flushing(s.flushing.value.failed + {p.key}, None))
            && (k in s.client.pending && k != p.key && k !in s.flushing.value.failed ==>
                  var sent := Next(s', FlushSends(k));
                  sent.flushing == Some(Flushing(s.flushing.value.failed + {p.key}, Some(Put(k, s.client.pending[k]))))
                  && Put(k, s.client.pending[k]) in sent.sent)
  {
  }

  /** A flush is over exactly when every pending key has failed in it, and a waiting close then hears whether any did. */
  lemma FlushEndsWhen(s: System)
    requires s.flushing.Some? && s.flushing.value.awaiting.None?
    ensures var s', f := Next(s, FlushEnds), s.flushing.value;
            && (s'.flushing.None? <==> forall k :: k in s.client.pending ==> k in f.failed)
            && (s'.flushing.None? && s.closer.Awaiting? ==> s'.closer == Resumed(f.failed == {}))
            && (s.client.pending == map[] ==> s'.flushing.None?)
  {
  }

  /** A native close returns once a flush without failures left nothing pending, flushes again while there is something, and else throws. */
  lemma NativeCloseDecides(s: System)
    requires s.closer.Resumed?
    ensures var s' := Next(s, NativeCloseResumes);
            && (s'.closer.Threw? <==> !s.closer.ok)
            && (s'.closer.Returned? <==> s.closer.ok && s.client.pending == map[])
            && (s'.closer.Awaiting? <==> s.closer.ok && s.client.pending != map[]) && (s'.closer.Awaiting? ==> s'.flushing.Some?)
  {
  }
}
