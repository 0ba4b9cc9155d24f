/**
  Desktop preference storage: a write-behind cache over localStorage, drained over a network that
  may reorder, repeat and lose requests, to a bridge whose per-key queue and revision guard decide
  what becomes durable.
 */
module DesktopStorage {
  import opened Options

  type Key = string

  /** `None` is a tombstone: the setting was removed. */
  datatype Mutation = Mutation(value: Option<string>, revision: nat)

  datatype Put = Put(key: Key, mutation: Mutation)

  /** The page's side. `issued` records every mutation made so far. */
  datatype Client = Client(local: map<Key, string>, pending: map<Key, Mutation>, revision: nat, issued: set<Put>)

  const KEY_PREFIX := "hotsheet."
  const KEY_LIMIT: nat := 512

  /** The keys the desktop transport owns (`desktopStorageKey`). */
  predicate Tracked(key: Key) {
    KEY_PREFIX <= key && |key| <= KEY_LIMIT
  }

  function LocalValue(c: Client, key: Key): Option<string> {
    if key in c.local then Some(c.local[key]) else None
  }

  // ---- the page's operations ----------------------------------------------------------------

  /** `pending.set(key, { value, revision: ++revision })` */
  function Issue(c: Client, key: Key, value: Option<string>): Client {
    var m := Mutation(value, c.revision + 1);
    c.(pending := c.pending[key := m], revision := c.revision + 1, issued := c.issued + {Put(key, m)})
  }

  function SetItem(c: Client, key: Key, value: string): Client {
    var stored := c.(local := c.local[key := value]);
    if Tracked(key) then Issue(stored, key, Some(value)) else stored
  }

  function RemoveItem(c: Client, key: Key): Client {
    var removed := c.(local := c.local - {key});
    if Tracked(key) then Issue(removed, key, None) else removed
  }

  /** A tombstone for every tracked key of `keys`, in order. */
  function Bury(c: Client, keys: seq<Key>): Client {
    if keys == [] then c
    else
      var before, key := Bury(c, keys[..|keys| - 1]), keys[|keys| - 1];
      if Tracked(key) then Issue(before, key, None) else before
  }

  function Clear(c: Client, keys: seq<Key>): Client {
    Bury(c.(local := map[]), keys)
  }

  /** A successful reply retires the mutation it saved, unless a newer one took its place. */
  function Saved(c: Client, p: Put): Client {
    if p.key in c.pending && c.pending[p.key] == p.mutation then c.(pending := c.pending - {p.key}) else c
  }

  /** What localStorage holds after the snapshot's values and tombstones were applied to it. */
  function Hydrated(local: map<Key, string>, snapshot: map<Key, Option<string>>): map<Key, string> {
    map k | k in local.Keys + snapshot.Keys && (k in snapshot ==> snapshot[k].Some?) ::
      if k in snapshot then snapshot[k].value else local[k]
  }

  /** Legacy keys the snapshot does not know are queued for import, in storage order. */
  function Import(c: Client, keys: seq<Key>, known: set<Key>): Client {
    if keys == [] then c
    else
      var before, key := Import(c, keys[..|keys| - 1], known), keys[|keys| - 1];
      if Tracked(key) && key !in known then Issue(before, key, LocalValue(before, key)) else before
  }

  function Initialize(local: map<Key, string>, snapshot: map<Key, Option<string>>, keys: seq<Key>): Client {
    Import(Client(Hydrated(local, snapshot), map[], 0, {}), keys, snapshot.Keys)
  }

  // ---- the page's operations as the source writes them --------------------------------------

  class StorageClient {
    var local: map<Key, string>
    var pending: map<Key, Mutation>
    var revision: nat
    ghost var issued: set<Put>

    ghost function View(): Client
      reads this
    {
      Client(local, pending, revision, issued)
    }

    constructor (stored: map<Key, string>, snapshot: map<Key, Option<string>>, keys: seq<Key>)
      ensures View() == Initialize(stored, snapshot, keys)
    {
      local := Hydrated(stored, snapshot);
      pending, revision, issued := map[], 0, {};
      new;
      ghost var start := View();
      for i := 0 to |keys|
        invariant View() == Import(start, keys[..i], snapshot.Keys)
      {
        assert keys[..i + 1][..i] == keys[..i];
        var key := keys[i];
        if Tracked(key) && key !in snapshot {
          QueueMutation(key, if key in local then Some(local[key]) else None);
        }
      }
      assert keys[..|keys|] == keys;
    }

    method QueueMutation(key: Key, value: Option<string>)
      modifies this
      ensures View() == Issue(old(View()), key, value)
    {
      revision := revision + 1;
      pending := pending[key := Mutation(value, revision)];
      issued := issued + {Put(key, Mutation(value, revision))};
    }

    method Set(key: Key, value: string)
      modifies this
      ensures View() == SetItem(old(View()), key, value)
    {
      local := local[key := value];
      if Tracked(key) {
        QueueMutation(key, Some(value));
      }
    }

    method Remove(key: Key)
      modifies this
      ensures View() == RemoveItem(old(View()), key)
    {
      local := local - {key};
      if Tracked(key) {
        QueueMutation(key, None);
      }
    }

    method ClearAll(keys: seq<Key>)
      modifies this
      ensures View() == Clear(old(View()), keys)
    {
      local := map[];
      ghost var cleared := View();
      for i := 0 to |keys|
        invariant View() == Bury(cleared, keys[..i])
      {
        assert keys[..i + 1][..i] == keys[..i];
        if Tracked(keys[i]) {
          QueueMutation(keys[i], None);
        }
      }
      assert keys[..|keys|] == keys;
    }

    method OnSaved(p: Put)
      modifies this
      ensures View() == Saved(old(View()), p)
    {
      if p.key in pending && pending[p.key] == p.mutation {
        pending := pending - {p.key};
      }
    }
  }

  // ---- the whole system ---------------------------------------------------------------------

  /** The running `flush`: keys whose save failed in it, and the save it awaits. */
  datatype Flushing = Flushing(failed: set<Key>, awaiting: Option<Put>)

  /** A call of `flushForNativeClose`. */
  datatype Closer = NotClosing | Awaiting | Resumed(ok: bool) | Returned | Threw

  /**
    `sent` is what the network may deliver, any number of times and in any order; `saved` the
    requests some success reply exists for. Per key the bridge holds a queue of arrived requests,
    the write under way, the committed revision and the durable record.
   */
  datatype System = System(
    client: Client,
    flushing: Option<Flushing>,
    closer: Closer,
    sent: set<Put>,
    saved: set<Put>,
    queue: map<Key, seq<Put>>,
    writing: map<Key, Put>,
    committed: map<Key, nat>,
    durable: map<Key, Option<string>>)

  function DurableValue(s: System, key: Key): Option<string> {
    if key in s.durable then s.durable[key] else None
  }

  function Committed(s: System, key: Key): nat {
    if key in s.committed then s.committed[key] else 0
  }

  function QueueOf(s: System, key: Key): seq<Put> {
    if key in s.queue then s.queue[key] else []
  }

  datatype Step =
    | PageSets(key: Key, value: string)
    | PageRemoves(key: Key)
    | PageClears(keys: seq<Key>)
    | FlushStarts
    | FlushSends(key: Key)
    | FlushSaved
    | FlushFails
    | FlushEnds
    | CloseSends(key: Key)
    | CloseSaved(put: Put)
    | NativeCloseCalled
    | NativeCloseResumes
    | RequestArrives(put: Put)
    | WriteBegins(key: Key)
    | WriteCommits(key: Key, cleaned: bool)
    | WriteFails(key: Key)

  function StartFlush(s: System): System {
    if s.flushing.Some? then s else s.(flushing := Some(Flushing({}, None)))
  }

  function Next(s: System, step: Step): System {
    match step
    case PageSets(k, v) => s.(client := SetItem(s.client, k, v))
    case PageRemoves(k) => s.(client := RemoveItem(s.client, k))
    case PageClears(keys) =>
      if forall k :: k in s.client.local ==> k in keys then s.(client := Clear(s.client, keys)) else s
    case FlushStarts => StartFlush(s)
    case FlushSends(k) =>
      if s.flushing.Some? && s.flushing.value.awaiting.None? && k in s.client.pending && k !in s.flushing.value.failed
      then
        var p := Put(k, s.client.pending[k]);
        s.(flushing := Some(s.flushing.value.(awaiting := Some(p))), sent := s.sent + {p})
      else s
    case FlushSaved =>
      if s.flushing.Some? && s.flushing.value.awaiting.Some? && s.flushing.value.awaiting.value in s.saved
      then
        s.(client := Saved(s.client, s.flushing.value.awaiting.value),
           flushing := Some(s.flushing.value.(awaiting := None)))
      else s
    case FlushFails =>
      if s.flushing.Some? && s.flushing.value.awaiting.Some?
      then
        s.(flushing := Some(Flushing(s.flushing.value.failed + {s.flushing.value.awaiting.value.key}, None)))
      else s
    case FlushEnds =>
      if s.flushing.Some? && s.flushing.value.awaiting.None?
         && forall k :: k in s.client.pending ==> k in s.flushing.value.failed
      then
        s.(flushing := None,
           closer := if s.closer.Awaiting? then Resumed(s.flushing.value.failed == {}) else s.closer)
      else s
    case CloseSends(k) =>
      if k in s.client.pending then s.(sent := s.sent + {Put(k, s.client.pending[k])}) else s
    case CloseSaved(p) => if p in s.saved then s.(client := Saved(s.client, p)) else s
    case NativeCloseCalled =>
      if s.closer.Awaiting? || s.closer.Resumed? then s else StartFlush(s).(closer := Awaiting)
    case NativeCloseResumes =>
      if !s.closer.Resumed? then s
      else if !s.closer.ok then s.(closer := Threw)
      else if s.client.pending == map[] then s.(closer := Returned)
      else StartFlush(s).(closer := Awaiting)
    case RequestArrives(p) =>
      if p in s.sent then s.(queue := s.queue[p.key := QueueOf(s, p.key) + [p]]) else s
    case WriteBegins(k) =>
      if QueueOf(s, k) == [] || k in s.writing then s
      else
        var p, popped := QueueOf(s, k)[0], s.(queue := s.queue[k := QueueOf(s, k)[1..]]);
        if Committed(s, k) >= p.mutation.revision then popped.(saved := s.saved + {p})
        else popped.(writing := s.writing[k := p])
    case WriteCommits(k, cleaned) =>
      if k !in s.writing then s
      else
        var p := s.writing[k];
        s.(durable := s.durable[k := p.mutation.value],
           committed := s.committed[k := p.mutation.revision],
           writing := s.writing - {k},
           saved := if cleaned then s.saved + {p} else s.saved)
    case WriteFails(k) => s.(writing := s.writing - {k})
  }

  // ---- the bridge's PUT handler as the source writes it -------------------------------------------

  /** Per key a queue of writes, the write under way, the committed revision and the record on disk. */
  class StorageBridge {
    var queue: map<Key, seq<Put>>
    var writing: map<Key, Put>
    var committed: map<Key, nat>
    var durable: map<Key, Option<string>>
    /** The requests answered with success. */
    var saved: set<Put>

    /** The whole system with this bridge in it. */
    ghost function In(s: System): System
      reads this
    {
      s.(queue := queue, writing := writing, committed := committed, durable := durable, saved := saved)
    }

    method OnPut(p: Put)
      modifies this
      ensures forall s: System :: p in s.sent ==> In(s) == Next(old(In(s)), RequestArrives(p))
    {
      queue := queue[p.key := (if p.key in queue then queue[p.key] else []) + [p]];
    }

    /** The next queued write of a key: answered at once when a newer revision is committed, else begun. */
    method OnTurn(key: Key)
      modifies this
      ensures forall s: System :: In(s) == Next(old(In(s)), WriteBegins(key))
    {
      if key !in queue || queue[key] == [] || key in writing {
        return;
      }
      var p := queue[key][0];
      queue := queue[key := queue[key][1..]];
      if (if key in committed then committed[key] else 0) >= p.mutation.revision {
        saved := saved + {p};
        return;
      }
      writing := writing[key := p];
    }

    /** The record is renamed into place; the reply is a failure when the clean-up after it throws. */
    method OnRenamed(key: Key, cleaned: bool)
      modifies this
      ensures forall s: System :: In(s) == Next(old(In(s)), WriteCommits(key, cleaned))
    {
      if key in writing {
        var p := writing[key];
        durable := durable[key := p.mutation.value];
        committed := committed[key := p.mutation.revision];
        writing := writing - {key};
        if cleaned {
          saved := saved + {p};
        }
      }
    }

    method OnWriteFailed(key: Key)
      modifies this
      ensures forall s: System :: In(s) == Next(old(In(s)), WriteFails(key))
    {
      writing := writing - {key};
    }
  }

  /** A fresh page on a bridge whose records are `snapshot`; `keys` enumerates what localStorage shows. */
  function Begin(local: map<Key, string>, snapshot: map<Key, Option<string>>, keys: seq<Key>): System {
    System(Initialize(local, snapshot, keys), Some(Flushing({}, None)), NotClosing, {}, {}, map[], map[], map[], snapshot)
  }

  ghost predicate Enumerates(keys: seq<Key>, local: map<Key, string>) {
    forall k :: k in local ==> k in keys
  }

  function Run(s: System, steps: seq<Step>): System {
    if steps == [] then s else Next(Run(s, steps[..|steps| - 1]), steps[|steps| - 1])
  }

  // ---- the invariant ------------------------------------------------------------------------

  /** The page and the durable record agree on a key: same value, or absent and deleted. */
  ghost predicate Agrees(s: System, key: Key) {
    DurableValue(s, key) == LocalValue(s.client, key)
  }

  /** Revisions name mutations: no two with the same number, none above the counter. */
  ghost predicate Numbered(c: Client) {
    && (forall p, q :: p in c.issued && q in c.issued && p.mutation.revision == q.mutation.revision ==> p == q)
    && (forall p :: p in c.issued ==> 0 < p.mutation.revision <= c.revision && Tracked(p.key))
  }

  ghost predicate NoneNewer(c: Client, key: Key, revision: nat) {
    forall p :: p in c.issued && p.key == key ==> p.mutation.revision <= revision
  }

  /**
    One key as the page sees it: its pending mutation is the newest one and holds the local value;
    without one the durable record agrees and nothing newer is under way.
   */
  ghost predicate PageKey(s: System, k: Key) {
    var c := s.client;
    if k in c.pending then
      Put(k, c.pending[k]) in c.issued && c.pending[k].value == LocalValue(c, k) && NoneNewer(c, k, c.pending[k].revision)
    else
      Agrees(s, k) && NoneNewer(c, k, Committed(s, k))
  }

  /** One key at the bridge: its record is the newest committed mutation, the write under way is newer. */
  ghost predicate BridgeKey(s: System, k: Key) {
    && (forall p :: p in QueueOf(s, k) ==> p in s.client.issued && p.key == k)
    && (k in s.writing ==>
          s.writing[k] in s.client.issued && s.writing[k].key == k && Committed(s, k) < s.writing[k].mutation.revision)
    && (Committed(s, k) > 0 ==> Put(k, Mutation(DurableValue(s, k), Committed(s, k))) in s.client.issued)
  }

  ghost predicate Wire(s: System) {
    && s.sent <= s.client.issued && s.saved <= s.client.issued
    && (forall p :: p in s.saved ==> p.mutation.revision <= Committed(s, p.key))
    && (forall k :: k in s.client.pending || k in s.writing || k in s.queue ==> Tracked(k))
  }

  ghost predicate Inv(s: System) {
    && Numbered(s.client) && Wire(s)
    && (forall k :: Tracked(k) ==> PageKey(s, k))
    && (forall k :: Tracked(k) ==> BridgeKey(s, k))
  }

  lemma SamePageKey(s: System, s': System, k: Key)
    requires PageKey(s, k) && s'.client.issued == s.client.issued && LocalValue(s'.client, k) == LocalValue(s.client, k)
    requires (k in s'.client.pending <==> k in s.client.pending)
             && (k in s.client.pending ==> s'.client.pending[k] == s.client.pending[k])
    requires Committed(s', k) == Committed(s, k) && DurableValue(s', k) == DurableValue(s, k)
    ensures PageKey(s', k)
  {
    assert forall r :: NoneNewer(s'.client, k, r) <==> NoneNewer(s.client, k, r);
  }

  lemma SameBridgeKey(s: System, s': System, k: Key)
    requires BridgeKey(s, k) && s.client.issued <= s'.client.issued
    requires forall p :: p in QueueOf(s', k) ==> p in QueueOf(s, k)
    requires k in s'.writing ==> k in s.writing && s'.writing[k] == s.writing[k]
    requires Committed(s', k) == Committed(s, k) && DurableValue(s', k) == DurableValue(s, k)
    ensures BridgeKey(s', k)
  {
  }

  // ---- the page's steps -----------------------------------------------------------------------

  lemma IssueKeepsOthers(s: System, s': System, key: Key, value: Option<string>, k: Key)
    requires k != key && PageKey(s, k) && s' == s.(client := Issue(s.client, key, value))
    ensures PageKey(s', k)
  {
    var c, c' := s.client, s'.client;
    assert forall p :: p in c'.issued && p.key == k ==> p in c.issued;
    assert LocalValue(c', k) == LocalValue(c, k);
  }

  lemma IssueNumbers(c: Client, key: Key, value: Option<string>)
    requires Numbered(c) && Tracked(key)
    ensures Numbered(Issue(c, key, value)) && NoneNewer(Issue(c, key, value), key, c.revision + 1)
  {
    hide Tracked;
  }

  lemma IssueWires(s: System, s': System, key: Key, value: Option<string>)
    requires Wire(s) && Tracked(key) && s' == s.(client := Issue(s.client, key, value))
    ensures Wire(s')
  {
    hide Tracked;
    assert forall k :: Committed(s', k) == Committed(s, k);
  }

  /** A new mutation outdates what was issued before for its key and leaves other keys alone. */
  lemma IssueKeeps(s: System, s': System, key: Key, value: Option<string>)
    requires Numbered(s.client) && Wire(s) && (forall k :: Tracked(k) ==> BridgeKey(s, k))
    requires Tracked(key) && value == LocalValue(s.client, key) && s' == s.(client := Issue(s.client, key, value))
    ensures Numbered(s'.client) && Wire(s') && (forall k :: Tracked(k) ==> BridgeKey(s', k))
    ensures PageKey(s', key) && forall k :: k != key && PageKey(s, k) ==> PageKey(s', k)
  {
    hide Tracked, Wire, Numbered, BridgeKey, NoneNewer;
    IssueNumbers(s.client, key, value);
    IssueWires(s, s', key, value);
    forall k | Tracked(k) ensures BridgeKey(s', k) {
      SameBridgeKey(s, s', k);
    }
    forall k | k != key && PageKey(s, k) ensures PageKey(s', k) {
      IssueKeepsOthers(s, s', key, value, k);
    }
  }

  /** Only a key's local value changed: the others are as they were. */
  lemma LocalKeeps(s: System, s': System, key: Key)
    requires Inv(s) && s' == s.(client := s.client.(local := s'.client.local))
    requires forall k :: k != key ==> LocalValue(s'.client, k) == LocalValue(s.client, k)
    ensures Numbered(s'.client) && Wire(s') && (forall k :: Tracked(k) ==> BridgeKey(s', k))
    ensures forall k :: Tracked(k) && k != key ==> PageKey(s', k)
  {
    hide Tracked, PageKey, BridgeKey;
    forall k | Tracked(k) ensures BridgeKey(s', k) {
      SameBridgeKey(s, s', k);
    }
    forall k | Tracked(k) && k != key ensures PageKey(s', k) {
      SamePageKey(s, s', k);
    }
  }

  lemma SetKeeps(s: System, key: Key, value: string)
    requires Inv(s)
    ensures Inv(Next(s, PageSets(key, value)))
  {
    hide Tracked, PageKey, BridgeKey, Wire, Numbered;
    var stored := s.(client := s.client.(local := s.client.local[key := value]));
    LocalKeeps(s, stored, key);
    if Tracked(key) {
      IssueKeeps(stored, Next(s, PageSets(key, value)), key, Some(value));
    }
  }

  lemma RemoveKeeps(s: System, key: Key)
    requires Inv(s)
    ensures Inv(Next(s, PageRemoves(key)))
  {
    hide Tracked, PageKey, BridgeKey, Wire, Numbered;
    var removed := s.(client := s.client.(local := s.client.local - {key}));
    LocalKeeps(s, removed, key);
    if Tracked(key) {
      IssueKeeps(removed, Next(s, PageRemoves(key)), key, None);
    }
  }

  /** Burying goes key by key: what was never there, or is buried already, is in order. */
  lemma {:induction false} BuryKeeps(s: System, keys: seq<Key>, there: set<Key>)
    requires Numbered(s.client) && Wire(s) && s.client.local == map[]
    requires forall k :: Tracked(k) ==> BridgeKey(s, k)
    requires forall k :: Tracked(k) && k !in there ==> PageKey(s, k)
    ensures var s' := s.(client := Bury(s.client, keys));
            && Numbered(s'.client) && Wire(s') && s'.client.local == map[]
            && (forall k :: Tracked(k) ==> BridgeKey(s', k))
            && (forall k :: Tracked(k) && (k !in there || k in keys) ==> PageKey(s', k))
  {
    hide PageKey, BridgeKey, Wire, Numbered, Tracked;
    if keys == [] {
      assert s.(client := s.client) == s;
    } else {
      var front, key := keys[..|keys| - 1], keys[|keys| - 1];
      BuryKeeps(s, front, there);
      var s1 := s.(client := Bury(s.client, front));
      assert keys == front + [key];
      if Tracked(key) {
        IssueKeeps(s1, s.(client := Bury(s.client, keys)), key, None);
      }
    }
  }

  lemma ClearKeeps(s: System, keys: seq<Key>)
    requires Inv(s) && forall k :: k in s.client.local ==> k in keys
    ensures Inv(Next(s, PageClears(keys)))
  {
    hide Tracked, PageKey, BridgeKey;
    var cleared := s.(client := s.client.(local := map[]));
    forall k | Tracked(k) ensures BridgeKey(cleared, k) {
      SameBridgeKey(s, cleared, k);
    }
    forall k | Tracked(k) && k !in s.client.local.Keys ensures PageKey(cleared, k) {
      SamePageKey(s, cleared, k);
    }
    BuryKeeps(cleared, keys, s.client.local.Keys);
  }

  /** A reply retires a mutation only when the durable record already holds it. */
  lemma SavedKeeps(s: System, p: Put)
    requires Inv(s) && p in s.saved
    ensures Inv(s.(client := Saved(s.client, p)))
  {
    hide Tracked, PageKey, BridgeKey;
    var s' := s.(client := Saved(s.client, p));
    forall k | Tracked(k) ensures BridgeKey(s', k) {
      SameBridgeKey(s, s', k);
    }
    forall k | Tracked(k) ensures PageKey(s', k) {
      if k in s.client.pending && k !in s'.client.pending {
        Retired(s, s', p);
      } else {
        SamePageKey(s, s', k);
      }
    }
  }

  lemma Retired(s: System, s': System, p: Put)
    requires Inv(s) && p in s.saved && p.key in s.client.pending && s.client.pending[p.key] == p.mutation
    requires s' == s.(client := s.client.(pending := s.client.pending - {p.key}))
    ensures PageKey(s', p.key)
  {
    hide BridgeKey, Tracked, Numbered;
    RetiredAgrees(s, p);
    assert PageKey(s, p.key);
    assert NoneNewer(s'.client, p.key, p.mutation.revision) <==> NoneNewer(s.client, p.key, p.mutation.revision);
  }

  lemma RetiredAgrees(s: System, p: Put)
    requires Inv(s) && p in s.saved && p.key in s.client.pending && s.client.pending[p.key] == p.mutation
    ensures DurableValue(s, p.key) == LocalValue(s.client, p.key) && Committed(s, p.key) == p.mutation.revision
  {
    hide Tracked;
    var k := p.key;
    assert PageKey(s, k) && BridgeKey(s, k);
    assert p == Put(k, s.client.pending[k]);
    var record := Put(k, Mutation(DurableValue(s, k), Committed(s, k)));
    assert record in s.client.issued && record.mutation.revision <= p.mutation.revision;
    assert record == p;
  }

  // ---- the bridge's steps -----------------------------------------------------------------------

  /** Nothing a page or a record can see changed. */
  lemma QuietKeeps(s: System, s': System)
    requires Inv(s) && Wire(s') && s'.client == s.client && s'.committed == s.committed && s'.durable == s.durable
    requires forall k :: Tracked(k) ==> BridgeKey(s', k)
    ensures Inv(s')
  {
    hide Tracked, BridgeKey, PageKey;
    forall k | Tracked(k) ensures PageKey(s', k) {
      SamePageKey(s, s', k);
    }
  }

  lemma ArriveKeeps(s: System, p: Put)
    requires Inv(s)
    ensures Inv(Next(s, RequestArrives(p)))
  {
    hide Tracked, PageKey, BridgeKey;
    var s' := Next(s, RequestArrives(p));
    if p in s.sent {
      forall k | Tracked(k) ensures BridgeKey(s', k) {
        if k == p.key {
          Queued(s, s', p);
        } else {
          SameBridgeKey(s, s', k);
        }
      }
      QuietKeeps(s, s');
    }
  }

  lemma Queued(s: System, s': System, p: Put)
    requires BridgeKey(s, p.key) && p in s.client.issued
    requires s' == s.(queue := s.queue[p.key := QueueOf(s, p.key) + [p]])
    ensures BridgeKey(s', p.key)
  {
  }

  lemma BeginKeeps(s: System, k: Key)
    requires Inv(s)
    ensures Inv(Next(s, WriteBegins(k)))
  {
    hide Tracked, PageKey, BridgeKey;
    var s', q := Next(s, WriteBegins(k)), QueueOf(s, k);
    if q != [] && k !in s.writing {
      assert k in s.queue;
      HeadOfQueue(s, k);
      forall j | Tracked(j) ensures BridgeKey(s', j) {
        if j != k || k !in s'.writing {
          SameBridgeKey(s, s', j);
        } else {
          WriteStarted(s, s', k);
        }
      }
      QuietKeeps(s, s');
    }
  }

  lemma HeadOfQueue(s: System, k: Key)
    requires BridgeKey(s, k) && QueueOf(s, k) != []
    ensures QueueOf(s, k)[0] in s.client.issued && QueueOf(s, k)[0].key == k
  {
    assert QueueOf(s, k)[0] in QueueOf(s, k);
  }

  lemma WriteStarted(s: System, s': System, k: Key)
    requires BridgeKey(s, k) && QueueOf(s, k) != [] && Committed(s, k) < QueueOf(s, k)[0].mutation.revision
    requires s' == s.(queue := s.queue[k := QueueOf(s, k)[1..]], writing := s.writing[k := QueueOf(s, k)[0]])
    ensures BridgeKey(s', k)
  {
    assert QueueOf(s, k)[0] in QueueOf(s, k);
    assert forall x :: x in QueueOf(s', k) ==> x in QueueOf(s, k);
  }

  lemma FailKeeps(s: System, k: Key)
    requires Inv(s)
    ensures Inv(Next(s, WriteFails(k)))
  {
    hide Tracked, PageKey, BridgeKey;
    var s' := Next(s, WriteFails(k));
    forall j | Tracked(j) ensures BridgeKey(s', j) {
      SameBridgeKey(s, s', j);
    }
    QuietKeeps(s, s');
  }

  /** The key of a write under way still has that mutation, or a newer one, pending. */
  lemma WriteIsPending(s: System, k: Key)
    requires Inv(s) && k in s.writing
    ensures k in s.client.pending && Tracked(k)
    ensures s.writing[k] in s.client.issued && s.writing[k].key == k && Committed(s, k) < s.writing[k].mutation.revision
  {
    hide Tracked, Numbered;
    assert BridgeKey(s, k) && PageKey(s, k);
  }

  lemma CommittedRecord(s: System, s': System, k: Key, cleaned: bool)
    requires BridgeKey(s, k) && k in s.writing && s' == Next(s, WriteCommits(k, cleaned))
    ensures BridgeKey(s', k)
  {
    assert s.writing[k] == Put(k, s.writing[k].mutation);
    assert QueueOf(s', k) == QueueOf(s, k);
  }

  lemma CommittedKey(s: System, s': System, k: Key, cleaned: bool)
    requires Inv(s) && k in s.writing && s' == Next(s, WriteCommits(k, cleaned))
    ensures BridgeKey(s', k) && PageKey(s', k)
  {
    hide Tracked, Numbered, BridgeKey, NoneNewer;
    WriteIsPending(s, k);
    assert BridgeKey(s, k) && PageKey(s, k);
    CommittedRecord(s, s', k, cleaned);
  }

  /** A commit replaces an older record, never a newer one. */
  lemma CommitKeeps(s: System, k: Key, cleaned: bool)
    requires Inv(s)
    ensures Inv(Next(s, WriteCommits(k, cleaned)))
    ensures Committed(s, k) <= Committed(Next(s, WriteCommits(k, cleaned)), k)
  {
    hide Tracked, PageKey, BridgeKey;
    var s' := Next(s, WriteCommits(k, cleaned));
    if k in s.writing {
      WriteIsPending(s, k);
      CommittedKey(s, s', k, cleaned);
      forall j | Tracked(j) ensures BridgeKey(s', j) && PageKey(s', j) {
        if j != k {
          SameBridgeKey(s, s', j);
          SamePageKey(s, s', j);
        }
      }
    }
  }

  // ---- every run --------------------------------------------------------------------------------

  lemma FlushKeeps(s: System, s': System)
    requires Inv(s) && s' == s.(flushing := s'.flushing, closer := s'.closer, sent := s'.sent)
    requires s'.sent <= s.client.issued
    ensures Inv(s')
  {
    hide Tracked, PageKey, BridgeKey, Numbered;
    forall k | Tracked(k) ensures BridgeKey(s', k) {
      SameBridgeKey(s, s', k);
    }
    QuietKeeps(s, s');
  }

  lemma SentIsIssued(s: System)
    requires Inv(s)
    ensures s.sent <= s.client.issued
  {
  }

  lemma PendingIsIssued(s: System, k: Key)
    requires Inv(s) && k in s.client.pending
    ensures Put(k, s.client.pending[k]) in s.client.issued
  {
    assert PageKey(s, k);
  }

  lemma FlushSavedKeeps(s: System)
    requires Inv(s)
    ensures Inv(Next(s, FlushSaved))
  {
    hide Inv, Saved;
    if s.flushing.Some? && s.flushing.value.awaiting.Some? && s.flushing.value.awaiting.value in s.saved {
      var p := s.flushing.value.awaiting.value;
      SavedKeeps(s, p);
      SentIsIssued(s.(client := Saved(s.client, p)));
      FlushKeeps(s.(client := Saved(s.client, p)), Next(s, FlushSaved));
    }
  }

  lemma SendKeeps(s: System, step: Step, k: Key)
    requires Inv(s) && (step == FlushSends(k) || step == CloseSends(k))
    ensures Inv(Next(s, step))
  {
    hide Inv;
    SentIsIssued(s);
    if k in s.client.pending {
      PendingIsIssued(s, k);
      FlushKeeps(s, Next(s, step));
    }
  }

  lemma CloseSavedKeeps(s: System, p: Put)
    requires Inv(s)
    ensures Inv(Next(s, CloseSaved(p)))
  {
    hide Inv, Saved;
    if p in s.saved {
      SavedKeeps(s, p);
    }
  }

  lemma ClearStepKeeps(s: System, keys: seq<Key>)
    requires Inv(s)
    ensures Inv(Next(s, PageClears(keys)))
  {
    hide Inv, Clear;
    if forall k :: k in s.client.local ==> k in keys {
      ClearKeeps(s, keys);
    }
  }

  /** Steps that only move the flush or the closing call along. */
  lemma FlushStepKeeps(s: System, step: Step)
    requires Inv(s)
    requires step.FlushStarts? || step.FlushFails? || step.FlushEnds? || step.NativeCloseCalled? || step.NativeCloseResumes?
    ensures Inv(Next(s, step))
  {
    hide Inv;
    SentIsIssued(s);
    var s' := Next(s, step);
    assert s' == s.(flushing := s'.flushing, closer := s'.closer);
    FlushKeeps(s, s');
  }

  lemma StepKeeps(s: System, step: Step)
    requires Inv(s)
    ensures Inv(Next(s, step))
  {
    hide Inv, Next;
    match step
    case PageSets(k, v) => SetKeeps(s, k, v);
    case PageRemoves(k) => RemoveKeeps(s, k);
    case PageClears(keys) => ClearStepKeeps(s, keys);
    case FlushSaved => FlushSavedKeeps(s);
    case CloseSaved(p) => CloseSavedKeeps(s, p);
    case FlushSends(k) => SendKeeps(s, step, k);
    case CloseSends(k) => SendKeeps(s, step, k);
    case RequestArrives(p) => ArriveKeeps(s, p);
    case WriteBegins(k) => BeginKeeps(s, k);
    case WriteCommits(k, cleaned) => CommitKeeps(s, k, cleaned);
    case WriteFails(k) => FailKeeps(s, k);
    case _ => FlushStepKeeps(s, step);
  }

  lemma {:induction false} EveryRunKeepsTheInvariant(s: System, steps: seq<Step>)
    requires Inv(s)
    ensures Inv(Run(s, steps))
  {
    hide Inv, Next;
    if steps != [] {
      EveryRunKeepsTheInvariant(s, steps[..|steps| - 1]);
      StepKeeps(Run(s, steps[..|steps| - 1]), steps[|steps| - 1]);
    }
  }

  /** Importing goes key by key: a key of the snapshot, an absent key, or one already queued is in order. */
  lemma {:induction false} ImportKeeps(s: System, keys: seq<Key>, known: set<Key>)
    requires Numbered(s.client) && Wire(s)
    requires forall k :: Tracked(k) ==> BridgeKey(s, k)
    requires forall k :: Tracked(k) && (k in known || k !in s.client.local) ==> PageKey(s, k)
    ensures var s' := s.(client := Import(s.client, keys, known));
            && Numbered(s'.client) && Wire(s') && s'.client.local == s.client.local
            && (forall k :: Tracked(k) ==> BridgeKey(s', k))
            && (forall k :: Tracked(k) && (k in known || k !in s.client.local || k in keys) ==> PageKey(s', k))
  {
    hide PageKey, BridgeKey, Wire, Numbered, Tracked;
    if keys == [] {
      assert s.(client := s.client) == s;
    } else {
      var front, key := keys[..|keys| - 1], keys[|keys| - 1];
      ImportKeeps(s, front, known);
      var s1 := s.(client := Import(s.client, front, known));
      assert keys == front + [key];
      if Tracked(key) && key !in known {
        IssueKeeps(s1, s.(client := Import(s.client, keys, known)), key, LocalValue(s1.client, key));
      }
    }
  }

  lemma BeginHolds(local: map<Key, string>, snapshot: map<Key, Option<string>>, keys: seq<Key>)
    requires Enumerates(keys, Hydrated(local, snapshot))
    ensures Inv(Begin(local, snapshot, keys))
  {
    hide Tracked;
    var s := Begin(local, snapshot, keys).(client := Client(Hydrated(local, snapshot), map[], 0, {}));
    forall k | Tracked(k) ensures BridgeKey(s, k) {
    }
    forall k | Tracked(k) && (k in snapshot.Keys || k !in s.client.local) ensures PageKey(s, k) {
    }
    ImportKeeps(s, keys, snapshot.Keys);
  }

  /**
    Write-behind agreement: whatever the network reorders, repeats or loses and however sets,
    removals and clears fall between the requests, every tracked key with no pending mutation has
    the same durable and local value.
   */
  lemma CacheAgreesWithStore(local: map<Key, string>, snapshot: map<Key, Option<string>>, keys: seq<Key>, steps: seq<Step>, k: Key)
    requires Enumerates(keys, Hydrated(local, snapshot)) && Tracked(k)
    ensures var s := Run(Begin(local, snapshot, keys), steps);
            k !in s.client.pending ==> DurableValue(s, k) == LocalValue(s.client, k)
  {
    BeginHolds(local, snapshot, keys);
    EveryRunKeepsTheInvariant(Begin(local, snapshot, keys), steps);
    assert PageKey(Run(Begin(local, snapshot, keys), steps), k);
  }

  /** `flushForNativeClose` returns normally only when every tracked key's local value is durable. */
  lemma NativeCloseLosesNothing(local: map<Key, string>, snapshot: map<Key, Option<string>>, keys: seq<Key>, steps: seq<Step>, k: Key)
    requires Enumerates(keys, Hydrated(local, snapshot)) && Tracked(k) && steps != []
    ensures var s, s' := Run(Begin(local, snapshot, keys), steps[..|steps| - 1]), Run(Begin(local, snapshot, keys), steps);
            !s.closer.Returned? && s'.closer.Returned? ==> DurableValue(s', k) == LocalValue(s'.client, k)
  {
    hide Begin;
    CacheAgreesWithStore(local, snapshot, keys, steps, k);
    var s := Run(Begin(local, snapshot, keys), steps[..|steps| - 1]);
    ReturnsWhenDrained(s, steps[|steps| - 1]);
  }

  lemma ReturnsWhenDrained(s: System, step: Step)
    ensures !s.closer.Returned? && Next(s, step).closer.Returned? ==> Next(s, step).client.pending == map[]
  {
    hide SetItem, RemoveItem, Clear, Saved;
  }
}
