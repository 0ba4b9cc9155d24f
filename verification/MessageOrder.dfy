/**
  The order a transcript shows its messages in (`transcriptOrder`), and why selecting messages and
  ordering them can be done in either order although fallback numbers depend on the whole list.
 */
module MessageOrder {
  import opened Options
  import opened Transcript
  import opened Timeline

  // ---- the order, by way of the timeline ----------------------------------------------------------

  /** The messages of a timeline's message groups. */
  function MessagesOfGroups(groups: seq<Group>): seq<Message> {
    if groups == [] then []
    else
      var before, last := MessagesOfGroups(groups[..|groups| - 1]), groups[|groups| - 1];
      if last.MessageGroup? then before + [last.message] else before
  }

  function TranscriptOrder(ms: seq<Message>): seq<Message> {
    MessagesOfGroups(TimelineOf(ms, []))
  }

  // ---- the order, by receipt numbers alone --------------------------------------------------------

  /** `m`, arriving after `x`, is still shown before it: it has a number, and `x` a larger one or none. */
  predicate Overtakes(m: Message, x: Message) {
    m.sequence.Some? && (x.sequence.None? || m.sequence.value < x.sequence.value)
  }

  function Place(shown: seq<Message>, m: Message): seq<Message> {
    if shown == [] || !Overtakes(m, shown[|shown| - 1]) then shown + [m]
    else Place(shown[..|shown| - 1], m) + [shown[|shown| - 1]]
  }

  /** Messages one by one in array order, each moved before the ones it overtakes. */
  function Arranged(ms: seq<Message>): seq<Message> {
    if ms == [] then [] else Place(Arranged(ms[..|ms| - 1]), ms[|ms| - 1])
  }

  ghost predicate InOrder(shown: seq<Message>) {
    forall i, j :: 0 <= i < j < |shown| ==> !Overtakes(shown[j], shown[i])
  }

  lemma PlaceMore(shown: seq<Message>, x: Message, m: Message)
    ensures Place(shown + [x], m) == if Overtakes(m, x) then Place(shown, m) + [x] else shown + [x] + [m]
  {
    assert (shown + [x])[..|shown|] == shown;
  }

  lemma {:induction false} PlaceHolds(shown: seq<Message>, m: Message)
    ensures multiset(Place(shown, m)) == multiset(shown) + multiset{m}
  {
    if shown != [] {
      var front, x := shown[..|shown| - 1], shown[|shown| - 1];
      assert shown == front + [x];
      PlaceHolds(front, m);
      PlaceMore(front, x, m);
    }
  }

  lemma {:induction false} PlaceInOrder(shown: seq<Message>, m: Message)
    requires InOrder(shown)
    ensures InOrder(Place(shown, m))
  {
    if shown != [] && Overtakes(m, shown[|shown| - 1]) {
      var front, x := shown[..|shown| - 1], shown[|shown| - 1];
      PlaceInOrder(front, m);
      PlaceHolds(front, m);
      forall y | y in Place(front, m) ensures !Overtakes(x, y) {
        assert y in multiset(Place(front, m));
      }
    } else if shown != [] {
      forall i | 0 <= i < |shown| ensures !Overtakes(m, shown[i]) {
        assert i < |shown| - 1 ==> !Overtakes(shown[|shown| - 1], shown[i]);
      }
    }
  }

  lemma {:induction false} ArrangedInOrder(ms: seq<Message>)
    ensures InOrder(Arranged(ms)) && multiset(Arranged(ms)) == multiset(ms)
  {
    if ms != [] {
      var front, m := ms[..|ms| - 1], ms[|ms| - 1];
      assert ms == front + [m];
      ArrangedInOrder(front);
      PlaceInOrder(Arranged(front), m);
      PlaceHolds(Arranged(front), m);
    }
  }

  /** A list that is in order already stays as it is. */
  lemma {:induction false} InOrderStays(shown: seq<Message>)
    requires InOrder(shown)
    ensures Arranged(shown) == shown
  {
    if shown != [] {
      var front, m := shown[..|shown| - 1], shown[|shown| - 1];
      InOrderStays(front);
      assert front != [] ==> !Overtakes(m, front[|front| - 1]);
      assert shown == front + [m];
    }
  }

  // ---- the two are the same -----------------------------------------------------------------------

  function MessagesOf(es: seq<Entry>): seq<Message> {
    if es == [] then []
    else
      var before, item := MessagesOf(es[..|es| - 1]), es[|es| - 1].item;
      if item.MessageItem? then before + [item.message] else before
  }

  lemma MessagesOfMore(es: seq<Entry>, e: Entry)
    ensures MessagesOf(es + [e]) == if e.item.MessageItem? then MessagesOf(es) + [e.item.message] else MessagesOf(es)
  {
    assert (es + [e])[..|es|] == es;
  }

  lemma MessagesOfGroupsMore(groups: seq<Group>, g: Group)
    ensures MessagesOfGroups(groups + [g]) == if g.MessageGroup? then MessagesOfGroups(groups) + [g.message] else MessagesOfGroups(groups)
  {
    assert (groups + [g])[..|groups|] == groups;
  }

  lemma AddedMessages(groups: seq<Group>, item: Item)
    ensures MessagesOfGroups(AddToGroups(groups, item))
         == if item.MessageItem? then MessagesOfGroups(groups) + [item.message] else MessagesOfGroups(groups)
  {
    hide MessagesOfGroups;
    match item
    case MessageItem(m) => MessagesOfGroupsMore(groups, MessageGroup(m));
    case ActivityItem(a) =>
      if groups != [] && groups[|groups| - 1].ActivityGroup? {
        var front, last := groups[..|groups| - 1], groups[|groups| - 1];
        assert groups == front + [last];
        MessagesOfGroupsMore(front, last);
        MessagesOfGroupsMore(front, ActivityGroup(last.activity + [a]));
      } else {
        MessagesOfGroupsMore(groups, ActivityGroup([a]));
      }
  }

  lemma {:induction false} GroupingKeepsMessages(es: seq<Entry>)
    ensures MessagesOfGroups(GroupItems(es)) == MessagesOf(es)
  {
    if es != [] {
      hide AddToGroups;
      GroupingKeepsMessages(es[..|es| - 1]);
      AddedMessages(GroupItems(es[..|es| - 1]), es[|es| - 1].item);
    }
  }

  /** The entries come from the first `n` messages of `ms`, in whatever order. */
  ghost predicate EntriesOf(es: seq<Entry>, ms: seq<Message>, n: nat) {
    forall k :: 0 <= k < |es| ==>
      es[k].index < n <= |ms| && es[k] == MessageEntry(ms, Fallback(ms, []), es[k].index)
  }

  /** Two entries compare as their messages do. */
  lemma BeforeIsOvertaking(ms: seq<Message>, i: nat, n: nat)
    requires i < n < |ms|
    ensures Before(MessageEntry(ms, Fallback(ms, []), n), MessageEntry(ms, Fallback(ms, []), i)) <==> Overtakes(ms[n], ms[i])
  {
    MissingGrows(MessageSlots(ms), Never(|ms|), i, n);
  }

  lemma {:induction false} InsertIsPlace(ms: seq<Message>, es: seq<Entry>, n: nat)
    requires n < |ms| && EntriesOf(es, ms, n)
    ensures var e := MessageEntry(ms, Fallback(ms, []), n);
            MessagesOf(Insert(es, e)) == Place(MessagesOf(es), ms[n]) && EntriesOf(Insert(es, e), ms, n + 1)
  {
    hide MessageEntry, Before, Overtakes, MessagesOf;
    var e := MessageEntry(ms, Fallback(ms, []), n);
    assert e.item == MessageItem(ms[n]) && e.index == n by { EntryParts(ms, n); }
    if es == [] {
      assert es + [e] == [e];
      MessagesOfMore(es, e);
      assert MessagesOf(es) == [] by { NoMessages(); }
    } else {
      var front, last := es[..|es| - 1], es[|es| - 1];
      assert es == front + [last];
      assert last == MessageEntry(ms, Fallback(ms, []), last.index);
      EntryParts(ms, last.index);
      BeforeIsOvertaking(ms, last.index, n);
      MessagesOfMore(front, last);
      PlaceMore(MessagesOf(front), ms[last.index], ms[n]);
      if Before(e, last) {
        InsertIsPlace(ms, front, n);
        MessagesOfMore(Insert(front, e), last);
      } else {
        MessagesOfMore(es, e);
      }
    }
  }

  lemma EntryParts(ms: seq<Message>, i: nat)
    requires i < |ms|
    ensures var e := MessageEntry(ms, Fallback(ms, []), i); e.item == MessageItem(ms[i]) && e.index == i
  {
  }

  lemma NoMessages()
    ensures MessagesOf([]) == []
  {
  }

  lemma {:induction false} SortIsArrange(ms: seq<Message>, es: seq<Entry>, n: nat)
    requires n <= |ms| && |es| == n && forall k :: 0 <= k < n ==> es[k] == MessageEntry(ms, Fallback(ms, []), k)
    ensures MessagesOf(Sort(es)) == Arranged(ms[..n]) && EntriesOf(Sort(es), ms, n)
  {
    if n > 0 {
      hide MessageEntry, Insert, Place, MessagesOf;
      SortIsArrange(ms, es[..n - 1], n - 1);
      InsertIsPlace(ms, Sort(es[..n - 1]), n - 1);
      assert ms[..n][..n - 1] == ms[..n - 1];
    }
  }

  lemma EntriesOfMessages(ms: seq<Message>)
    ensures Entries(ms, []) == MessageEntries(ms, Fallback(ms, []))
  {
    hide MessageEntry, Fallback;
  }

  /** The displayed order is by receipt number, unnumbered messages last, ties in array order. */
  lemma TranscriptOrderIsArranged(ms: seq<Message>)
    ensures TranscriptOrder(ms) == Arranged(ms)
  {
    hide Sort, Entries, MessagesOf, Arranged;
    EntriesOfMessages(ms);
    GroupingKeepsMessages(Sort(Entries(ms, [])));
    SortIsArrange(ms, Entries(ms, []), |ms|);
    assert ms[..|ms|] == ms;
  }

  // ---- selecting ------------------------------------------------------------------------------------

  /** The messages with a chosen id, in the order of the list. */
  function Chosen(ms: seq<Message>, ids: set<string>): seq<Message> {
    if ms == [] then []
    else
      var before, m := Chosen(ms[..|ms| - 1], ids), ms[|ms| - 1];
      if m.id in ids then before + [m] else before
  }

  lemma ChosenMore(ms: seq<Message>, m: Message, ids: set<string>)
    ensures Chosen(ms + [m], ids) == if m.id in ids then Chosen(ms, ids) + [m] else Chosen(ms, ids)
  {
    assert (ms + [m])[..|ms|] == ms;
  }

  lemma {:induction false} ChosenMembers(ms: seq<Message>, ids: set<string>)
    ensures forall x :: x in Chosen(ms, ids) ==> x in ms
  {
    if ms != [] {
      ChosenMembers(ms[..|ms| - 1], ids);
    }
  }

  lemma {:induction false} ChosenInOrder(ms: seq<Message>, ids: set<string>)
    requires InOrder(ms)
    ensures InOrder(Chosen(ms, ids))
  {
    if ms != [] {
      var front, m := ms[..|ms| - 1], ms[|ms| - 1];
      ChosenInOrder(front, ids);
      ChosenMembers(front, ids);
      forall x | x in Chosen(front, ids) ensures !Overtakes(m, x) {
        var i :| 0 <= i < |front| && front[i] == x;
        assert ms[i] == x;
      }
    }
  }

  /** Nothing in the list is overtaken: placing appends, whatever of the list is left. */
  lemma PlaceAtEnd(shown: seq<Message>, m: Message)
    requires forall x :: x in shown ==> !Overtakes(m, x)
    ensures Place(shown, m) == shown + [m]
  {
  }

  lemma {:induction false} PlaceCommutes(shown: seq<Message>, m: Message, ids: set<string>)
    requires InOrder(shown)
    ensures Chosen(Place(shown, m), ids) == if m.id in ids then Place(Chosen(shown, ids), m) else Chosen(shown, ids)
  {
    hide Overtakes, Chosen;
    if shown == [] {
      assert shown + [m] == [m];
      ChosenMore(shown, m, ids);
      assert Chosen(shown, ids) == [] by { NothingChosen(ids); }
    } else {
      var front, x := shown[..|shown| - 1], shown[|shown| - 1];
      assert shown == front + [x];
      ChosenMore(front, x, ids);
      PlaceMore(front, x, m);
      if Overtakes(m, x) {
        PlaceCommutes(front, m, ids);
        ChosenMore(Place(front, m), x, ids);
        PlaceMore(Chosen(front, ids), x, m);
      } else {
        ChosenMore(shown, m, ids);
        ChosenMembers(shown, ids);
        NoneOvertaken(shown, m);
        PlaceAtEnd(Chosen(shown, ids), m);
      }
    }
  }

  lemma NothingChosen(ids: set<string>)
    ensures Chosen([], ids) == []
  {
  }

  lemma NoneOvertaken(shown: seq<Message>, m: Message)
    requires InOrder(shown) && shown != [] && !Overtakes(m, shown[|shown| - 1])
    ensures forall x :: x in shown ==> !Overtakes(m, x)
  {
    forall i | 0 <= i < |shown| ensures !Overtakes(m, shown[i]) {
      assert i < |shown| - 1 ==> !Overtakes(shown[|shown| - 1], shown[i]);
    }
  }

  lemma {:induction false} ArrangeCommutes(ms: seq<Message>, ids: set<string>)
    ensures Arranged(Chosen(ms, ids)) == Chosen(Arranged(ms), ids)
  {
    if ms != [] {
      hide Place;
      var front, m := ms[..|ms| - 1], ms[|ms| - 1];
      ArrangeCommutes(front, ids);
      ArrangedInOrder(front);
      PlaceCommutes(Arranged(front), m, ids);
      if m.id in ids {
        assert (Chosen(front, ids) + [m])[..|Chosen(front, ids)|] == Chosen(front, ids);
      }
    }
  }

  /**
    Selecting and ordering commute, and what is in displayed order stays in it: so a saved selection
    shows the same order whether its messages were kept in array order or in displayed order.
   */
  lemma SelectingCommutesWithOrdering(ms: seq<Message>, ids: set<string>)
    ensures TranscriptOrder(Chosen(ms, ids)) == Chosen(TranscriptOrder(ms), ids)
    ensures TranscriptOrder(Chosen(TranscriptOrder(ms), ids)) == Chosen(TranscriptOrder(ms), ids)
    ensures multiset(TranscriptOrder(ms)) == multiset(ms)
  {
    hide TranscriptOrder, Arranged;
    TranscriptOrderIsArranged(ms);
    TranscriptOrderIsArranged(Chosen(ms, ids));
    ArrangeCommutes(ms, ids);
    ArrangedInOrder(ms);
    ChosenInOrder(Arranged(ms), ids);
    InOrderStays(Chosen(Arranged(ms), ids));
    TranscriptOrderIsArranged(Chosen(Arranged(ms), ids));
  }
}
