/** The displayed timeline: messages and activity merged by receipt number, adjacent activity grouped. */
module Timeline {
  import opened Options
  import opened Transcript

  datatype Item = MessageItem(message: Message) | ActivityItem(activity: Activity)

  datatype Entry = Entry(item: Item, order: nat, index: nat)

  datatype Group = MessageGroup(message: Message) | ActivityGroup(activity: seq<Activity>)

  // ---- entries ----------------------------------------------------------------------------------

  /** The first number after all numbers given; records without one take it and the following ones. */
  function Fallback(ms: seq<Message>, items: seq<Activity>): nat {
    Max(Highest(MessageSlots(ms)), Highest(ActivitySlots(items))) + 1
  }

  function MessageEntry(ms: seq<Message>, fallback: nat, i: nat): Entry
    requires i < |ms|
  {
    Entry(MessageItem(ms[i]), FilledAt(MessageSlots(ms), Never(|ms|), fallback, i).value, i)
  }

  function ActivityEntry(items: seq<Activity>, fallback: nat, index: nat, i: nat): Entry
    requires i < |items|
  {
    Entry(ActivityItem(items[i]), FilledAt(ActivitySlots(items), Never(|items|), fallback, i).value, index + i)
  }

  function MessageEntries(ms: seq<Message>, fallback: nat): (r: seq<Entry>)
    ensures |r| == |ms| && forall i :: 0 <= i < |r| ==> r[i] == MessageEntry(ms, fallback, i)
  {
    seq(|ms|, i requires 0 <= i < |ms| => MessageEntry(ms, fallback, i))
  }

  function ActivityEntries(items: seq<Activity>, fallback: nat, index: nat): (r: seq<Entry>)
    ensures |r| == |items| && forall i :: 0 <= i < |r| ==> r[i] == ActivityEntry(items, fallback, index, i)
  {
    seq(|items|, i requires 0 <= i < |items| => ActivityEntry(items, fallback, index, i))
  }

  function Entries(ms: seq<Message>, items: seq<Activity>): seq<Entry> {
    var fallback := Fallback(ms, items);
    var second := fallback + Missing(MessageSlots(ms), Never(|ms|), |ms|);
    MessageEntries(ms, fallback) + ActivityEntries(items, second, |ms|)
  }

  // ---- sorting ----------------------------------------------------------------------------------

  predicate Before(a: Entry, b: Entry) {
    a.order < b.order || (a.order == b.order && a.index < b.index)
  }

  ghost predicate Ascending(es: seq<Entry>) {
    forall i, j :: 0 <= i < j < |es| ==> Before(es[i], es[j])
  }

  function Insert(es: seq<Entry>, e: Entry): seq<Entry> {
    if es == [] || !Before(e, es[|es| - 1]) then es + [e]
    else Insert(es[..|es| - 1], e) + [es[|es| - 1]]
  }

  function Sort(es: seq<Entry>): seq<Entry> {
    if es == [] then [] else Insert(Sort(es[..|es| - 1]), es[|es| - 1])
  }

  lemma {:induction false} InsertHolds(es: seq<Entry>, e: Entry)
    ensures multiset(Insert(es, e)) == multiset(es) + multiset{e}
  {
    if es != [] && Before(e, es[|es| - 1]) {
      InsertHolds(es[..|es| - 1], e);
      assert es == es[..|es| - 1] + [es[|es| - 1]];
    }
  }

  lemma {:induction false} InsertAscends(es: seq<Entry>, e: Entry)
    requires Ascending(es) && forall x :: x in es ==> x.index != e.index
    ensures Ascending(Insert(es, e))
  {
    if es != [] && Before(e, es[|es| - 1]) {
      var front, last := es[..|es| - 1], es[|es| - 1];
      InsertAscends(front, e);
      InsertHolds(front, e);
      forall x | x in Insert(front, e) ensures Before(x, last) {
        assert x in multiset(Insert(front, e));
      }
    } else if es != [] {
      assert Before(es[|es| - 1], e);
    }
  }

  ghost predicate DistinctIndices(es: seq<Entry>) {
    forall i, j :: 0 <= i < j < |es| ==> es[i].index != es[j].index
  }

  lemma {:induction false} SortSorts(es: seq<Entry>)
    ensures multiset(Sort(es)) == multiset(es)
    ensures DistinctIndices(es) ==> Ascending(Sort(es))
  {
    if es != [] {
      var front, last := es[..|es| - 1], es[|es| - 1];
      assert es == front + [last];
      SortSorts(front);
      InsertHolds(Sort(front), last);
      if DistinctIndices(es) {
        forall x | x in Sort(front) ensures x.index != last.index {
          assert x in multiset(Sort(front));
          assert x in front;
        }
        InsertAscends(Sort(front), last);
      }
    }
  }

  /** The first entry comes before all others, so two arrangements start alike. */
  lemma SameFirst(a: seq<Entry>, b: seq<Entry>)
    requires Ascending(a) && Ascending(b) && multiset(a) == multiset(b) && a != [] && b != []
    ensures a[0] == b[0]
  {
    assert a[0] in multiset(b) && b[0] in multiset(a);
    var i :| 0 <= i < |a| && a[i] == b[0];
    var j :| 0 <= j < |b| && b[j] == a[0];
  }

  lemma MultisetTail(a: seq<Entry>)
    requires a != []
    ensures multiset(a[1..]) == multiset(a) - multiset{a[0]}
  {
    assert a == [a[0]] + a[1..];
  }

  /** There is one ascending arrangement, so any correct sort gives this one. */
  lemma {:induction false} AscendingIsUnique(a: seq<Entry>, b: seq<Entry>)
    requires Ascending(a) && Ascending(b) && multiset(a) == multiset(b)
    ensures a == b
  {
    hide Before;
    assert |a| == |multiset(a)| && |b| == |multiset(b)|;
    if a != [] {
      SameFirst(a, b);
      MultisetTail(a);
      MultisetTail(b);
      AscendingIsUnique(a[1..], b[1..]);
      assert a == [a[0]] + a[1..] && b == [b[0]] + b[1..];
    }
  }

  // ---- grouping ---------------------------------------------------------------------------------

  function AddToGroups(groups: seq<Group>, item: Item): seq<Group> {
    match item
    case MessageItem(m) => groups + [MessageGroup(m)]
    case ActivityItem(a) =>
      if groups != [] && groups[|groups| - 1].ActivityGroup?
      then groups[..|groups| - 1] + [ActivityGroup(groups[|groups| - 1].activity + [a])]
      else groups + [ActivityGroup([a])]
  }

  function GroupItems(es: seq<Entry>): seq<Group> {
    if es == [] then [] else AddToGroups(GroupItems(es[..|es| - 1]), es[|es| - 1].item)
  }

  function ItemsOf(es: seq<Entry>): (r: seq<Item>)
    ensures |r| == |es| && forall i :: 0 <= i < |r| ==> r[i] == es[i].item
  {
    seq(|es|, i requires 0 <= i < |es| => es[i].item)
  }

  function ActivityItems(items: seq<Activity>): (r: seq<Item>)
    ensures |r| == |items| && forall i :: 0 <= i < |r| ==> r[i] == ActivityItem(items[i])
  {
    seq(|items|, i requires 0 <= i < |items| => ActivityItem(items[i]))
  }

  function ItemsOfGroup(g: Group): seq<Item> {
    match g
    case MessageGroup(m) => [MessageItem(m)]
    case ActivityGroup(items) => ActivityItems(items)
  }

  function Flatten(groups: seq<Group>): seq<Item> {
    if groups == [] then [] else Flatten(groups[..|groups| - 1]) + ItemsOfGroup(groups[|groups| - 1])
  }

  /** Activity stands in one group, never empty, until a message comes between. */
  ghost predicate WellGrouped(groups: seq<Group>) {
    && (forall i :: 0 <= i < |groups| - 1 ==> !(groups[i].ActivityGroup? && groups[i + 1].ActivityGroup?))
    && (forall i :: 0 <= i < |groups| && groups[i].ActivityGroup? ==> groups[i].activity != [])
  }

  lemma FlattenMore(groups: seq<Group>, g: Group)
    ensures Flatten(groups + [g]) == Flatten(groups) + ItemsOfGroup(g)
  {
    assert (groups + [g])[..|groups|] == groups;
  }

  lemma AddGroups(groups: seq<Group>, item: Item)
    requires WellGrouped(groups)
    ensures WellGrouped(AddToGroups(groups, item))
  {
  }

  /** The item joins the last group. */
  lemma JoinFlattens(front: seq<Group>, items: seq<Activity>, a: Activity)
    ensures Flatten(front + [ActivityGroup(items + [a])]) == Flatten(front + [ActivityGroup(items)]) + [ActivityItem(a)]
  {
    hide Flatten;
    FlattenMore(front, ActivityGroup(items + [a]));
    FlattenMore(front, ActivityGroup(items));
    var x, y := Flatten(front), ActivityItems(items);
    assert ActivityItems(items + [a]) == y + [ActivityItem(a)];
    assert x + (y + [ActivityItem(a)]) == (x + y) + [ActivityItem(a)];
  }

  lemma AddFlattens(groups: seq<Group>, item: Item)
    ensures Flatten(AddToGroups(groups, item)) == Flatten(groups) + [item]
  {
    hide Flatten;
    match item
    case MessageItem(m) => FlattenMore(groups, MessageGroup(m));
    case ActivityItem(a) =>
      if groups != [] && groups[|groups| - 1].ActivityGroup? {
        var front, last := groups[..|groups| - 1], groups[|groups| - 1];
        assert groups == front + [last] && last == ActivityGroup(last.activity);
        JoinFlattens(front, last.activity, a);
      } else {
        FlattenMore(groups, ActivityGroup([a]));
        assert ActivityItems([a]) == [item];
      }
  }

  lemma ItemsMore(es: seq<Entry>)
    requires es != []
    ensures ItemsOf(es) == ItemsOf(es[..|es| - 1]) + [es[|es| - 1].item]
  {
  }

  lemma {:induction false} GroupingKeepsItems(es: seq<Entry>)
    ensures Flatten(GroupItems(es)) == ItemsOf(es) && WellGrouped(GroupItems(es))
  {
    if es != [] {
      hide AddToGroups, Flatten, WellGrouped, ItemsOf;
      var front, last := es[..|es| - 1], es[|es| - 1];
      GroupingKeepsItems(front);
      AddFlattens(GroupItems(front), last.item);
      AddGroups(GroupItems(front), last.item);
      ItemsMore(es);
    }
  }

  // ---- the timeline -----------------------------------------------------------------------------

  function TimelineOf(ms: seq<Message>, items: seq<Activity>): seq<Group> {
    GroupItems(Sort(Entries(ms, items)))
  }

  lemma EntriesAreIndexed(ms: seq<Message>, items: seq<Activity>)
    ensures DistinctIndices(Entries(ms, items))
  {
    hide Missing, Highest, FilledAt;
    var es := Entries(ms, items);
    assert forall i :: 0 <= i < |es| ==> es[i].index == i;
  }

  /** The numbers of messages and then activity. */
  function AllSlots(ms: seq<Message>, items: seq<Activity>): Slots {
    MessageSlots(ms) + ActivitySlots(items)
  }

  lemma EntryOrder(ms: seq<Message>, items: seq<Activity>, i: nat)
    requires i < |ms| + |items|
    ensures var es, slots, n := Entries(ms, items), AllSlots(ms, items), |ms|;
            && |es| == |slots| == n + |items| && es[i].index == i
            && es[i].item == (if i < n then MessageItem(ms[i]) else ActivityItem(items[i - n]))
            && (slots[i].Some? ==> es[i].order == slots[i].value < Fallback(ms, items))
            && (slots[i].None? ==>
                  es[i].order == Fallback(ms, items)
                                 + if i < n then Missing(MessageSlots(ms), Never(n), i)
                                   else Missing(MessageSlots(ms), Never(n), n) + Missing(ActivitySlots(items), Never(|items|), i - n))
  {
    hide Missing;
  }

  /** A record with a number is placed by it; one without comes after all that have one, in list order. */
  lemma NumbersPlaceRecords(ms: seq<Message>, items: seq<Activity>, i: nat, j: nat)
    requires i < |ms| + |items| && j < |ms| + |items|
    ensures var es, slots := Entries(ms, items), AllSlots(ms, items);
            && |es| == |slots| == |ms| + |items|
            && (slots[i].Some? ==> es[i].order == slots[i].value)
            && (slots[i].Some? && slots[j].None? ==> Before(es[i], es[j]))
            && (i < j && slots[i].None? && slots[j].None? ==> Before(es[i], es[j]))
  {
    hide Entries, Missing, Never;
    EntryOrder(ms, items, i);
    EntryOrder(ms, items, j);
    var n := |ms|;
    if i < j && i < n {
      MissingGrows(MessageSlots(ms), Never(n), i, if j < n then j else n);
    } else if i < j {
      MissingGrows(ActivitySlots(items), Never(|items|), i - n, j - n);
    }
  }

  /**
    The timeline shows every record once, in strictly ascending order of receipt number and then
    position, with no two activity groups side by side.
   */
  lemma TimelineIsASortedPermutation(ms: seq<Message>, items: seq<Activity>)
    returns (es: seq<Entry>)
    ensures multiset(es) == multiset(Entries(ms, items)) && Ascending(es)
    ensures Flatten(TimelineOf(ms, items)) == ItemsOf(es) && WellGrouped(TimelineOf(ms, items))
  {
    hide Entries;
    es := Sort(Entries(ms, items));
    EntriesAreIndexed(ms, items);
    SortSorts(Entries(ms, items));
    GroupingKeepsItems(es);
  }

  /** The timeline as the source writes it: entries with two counters, a sort, and one pass of grouping. */
  method ConversationTimeline(ms: seq<Message>, items: seq<Activity>) returns (groups: seq<Group>)
    ensures groups == TimelineOf(ms, items)
  {
    var entries := NumberEntries(ms, items);
    entries := Sort(entries);
    groups := [];
    for i := 0 to |entries|
      invariant groups == GroupItems(entries[..i])
    {
      assert entries[..i + 1][..i] == entries[..i];
      match entries[i].item
      case MessageItem(m) => groups := groups + [MessageGroup(m)];
      case ActivityItem(a) =>
        if groups != [] && groups[|groups| - 1].ActivityGroup? {
          groups := groups[|groups| - 1 := ActivityGroup(groups[|groups| - 1].activity + [a])];
        } else {
          groups := groups + [ActivityGroup([a])];
        }
    }
    assert entries[..|entries|] == entries;
  }

  method NumberEntries(ms: seq<Message>, items: seq<Activity>) returns (entries: seq<Entry>)
    ensures entries == Entries(ms, items)
  {
    hide Never, MessageSlots, ActivitySlots, Highest, MessageEntries, ActivityEntries;
    var first := Fallback(ms, items);
    var fallback := first;
    entries := [];
    for i := 0 to |ms|
      invariant fallback == first + Missing(MessageSlots(ms), Never(|ms|), i)
      invariant |entries| == i && forall j :: 0 <= j < i ==> entries[j] == MessageEntry(ms, first, j)
    {
      var order := fallback;
      if ms[i].sequence.Some? {
        order := ms[i].sequence.value;
      } else {
        fallback := fallback + 1;
      }
      entries := entries + [Entry(MessageItem(ms[i]), order, i)];
    }
    assert entries == MessageEntries(ms, first);
    ghost var second := fallback;
    var more: seq<Entry> := [];
    for i := 0 to |items|
      invariant fallback == second + Missing(ActivitySlots(items), Never(|items|), i)
      invariant |more| == i && forall j :: 0 <= j < i ==> more[j] == ActivityEntry(items, second, |ms|, j)
    {
      var order := fallback;
      if items[i].sequence.Some? {
        order := items[i].sequence.value;
      } else {
        fallback := fallback + 1;
      }
      more := more + [Entry(ActivityItem(items[i]), order, |ms| + i)];
    }
    assert more == ActivityEntries(items, second, |ms|);
    entries := entries + more;
  }
}
