/**
 * The ticket table (src/components/dashboard/ticket-table.tsx): a
 * sort-key/sort-order toggle driven by the column headers, and a copy of
 * the tickets sorted with the source's comparator.
 *
 * `Array.prototype.sort` is stable (required since ECMAScript 2019), so
 * with a consistent comparator its result is determined: the stable sort.
 * It is modelled here as a stable insertion sort on a sequence value; the
 * input, a value, cannot be changed by it.
 */
module TicketTable {
  import opened TicketTypes
  import opened Text
  import opened Sequences

  /** `SortKey`: `'created_at' | 'status' | 'priority'`. */
  datatype SortKey = CreatedAt | StatusKey | PriorityKey

  datatype SortOrder = Asc | Desc

  datatype SortState = SortState(key: SortKey, order: SortOrder)

  function Flip(order: SortOrder): SortOrder
  {
    if order == Asc then Desc else Asc
  }

  /** The state after `handleSort(key)`. */
  function HandleSortStep(state: SortState, key: SortKey): SortState
  {
    if state.key == key then SortState(key, Flip(state.order)) else SortState(key, Desc)
  }

  /** Clicking a column makes it the sort key; clicking the current key
      reverses the order; clicking another key sorts descending; clicking the
      same column twice restores the state. */
  lemma HandleSortProperties(state: SortState, key: SortKey)
    ensures HandleSortStep(state, key).key == key
    ensures state.key == key ==> HandleSortStep(state, key).order != state.order
    ensures state.key != key ==> HandleSortStep(state, key).order == Desc
    ensures state.key == key ==> HandleSortStep(HandleSortStep(state, key), key) == state
  {
  }

  /** `aValue < bValue` / `aValue > bValue` on two labels, read through the order. */
  function CompareLabels(order: SortOrder, a: string, b: string): int
  {
    if LessThan(a, b) then (if order == Asc then -1 else 1)
    else if LessThan(b, a) then (if order == Asc then 1 else -1)
    else 0
  }

  /** The comparator passed to `sort`. For `created_at` only the sign of the
      time difference is kept, which is all `sort` looks at. */
  function Compare(key: SortKey, order: SortOrder, a: Ticket, b: Ticket): int
  {
    match key
    case CreatedAt =>
      if order == Asc then CompareTimes(a.createdAt, b.createdAt) else CompareTimes(b.createdAt, a.createdAt)
    case StatusKey => CompareLabels(order, StatusLabel(a.status), StatusLabel(b.status))
    case PriorityKey => CompareLabels(order, PriorityLabel(a.priority), PriorityLabel(b.priority))
  }

  /** Two tickets agree on the sort key. */
  predicate SameKey(key: SortKey, a: Ticket, b: Ticket)
  {
    match key
    case CreatedAt => a.createdAt == b.createdAt
    case StatusKey => a.status == b.status
    case PriorityKey => a.priority == b.priority
  }

  /** "Not greater than" on strings is transitive. */
  lemma NotLessTransitive(a: string, b: string, c: string)
    requires !LessThan(b, a) && !LessThan(c, b)
    ensures !LessThan(c, a)
  {
    if a != b {
      LessThanTotal(a, b);
      LessThanTransitive(c, a, b);
    }
  }

  lemma CompareLabelsOrder(order: SortOrder, a: string, b: string, c: string)
    ensures CompareLabels(order, a, b) == -CompareLabels(order, b, a)
    ensures CompareLabels(order, a, b) == 0 <==> a == b
    ensures CompareLabels(order, a, b) <= 0 && CompareLabels(order, b, c) <= 0 ==> CompareLabels(order, a, c) <= 0
  {
    if LessThan(a, b) { LessThanAsymmetric(a, b); }
    if a == b { LessThanIrreflexive(a); } else { LessThanTotal(a, b); }
    if CompareLabels(order, a, b) <= 0 && CompareLabels(order, b, c) <= 0 {
      if LessThan(b, c) { LessThanAsymmetric(b, c); }
      if order == Asc {
        NotLessTransitive(a, b, c);
      } else {
        NotLessTransitive(c, b, a);
      }
    }
  }

  /** The comparator is consistent: antisymmetric, zero exactly on tickets
      that agree on the key, and transitive. */
  lemma CompareOrder(key: SortKey, order: SortOrder, a: Ticket, b: Ticket, c: Ticket)
    ensures Compare(key, order, a, b) == -Compare(key, order, b, a)
    ensures Compare(key, order, a, b) == 0 <==> SameKey(key, a, b)
    ensures Compare(key, order, a, b) <= 0 && Compare(key, order, b, c) <= 0 ==> Compare(key, order, a, c) <= 0
  {
    match key
    case CreatedAt =>
      CompareTimesOrder(a.createdAt, b.createdAt, c.createdAt);
      CompareTimesOrder(c.createdAt, b.createdAt, a.createdAt);
    case StatusKey =>
      CompareLabelsOrder(order, StatusLabel(a.status), StatusLabel(b.status), StatusLabel(c.status));
      StatusLabelInjective(a.status, b.status);
    case PriorityKey =>
      CompareLabelsOrder(order, PriorityLabel(a.priority), PriorityLabel(b.priority), PriorityLabel(c.priority));
      PriorityLabelInjective(a.priority, b.priority);
  }

  /** Every earlier ticket compares at most equal to every later one. */
  ghost predicate Sorted(key: SortKey, order: SortOrder, s: seq<Ticket>)
  {
    forall i, j :: 0 <= i < j < |s| ==> Compare(key, order, s[i], s[j]) <= 0
  }

  /** Inserts `x` before the first element it does not compare above. */
  function Insert(key: SortKey, order: SortOrder, x: Ticket, s: seq<Ticket>): seq<Ticket>
  {
    if |s| == 0 then [x]
    else if Compare(key, order, x, s[0]) <= 0 then [x] + s
    else [s[0]] + Insert(key, order, x, s[1..])
  }

  /** `sortedTickets`: `[...tickets].sort(comparator)`. */
  function SortTickets(tickets: seq<Ticket>, key: SortKey, order: SortOrder): seq<Ticket>
  {
    if |tickets| == 0 then [] else Insert(key, order, tickets[0], SortTickets(tickets[1..], key, order))
  }

  /** The tickets that agree with `pivot` on the key, in their order. */
  function Ties(s: seq<Ticket>, key: SortKey, pivot: Ticket): seq<Ticket>
  {
    Filter(s, t => SameKey(key, t, pivot))
  }

  lemma {:induction false} InsertPermutation(key: SortKey, order: SortOrder, x: Ticket, s: seq<Ticket>)
    ensures multiset(Insert(key, order, x, s)) == multiset{x} + multiset(s)
  {
    if |s| > 0 && Compare(key, order, x, s[0]) > 0 {
      InsertPermutation(key, order, x, s[1..]);
      MultisetHeadTail(s);
    }
  }

  lemma {:induction false} SortPermutation(tickets: seq<Ticket>, key: SortKey, order: SortOrder)
    ensures multiset(SortTickets(tickets, key, order)) == multiset(tickets)
  {
    if |tickets| > 0 {
      var rest := SortTickets(tickets[1..], key, order);
      SortPermutation(tickets[1..], key, order);
      InsertPermutation(key, order, tickets[0], rest);
      MultisetHeadTail(tickets);
    }
  }

  /** Every ticket of `s` sits at or above `x`, so `[x] + s` stays sorted. */
  lemma InsertFront(key: SortKey, order: SortOrder, x: Ticket, s: seq<Ticket>)
    requires Sorted(key, order, s) && |s| > 0 && Compare(key, order, x, s[0]) <= 0
    ensures Sorted(key, order, [x] + s)
  {
    var r := [x] + s;
    forall j | 1 <= j < |r|
      ensures Compare(key, order, x, r[j]) <= 0
    {
      if j > 1 {
        CompareOrder(key, order, x, s[0], r[j]);
      }
    }
  }

  /** `s[0]` sits at or below everything the insertion into `s[1..]` yields. */
  lemma InsertBelowHead(key: SortKey, order: SortOrder, x: Ticket, s: seq<Ticket>)
    requires Sorted(key, order, s) && |s| > 0 && Compare(key, order, x, s[0]) > 0
    ensures forall j :: 0 <= j < |Insert(key, order, x, s[1..])| ==>
      Compare(key, order, s[0], Insert(key, order, x, s[1..])[j]) <= 0
  {
    var tail := Insert(key, order, x, s[1..]);
    InsertPermutation(key, order, x, s[1..]);
    CompareOrder(key, order, x, s[0], x);
    forall j | 0 <= j < |tail|
      ensures Compare(key, order, s[0], tail[j]) <= 0
    {
      assert tail[j] in multiset(tail);
      if tail[j] != x {
        assert tail[j] in s[1..];
      }
    }
  }

  lemma {:induction false} InsertSorted(key: SortKey, order: SortOrder, x: Ticket, s: seq<Ticket>)
    requires Sorted(key, order, s)
    ensures Sorted(key, order, Insert(key, order, x, s))
  {
    if |s| == 0 {
    } else if Compare(key, order, x, s[0]) <= 0 {
      InsertFront(key, order, x, s);
    } else {
      InsertSorted(key, order, x, s[1..]);
      InsertBelowHead(key, order, x, s);
    }
  }

  lemma {:induction false} SortSorted(tickets: seq<Ticket>, key: SortKey, order: SortOrder)
    ensures Sorted(key, order, SortTickets(tickets, key, order))
  {
    if |tickets| > 0 {
      SortSorted(tickets[1..], key, order);
      InsertSorted(key, order, tickets[0], SortTickets(tickets[1..], key, order));
    }
  }

  /** Inserting `x` puts it in front of every ticket it ties with. */
  lemma {:induction false} InsertTies(key: SortKey, order: SortOrder, x: Ticket, s: seq<Ticket>, pivot: Ticket)
    ensures Ties(Insert(key, order, x, s), key, pivot) ==
      if SameKey(key, x, pivot) then [x] + Ties(s, key, pivot) else Ties(s, key, pivot)
  {
    if |s| > 0 && Compare(key, order, x, s[0]) > 0 {
      InsertTies(key, order, x, s[1..], pivot);
      CompareOrder(key, order, x, s[0], x);
      if SameKey(key, x, pivot) {
        assert !SameKey(key, s[0], pivot);
      }
    }
  }

  lemma {:induction false} SortStable(tickets: seq<Ticket>, key: SortKey, order: SortOrder, pivot: Ticket)
    ensures Ties(SortTickets(tickets, key, order), key, pivot) == Ties(tickets, key, pivot)
  {
    if |tickets| > 0 {
      SortStable(tickets[1..], key, order, pivot);
      InsertTies(key, order, tickets[0], SortTickets(tickets[1..], key, order), pivot);
    }
  }

  /**
   * The sorted copy is a permutation of the input, ordered by the
   * comparator, and tickets that agree on the key keep their input order.
   */
  lemma SortTicketsCorrect(tickets: seq<Ticket>, key: SortKey, order: SortOrder)
    ensures multiset(SortTickets(tickets, key, order)) == multiset(tickets)
    ensures |SortTickets(tickets, key, order)| == |tickets|
    ensures Sorted(key, order, SortTickets(tickets, key, order))
    ensures forall pivot :: Ties(SortTickets(tickets, key, order), key, pivot) == Ties(tickets, key, pivot)
  {
    SortPermutation(tickets, key, order);
    assert |multiset(SortTickets(tickets, key, order))| == |multiset(tickets)|;
    SortSorted(tickets, key, order);
    forall pivot
      ensures Ties(SortTickets(tickets, key, order), key, pivot) == Ties(tickets, key, pivot)
    {
      SortStable(tickets, key, order, pivot);
    }
  }

  /** By creation time: oldest first ascending, newest first descending. */
  lemma SortByCreatedAt(tickets: seq<Ticket>, order: SortOrder)
    ensures var r := SortTickets(tickets, CreatedAt, order);
      forall i, j :: 0 <= i < j < |r| ==>
        if order == Asc then !TimeBefore(r[j].createdAt, r[i].createdAt)
        else !TimeBefore(r[i].createdAt, r[j].createdAt)
  {
    var r := SortTickets(tickets, CreatedAt, order);
    SortSorted(tickets, CreatedAt, order);
    forall i, j | 0 <= i < j < |r|
      ensures if order == Asc then !TimeBefore(r[j].createdAt, r[i].createdAt)
              else !TimeBefore(r[i].createdAt, r[j].createdAt)
    {
      CompareTimesOrder(r[i].createdAt, r[j].createdAt, r[j].createdAt);
    }
  }

  /** No two tickets share a creation time. */
  predicate DistinctTimes(s: seq<Ticket>)
  {
    forall i, j :: 0 <= i < j < |s| ==> s[i].createdAt != s[j].createdAt
  }

  /** Creation times strictly rising (`Asc`) or strictly falling (`Desc`). */
  predicate StrictlyTimed(order: SortOrder, s: seq<Ticket>)
  {
    forall i, j :: 0 <= i < j < |s| ==>
      if order == Asc then TimeBefore(s[i].createdAt, s[j].createdAt)
      else TimeBefore(s[j].createdAt, s[i].createdAt)
  }

  lemma {:induction false} InsertKeepsDistinctTimes(key: SortKey, order: SortOrder, x: Ticket, s: seq<Ticket>)
    requires DistinctTimes(s)
    requires forall i :: 0 <= i < |s| ==> s[i].createdAt != x.createdAt
    ensures DistinctTimes(Insert(key, order, x, s))
  {
    if |s| > 0 && Compare(key, order, x, s[0]) > 0 {
      var tail := Insert(key, order, x, s[1..]);
      InsertKeepsDistinctTimes(key, order, x, s[1..]);
      InsertPermutation(key, order, x, s[1..]);
      forall j | 0 <= j < |tail|
        ensures tail[j].createdAt != s[0].createdAt
      {
        assert tail[j] in multiset(tail);
        if tail[j] != x {
          var k :| 0 <= k < |s[1..]| && s[1..][k] == tail[j];
          assert s[k + 1] == tail[j];
        }
      }
      assert Insert(key, order, x, s) == [s[0]] + tail;
    } else if |s| > 0 {
      assert Insert(key, order, x, s) == [x] + s;
    }
  }

  lemma {:induction false} SortKeepsDistinctTimes(tickets: seq<Ticket>, key: SortKey, order: SortOrder)
    requires DistinctTimes(tickets)
    ensures DistinctTimes(SortTickets(tickets, key, order))
  {
    if |tickets| > 0 {
      var rest := SortTickets(tickets[1..], key, order);
      SortKeepsDistinctTimes(tickets[1..], key, order);
      SortPermutation(tickets[1..], key, order);
      forall i | 0 <= i < |rest|
        ensures rest[i].createdAt != tickets[0].createdAt
      {
        assert rest[i] in multiset(rest);
        var k :| 0 <= k < |tickets[1..]| && tickets[1..][k] == rest[i];
        assert tickets[k + 1] == rest[i];
      }
      InsertKeepsDistinctTimes(key, order, tickets[0], rest);
    }
  }

  lemma StrictlyTimedTail(order: SortOrder, s: seq<Ticket>)
    requires StrictlyTimed(order, s) && |s| > 0
    ensures StrictlyTimed(order, s[1..])
  {
    forall i, j | 0 <= i < j < |s[1..]|
      ensures if order == Asc then TimeBefore(s[1..][i].createdAt, s[1..][j].createdAt)
              else TimeBefore(s[1..][j].createdAt, s[1..][i].createdAt)
    {
      assert s[1..][i] == s[i + 1] && s[1..][j] == s[j + 1];
    }
  }

  /** Reading a strictly rising sequence backwards gives a strictly falling one. */
  lemma ReverseStrictlyTimed(s: seq<Ticket>)
    requires StrictlyTimed(Asc, s)
    ensures StrictlyTimed(Desc, Reverse(s))
  {
    var r := Reverse(s);
    forall i, j | 0 <= i < j < |r|
      ensures TimeBefore(r[j].createdAt, r[i].createdAt)
    {
      assert r[i] == s[|s| - 1 - i] && r[j] == s[|s| - 1 - j];
    }
  }

  /** Of two strictly ordered arrangements of the same tickets, neither can
      start later than the other, so both start with the same ticket. */
  lemma StrictlyTimedSameHead(order: SortOrder, a: seq<Ticket>, b: seq<Ticket>)
    requires multiset(a) == multiset(b) && |a| > 0
    requires StrictlyTimed(order, a) && StrictlyTimed(order, b)
    ensures |b| > 0 && a[0] == b[0]
  {
    assert a[0] in multiset(b);
    var k :| 0 <= k < |b| && b[k] == a[0];
    assert b[0] in multiset(a);
    var j :| 0 <= j < |a| && a[j] == b[0];
    CompareTimesOrder(a[0].createdAt, b[0].createdAt, a[0].createdAt);
    assert k == 0 || j == 0;
  }

  /** Two arrangements of the same tickets, both strictly ordered by
      creation time in the same direction, are the same sequence. */
  lemma {:induction false} StrictlyTimedUnique(order: SortOrder, a: seq<Ticket>, b: seq<Ticket>)
    requires multiset(a) == multiset(b)
    requires StrictlyTimed(order, a) && StrictlyTimed(order, b)
    ensures a == b
  {
    if |a| == 0 {
      assert |b| == |multiset(b)| == 0;
    } else {
      StrictlyTimedSameHead(order, a, b);
      SameTailElements(a, b);
      StrictlyTimedTail(order, a);
      StrictlyTimedTail(order, b);
      StrictlyTimedUnique(order, a[1..], b[1..]);
      HeadTailEqual(a, b);
    }
  }

  /** Without tied creation times the sort is strict in its direction. */
  lemma SortCreatedAtStrict(tickets: seq<Ticket>, order: SortOrder)
    requires DistinctTimes(tickets)
    ensures StrictlyTimed(order, SortTickets(tickets, CreatedAt, order))
  {
    var r := SortTickets(tickets, CreatedAt, order);
    SortKeepsDistinctTimes(tickets, CreatedAt, order);
    SortSorted(tickets, CreatedAt, order);
    forall i, j | 0 <= i < j < |r|
      ensures if order == Asc then TimeBefore(r[i].createdAt, r[j].createdAt)
              else TimeBefore(r[j].createdAt, r[i].createdAt)
    {
      CompareTimesOrder(r[i].createdAt, r[j].createdAt, r[j].createdAt);
      assert r[i].createdAt != r[j].createdAt;
      assert Compare(CreatedAt, order, r[i], r[j]) <= 0;
    }
  }

  /**
   * When no two tickets were created at the same instant, the descending
   * creation-date order is exactly the ascending one read backwards.
   */
  lemma SortCreatedAtDescIsReverse(tickets: seq<Ticket>)
    requires DistinctTimes(tickets)
    ensures SortTickets(tickets, CreatedAt, Desc) == Reverse(SortTickets(tickets, CreatedAt, Asc))
  {
    var asc := SortTickets(tickets, CreatedAt, Asc);
    var desc := SortTickets(tickets, CreatedAt, Desc);
    SortCreatedAtStrict(tickets, Asc);
    SortCreatedAtStrict(tickets, Desc);
    SortPermutation(tickets, CreatedAt, Asc);
    SortPermutation(tickets, CreatedAt, Desc);
    ReverseMultiset(asc);
    ReverseStrictlyTimed(asc);
    StrictlyTimedUnique(Desc, desc, Reverse(asc));
  }

  /** The status and priority labels in plain string order. */
  lemma LabelOrder()
    ensures LessThan("In Progress", "Pending") && LessThan("Pending", "Resolved")
    ensures LessThan("High", "Low") && LessThan("Low", "Medium")
  {
  }

  /**
   * Sorting by priority ascending follows the labels alphabetically, not
   * by urgency: every High comes before every Low, which come before every
   * Medium. Descending gives Medium, Low, High.
   */
  lemma SortByPriorityIsAlphabetical(tickets: seq<Ticket>, order: SortOrder)
    ensures var r := SortTickets(tickets, PriorityKey, order);
      forall i, j :: 0 <= i < j < |r| ==>
        if order == Asc then
          (r[i].priority == Medium ==> r[j].priority == Medium) &&
          (r[i].priority == Low ==> r[j].priority != High)
        else
          (r[i].priority == High ==> r[j].priority == High) &&
          (r[i].priority == Low ==> r[j].priority != Medium)
  {
    var r := SortTickets(tickets, PriorityKey, order);
    SortSorted(tickets, PriorityKey, order);
    LabelOrder();
    LessThanTransitive("High", "Low", "Medium");
    forall i, j | 0 <= i < j < |r|
      ensures if order == Asc then
          (r[i].priority == Medium ==> r[j].priority == Medium) &&
          (r[i].priority == Low ==> r[j].priority != High)
        else
          (r[i].priority == High ==> r[j].priority == High) &&
          (r[i].priority == Low ==> r[j].priority != Medium)
    {
      assert Compare(PriorityKey, order, r[i], r[j]) <= 0;
      LessThanAsymmetric("High", "Low");
      LessThanAsymmetric("Low", "Medium");
      LessThanAsymmetric("High", "Medium");
    }
  }

  /** Sorting by status ascending: In Progress, then Pending, then Resolved. */
  lemma SortByStatusIsAlphabetical(tickets: seq<Ticket>)
    ensures var r := SortTickets(tickets, StatusKey, Asc);
      forall i, j :: 0 <= i < j < |r| ==>
        (r[i].status == Resolved ==> r[j].status == Resolved) &&
        (r[i].status == Pending ==> r[j].status != InProgress)
  {
    var r := SortTickets(tickets, StatusKey, Asc);
    SortSorted(tickets, StatusKey, Asc);
    LabelOrder();
    LessThanTransitive("In Progress", "Pending", "Resolved");
    forall i, j | 0 <= i < j < |r|
      ensures (r[i].status == Resolved ==> r[j].status == Resolved) &&
              (r[i].status == Pending ==> r[j].status != InProgress)
    {
      assert Compare(StatusKey, Asc, r[i], r[j]) <= 0;
      LessThanAsymmetric("In Progress", "Pending");
      LessThanAsymmetric("Pending", "Resolved");
      LessThanAsymmetric("In Progress", "Resolved");
    }
  }

  /** The table component's state: the tickets it is given and the two
      pieces of sort state. */
  class TicketTableView {
    var tickets: seq<Ticket>
    var sortKey: SortKey
    var sortOrder: SortOrder

    /** The table first sorts by creation time, newest first. */
    constructor(tickets: seq<Ticket>)
      ensures this.tickets == tickets
      ensures sortKey == CreatedAt && sortOrder == Desc
    {
      this.tickets := tickets;
      sortKey := CreatedAt;
      sortOrder := Desc;
    }

    function State(): SortState
      reads this
    {
      SortState(sortKey, sortOrder)
    }

    /** `handleSort(key)`. */
    method HandleSort(key: SortKey)
      modifies this
      ensures State() == HandleSortStep(old(State()), key)
      ensures tickets == old(tickets)
      ensures multiset(SortedTickets()) == multiset(tickets)
      ensures Sorted(key, sortOrder, SortedTickets())
    {
      if sortKey == key {
        sortOrder := if sortOrder == Asc then Desc else Asc;
      } else {
        sortKey := key;
        sortOrder := Desc;
      }
      SortTicketsCorrect(tickets, sortKey, sortOrder);
    }

    /** The rows shown, in display order. */
    function SortedTickets(): seq<Ticket>
      reads this
    {
      SortTickets(tickets, sortKey, sortOrder)
    }
  }
}
