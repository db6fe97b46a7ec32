/**
 * The data behind the 3-D status pie chart
 * (src/components/dashboard/ticket-status-pie-chart-3d.tsx): one slice per
 * status that has tickets, in the order Pending, In Progress, Resolved.
 * The WebGL drawing is not modelled.
 */
module StatusPieChart {
  import opened TicketTypes
  import opened Sequences
  import opened StatsCards

  /** One `{ status, count }` entry of `data`. */
  datatype Slice = Slice(status: Status, count: nat)

  /** The position of a status among the keys of `counts` (its insertion order). */
  function EntryRank(s: Status): nat
  {
    match s
    case Pending => 0
    case InProgress => 1
    case Resolved => 2
  }

  /** The `counts` record after the `forEach` loop: one counter per status,
      each starting at 0 and raised once per ticket with that status. */
  method CountByStatus(tickets: seq<Ticket>) returns (counts: map<Status, nat>)
    ensures forall s: Status :: s in counts && counts[s] == CountStatus(tickets, s)
  {
    counts := map[Pending := 0, InProgress := 0, Resolved := 0];
    forall s: Status
      ensures s in counts && counts[s] == CountStatus(tickets[..0], s)
    {
      assert tickets[..0] == [];
      match s
      case Pending =>
      case InProgress =>
      case Resolved =>
    }
    for i := 0 to |tickets|
      invariant forall s: Status :: s in counts && counts[s] == CountStatus(tickets[..i], s)
    {
      var status := tickets[i].status;
      assert tickets[..i + 1] == tickets[..i] + [tickets[i]];
      forall s: Status
        ensures CountStatus(tickets[..i + 1], s) == CountStatus(tickets[..i], s) + if status == s then 1 else 0
      {
        CountStatusAppend(tickets[..i], tickets[i], s);
      }
      counts := counts[status := counts[status] + 1];
    }
    assert tickets[..|tickets|] == tickets;
  }

  /** `Object.entries(counts).map(...)`: the three entries in key order. */
  function Entries(counts: map<Status, nat>): seq<Slice>
    requires forall s: Status :: s in counts
  {
    [Slice(Pending, counts[Pending]), Slice(InProgress, counts[InProgress]), Slice(Resolved, counts[Resolved])]
  }

  /** `.filter(item => item.count > 0)`. */
  function NonEmptySlices(entries: seq<Slice>): seq<Slice>
  {
    Filter(entries, (e: Slice) => e.count > 0)
  }

  function TotalCount(slices: seq<Slice>): nat
  {
    if |slices| == 0 then 0 else slices[0].count + TotalCount(slices[1..])
  }

  /** Dropping empty slices does not change the total. */
  lemma {:induction false} NonEmptyTotal(entries: seq<Slice>)
    ensures TotalCount(NonEmptySlices(entries)) == TotalCount(entries)
  {
    if |entries| > 0 {
      NonEmptyTotal(entries[1..]);
    }
  }

  /** `counts` holds, for every status, the number of tickets with it. */
  predicate Counted(tickets: seq<Ticket>, counts: map<Status, nat>)
  {
    forall s: Status :: s in counts && counts[s] == CountStatus(tickets, s)
  }

  /** The three entries together count every ticket once. */
  lemma EntriesTotal(tickets: seq<Ticket>, counts: map<Status, nat>)
    requires Counted(tickets, counts)
    ensures TotalCount(Entries(counts)) == |tickets|
  {
    var entries := Entries(counts);
    StatusCountsPartition(tickets);
    assert TotalCount(entries[2..]) == counts[Resolved];
    assert TotalCount(entries[1..]) == counts[InProgress] + counts[Resolved] by {
      assert entries[1..][1..] == entries[2..];
    }
  }

  /** A status keeps its slice exactly when some ticket has it, and every
      kept slice carries its status's count. */
  lemma NonEmptySlicesExact(tickets: seq<Ticket>, counts: map<Status, nat>)
    requires Counted(tickets, counts)
    ensures var data := NonEmptySlices(Entries(counts));
      (forall i :: 0 <= i < |data| ==> data[i].count > 0 && data[i].count == CountStatus(tickets, data[i].status)) &&
      (forall s: Status :: CountStatus(tickets, s) > 0 <==> exists i :: 0 <= i < |data| && data[i].status == s)
  {
    var entries := Entries(counts);
    var data := NonEmptySlices(entries);
    forall s: Status
      ensures CountStatus(tickets, s) > 0 <==> exists i :: 0 <= i < |data| && data[i].status == s
    {
      var e := Slice(s, counts[s]);
      assert e == entries[EntryRank(s)];
      FilterMembership(entries, (e: Slice) => e.count > 0, e);
      if exists i :: 0 <= i < |data| && data[i].status == s {
        var i :| 0 <= i < |data| && data[i].status == s;
        FilterMembership(entries, (e: Slice) => e.count > 0, data[i]);
      }
    }
    forall i | 0 <= i < |data|
      ensures data[i].count == CountStatus(tickets, data[i].status)
    {
      FilterMembership(entries, (e: Slice) => e.count > 0, data[i]);
    }
  }

  /** The chart's `data` memo. */
  method PieData(tickets: seq<Ticket>) returns (data: seq<Slice>)
    ensures forall i :: 0 <= i < |data| ==> data[i].count > 0 && data[i].count == CountStatus(tickets, data[i].status)
    ensures forall i, j :: 0 <= i < j < |data| ==> EntryRank(data[i].status) < EntryRank(data[j].status)
    ensures forall s: Status :: CountStatus(tickets, s) > 0 <==> exists i :: 0 <= i < |data| && data[i].status == s
    ensures TotalCount(data) == |tickets|
    ensures data == [] <==> tickets == []
    ensures Renders(data) <==> |tickets| > 0
  {
    var counts := CountByStatus(tickets);
    var entries := Entries(counts);
    data := NonEmptySlices(entries);
    NonEmptyTotal(entries);
    EntriesTotal(tickets, counts);
    NonEmptySlicesExact(tickets, counts);
    FilterIsSubsequence(entries, (e: Slice) => e.count > 0);
    SlicesInEntryOrder(entries, data);
  }

  /** A subsequence of the three entries lists the statuses in entry order. */
  lemma SlicesInEntryOrder(entries: seq<Slice>, data: seq<Slice>)
    requires |entries| == 3
    requires entries[0].status == Pending && entries[1].status == InProgress && entries[2].status == Resolved
    requires IsSubsequence(data, entries)
    ensures forall i, j :: 0 <= i < j < |data| ==> EntryRank(data[i].status) < EntryRank(data[j].status)
  {
    SubsequenceRanks(data, entries);
  }

  /** Slices taken, in order, from a list with strictly increasing ranks
      have strictly increasing ranks. */
  lemma {:induction false} SubsequenceRanks(data: seq<Slice>, entries: seq<Slice>)
    requires forall i, j :: 0 <= i < j < |entries| ==> EntryRank(entries[i].status) < EntryRank(entries[j].status)
    requires IsSubsequence(data, entries)
    ensures forall i :: 0 <= i < |data| ==> data[i] in entries
    ensures forall i, j :: 0 <= i < j < |data| ==> EntryRank(data[i].status) < EntryRank(data[j].status)
    decreases |entries|
  {
    if |data| > 0 {
      if data[0] == entries[0] && IsSubsequence(data[1..], entries[1..]) {
        SubsequenceRanks(data[1..], entries[1..]);
        forall j | 1 <= j < |data|
          ensures EntryRank(data[0].status) < EntryRank(data[j].status)
        {
          assert data[j] == data[1..][j - 1];
          var k :| 0 <= k < |entries[1..]| && entries[1..][k] == data[j];
          assert entries[k + 1] == data[j];
        }
        forall i | 0 <= i < |data|
          ensures data[i] in entries
        {
          if i > 0 {
            assert data[i] == data[1..][i - 1];
          }
        }
      } else {
        SubsequenceRanks(data, entries[1..]);
      }
    }
  }

  /** The chart draws nothing when `data` is empty. */
  predicate Renders(data: seq<Slice>)
  {
    |data| > 0
  }
}
