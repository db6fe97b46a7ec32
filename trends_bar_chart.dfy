/**
 * The data behind the monthly trends bar chart
 * (src/components/dashboard/ticket-trends-bar-chart.tsx): tickets grouped
 * by the calendar month they were created in, months in chronological
 * order, and only the last six kept.
 *
 * The "MMM yyyy" dictionary key and the "MMM" bar label are the calendar
 * month itself here; their text is not modelled.
 */
module TrendsBarChart {
  import opened TicketTypes
  import opened Sequences

  /** One bar: a month and its number of tickets. */
  datatype MonthTotal = MonthTotal(month: YearMonth, total: nat)

  /** `.slice(-6)`: the chart shows at most six months. */
  const MaxMonths: nat := 6

  function MonthOf(t: Ticket): YearMonth
  {
    t.createdAt.yearMonth
  }

  /** The number of tickets created in month `m`. */
  function CountMonth(tickets: seq<Ticket>, m: YearMonth): nat
  {
    |Filter(tickets, (t: Ticket) => MonthOf(t) == m)|
  }

  /** The months in which some ticket was created. */
  function MonthsOf(tickets: seq<Ticket>): set<YearMonth>
  {
    set i | 0 <= i < |tickets| :: MonthOf(tickets[i])
  }

  function KeySet(keys: seq<YearMonth>): set<YearMonth>
  {
    set i | 0 <= i < |keys| :: keys[i]
  }

  function MonthSet(series: seq<MonthTotal>): set<YearMonth>
  {
    set i | 0 <= i < |series| :: series[i].month
  }

  predicate Distinct(keys: seq<YearMonth>)
  {
    forall i, j :: 0 <= i < j < |keys| ==> keys[i] != keys[j]
  }

  /** Strictly increasing months. */
  predicate Chronological(keys: seq<YearMonth>)
  {
    forall i, j :: 0 <= i < j < |keys| ==> MonthBefore(keys[i], keys[j])
  }

  /** The sum of the counters of `keys`. */
  function SumOver(keys: seq<YearMonth>, counts: map<YearMonth, nat>): nat
    requires forall i :: 0 <= i < |keys| ==> keys[i] in counts
  {
    if |keys| == 0 then 0 else counts[keys[0]] + SumOver(keys[1..], counts)
  }

  lemma {:induction false} SumOverAppend(keys: seq<YearMonth>, m: YearMonth, counts: map<YearMonth, nat>)
    requires forall i :: 0 <= i < |keys| ==> keys[i] in counts
    requires m in counts
    ensures SumOver(keys + [m], counts) == SumOver(keys, counts) + counts[m]
  {
    if |keys| > 0 {
      assert (keys + [m])[1..] == keys[1..] + [m];
      SumOverAppend(keys[1..], m, counts);
    }
  }

  /** Changing the counter of a month not among `keys` leaves their sum alone. */
  lemma {:induction false} SumOverUpdateAbsent(keys: seq<YearMonth>, counts: map<YearMonth, nat>, m: YearMonth, v: nat)
    requires forall i :: 0 <= i < |keys| ==> keys[i] in counts && keys[i] != m
    ensures SumOver(keys, counts[m := v]) == SumOver(keys, counts)
  {
    if |keys| > 0 {
      SumOverUpdateAbsent(keys[1..], counts, m, v);
    }
  }

  /** Raising the counter of a month listed once among `keys` raises their sum by one. */
  lemma {:induction false} SumOverIncrement(keys: seq<YearMonth>, counts: map<YearMonth, nat>, m: YearMonth)
    requires forall i :: 0 <= i < |keys| ==> keys[i] in counts
    requires Distinct(keys) && m in counts && m in keys
    ensures SumOver(keys, counts[m := counts[m] + 1]) == SumOver(keys, counts) + 1
  {
    if keys[0] == m {
      SumOverUpdateAbsent(keys[1..], counts, m, counts[m] + 1);
    } else {
      SumOverIncrement(keys[1..], counts, m);
    }
  }

  lemma CountMonthAppend(tickets: seq<Ticket>, t: Ticket, m: YearMonth)
    ensures CountMonth(tickets + [t], m) == CountMonth(tickets, m) + if MonthOf(t) == m then 1 else 0
  {
    FilterAppend(tickets, [t], (u: Ticket) => MonthOf(u) == m);
  }

  /** A month has a ticket exactly when some ticket was created in it. */
  lemma CountMonthPositive(tickets: seq<Ticket>, m: YearMonth)
    ensures CountMonth(tickets, m) >= 1 <==> m in MonthsOf(tickets)
  {
    var p := (t: Ticket) => MonthOf(t) == m;
    if m in MonthsOf(tickets) {
      var i :| 0 <= i < |tickets| && MonthOf(tickets[i]) == m;
      FilterMembership(tickets, p, tickets[i]);
    }
    if CountMonth(tickets, m) >= 1 {
      var u := Filter(tickets, p)[0];
      FilterMembership(tickets, p, u);
      var i :| 0 <= i < |tickets| && tickets[i] == u;
    }
  }

  /** `monthly` and its key order `keys` hold exactly the per-month counts of `prefix`. */
  ghost predicate Tallied(prefix: seq<Ticket>, monthly: map<YearMonth, nat>, keys: seq<YearMonth>)
  {
    && monthly.Keys == MonthsOf(prefix)
    && (forall m :: m in monthly ==> monthly[m] == CountMonth(prefix, m))
    && Distinct(keys) && KeySet(keys) == monthly.Keys
    && (forall i :: 0 <= i < |keys| ==> keys[i] in monthly)
    && SumOver(keys, monthly) == |prefix|
  }

  lemma MonthsOfAppend(prefix: seq<Ticket>, t: Ticket)
    ensures MonthsOf(prefix + [t]) == MonthsOf(prefix) + {MonthOf(t)}
  {
    assert forall i :: 0 <= i < |prefix| ==> (prefix + [t])[i] == prefix[i];
    assert (prefix + [t])[|prefix|] == t;
  }

  /** One more ticket raises its month's counter to that month's new count
      and leaves every other counter right. */
  lemma CountersStep(prefix: seq<Ticket>, t: Ticket, monthly: map<YearMonth, nat>, monthly': map<YearMonth, nat>)
    requires monthly.Keys == MonthsOf(prefix)
    requires forall m :: m in monthly ==> monthly[m] == CountMonth(prefix, m)
    requires monthly' == monthly[MonthOf(t) := CountMonth(prefix, MonthOf(t)) + 1]
    ensures monthly'.Keys == MonthsOf(prefix + [t])
    ensures forall x :: x in monthly' ==> monthly'[x] == CountMonth(prefix + [t], x)
  {
    MonthsOfAppend(prefix, t);
    forall x | x in monthly'
      ensures monthly'[x] == CountMonth(prefix + [t], x)
    {
      CountMonthAppend(prefix, t, x);
    }
  }

  lemma PrefixStep(tickets: seq<Ticket>, n: nat)
    requires n < |tickets|
    ensures tickets[..n + 1] == tickets[..n] + [tickets[n]]
  {
  }

  /** Raising the counter of a month already in the dictionary keeps the key
      order in step with it and adds one to the sum. */
  lemma KeysIncrement(keys: seq<YearMonth>, monthly: map<YearMonth, nat>, m: YearMonth)
    requires Distinct(keys) && KeySet(keys) == monthly.Keys
    requires forall i :: 0 <= i < |keys| ==> keys[i] in monthly
    requires m in monthly
    ensures KeySet(keys) == monthly[m := monthly[m] + 1].Keys
    ensures forall i :: 0 <= i < |keys| ==> keys[i] in monthly[m := monthly[m] + 1]
    ensures SumOver(keys, monthly[m := monthly[m] + 1]) == SumOver(keys, monthly) + 1
  {
    assert m in KeySet(keys);
    SumOverIncrement(keys, monthly, m);
  }

  /** Counting one more ticket of a month already in the dictionary. */
  lemma TallyExisting(tickets: seq<Ticket>, n: nat, monthly: map<YearMonth, nat>, keys: seq<YearMonth>)
    requires n < |tickets|
    requires Tallied(tickets[..n], monthly, keys) && MonthOf(tickets[n]) in monthly
    ensures Tallied(tickets[..n + 1], monthly[MonthOf(tickets[n]) := monthly[MonthOf(tickets[n])] + 1], keys)
  {
    var prefix, t := tickets[..n], tickets[n];
    PrefixStep(tickets, n);
    var m := MonthOf(t);
    CountersStep(prefix, t, monthly, monthly[m := monthly[m] + 1]);
    KeysIncrement(keys, monthly, m);
  }

  /** Appending a month new to the dictionary, with counter 1, keeps the key
      order duplicate-free and in step with the dictionary, and adds one to
      the sum. */
  lemma KeysAppendNew(keys: seq<YearMonth>, monthly: map<YearMonth, nat>, m: YearMonth)
    requires Distinct(keys) && KeySet(keys) == monthly.Keys
    requires forall i :: 0 <= i < |keys| ==> keys[i] in monthly
    requires m !in monthly
    ensures Distinct(keys + [m]) && KeySet(keys + [m]) == monthly[m := 1].Keys
    ensures forall i :: 0 <= i < |keys + [m]| ==> (keys + [m])[i] in monthly[m := 1]
    ensures SumOver(keys + [m], monthly[m := 1]) == SumOver(keys, monthly) + 1
  {
    var monthly', keys' := monthly[m := 1], keys + [m];
    assert forall i :: 0 <= i < |keys| ==> keys[i] != m;
    assert forall i :: 0 <= i < |keys| ==> keys'[i] == keys[i];
    assert keys'[|keys|] == m;
    assert KeySet(keys') == KeySet(keys) + {m};
    SumOverUpdateAbsent(keys, monthly, m, 1);
    SumOverAppend(keys, m, monthly');
  }

  /** Counting the first ticket of a new month: the key is appended. */
  lemma TallyNew(tickets: seq<Ticket>, n: nat, monthly: map<YearMonth, nat>, keys: seq<YearMonth>)
    requires n < |tickets|
    requires Tallied(tickets[..n], monthly, keys) && MonthOf(tickets[n]) !in monthly
    ensures Tallied(tickets[..n + 1], monthly[MonthOf(tickets[n]) := 0][MonthOf(tickets[n]) := 1], keys + [MonthOf(tickets[n])])
  {
    var prefix, t := tickets[..n], tickets[n];
    PrefixStep(tickets, n);
    var m := MonthOf(t);
    assert monthly[m := 0][m := 1] == monthly[m := 1];
    CountMonthPositive(prefix, m);
    CountersStep(prefix, t, monthly, monthly[m := 1]);
    KeysAppendNew(keys, monthly, m);
    assert |prefix + [t]| == |prefix| + 1;
  }

  /**
   * The `forEach` callback: creates the month's counter at 0 on its first
   * ticket and raises it by one; a new month's key goes to the end of the
   * dictionary's key order.
   */
  method AddTicket(tickets: seq<Ticket>, n: nat, monthly: map<YearMonth, nat>, keys: seq<YearMonth>)
    returns (monthly': map<YearMonth, nat>, keys': seq<YearMonth>)
    requires n < |tickets| && Tallied(tickets[..n], monthly, keys)
    ensures Tallied(tickets[..n + 1], monthly', keys')
  {
    var month := MonthOf(tickets[n]);
    monthly', keys' := monthly, keys;
    if month !in monthly' {
      TallyNew(tickets, n, monthly, keys);
      monthly' := monthly'[month := 0];
      keys' := keys' + [month];
    } else {
      TallyExisting(tickets, n, monthly, keys);
    }
    monthly' := monthly'[month := monthly'[month] + 1];
  }

  /**
   * The `forEach` loop filling `monthlyData`. `keys` is the dictionary's
   * key order (insertion order).
   */
  method MonthlyCounts(tickets: seq<Ticket>) returns (monthly: map<YearMonth, nat>, keys: seq<YearMonth>)
    ensures monthly.Keys == MonthsOf(tickets)
    ensures forall m :: m in monthly ==> monthly[m] == CountMonth(tickets, m)
    ensures Distinct(keys) && KeySet(keys) == monthly.Keys
    ensures forall i :: 0 <= i < |keys| ==> keys[i] in monthly
    ensures SumOver(keys, monthly) == |tickets|
  {
    monthly := map[];
    keys := [];
    for n := 0 to |tickets|
      invariant Tallied(tickets[..n], monthly, keys)
    {
      monthly, keys := AddTicket(tickets, n, monthly, keys);
    }
    assert tickets[..|tickets|] == tickets;
  }

  /** Inserts `m` before the first later month. */
  function InsertMonth(m: YearMonth, keys: seq<YearMonth>): seq<YearMonth>
  {
    if |keys| == 0 then [m]
    else if MonthBefore(m, keys[0]) then [m] + keys
    else [keys[0]] + InsertMonth(m, keys[1..])
  }

  /** `Object.keys(monthlyData).sort(...)` by the time of each month's start. */
  function SortMonths(keys: seq<YearMonth>): seq<YearMonth>
  {
    if |keys| == 0 then [] else InsertMonth(keys[0], SortMonths(keys[1..]))
  }

  lemma {:induction false} InsertMonthPermutation(m: YearMonth, keys: seq<YearMonth>)
    ensures multiset(InsertMonth(m, keys)) == multiset{m} + multiset(keys)
  {
    if |keys| > 0 && !MonthBefore(m, keys[0]) {
      InsertMonthPermutation(m, keys[1..]);
      MultisetHeadTail(keys);
    }
  }

  lemma {:induction false} InsertMonthChronological(m: YearMonth, keys: seq<YearMonth>)
    requires Chronological(keys) && m !in keys
    ensures Chronological(InsertMonth(m, keys))
  {
    if |keys| > 0 && !MonthBefore(m, keys[0]) {
      var tail := InsertMonth(m, keys[1..]);
      InsertMonthChronological(m, keys[1..]);
      InsertMonthPermutation(m, keys[1..]);
      assert m != keys[0];
      forall j | 0 <= j < |tail|
        ensures MonthBefore(keys[0], tail[j])
      {
        assert tail[j] in multiset(tail);
        if tail[j] != m {
          var k :| 0 <= k < |keys[1..]| && keys[1..][k] == tail[j];
          assert keys[k + 1] == tail[j];
        }
      }
    } else if |keys| > 0 {
      forall j | 1 <= j < |keys|
        ensures MonthBefore(m, keys[j])
      {
      }
    }
  }

  lemma {:induction false} InsertMonthSum(m: YearMonth, keys: seq<YearMonth>, counts: map<YearMonth, nat>)
    requires m in counts && forall i :: 0 <= i < |keys| ==> keys[i] in counts
    ensures forall i :: 0 <= i < |InsertMonth(m, keys)| ==> InsertMonth(m, keys)[i] in counts
    ensures SumOver(InsertMonth(m, keys), counts) == counts[m] + SumOver(keys, counts)
  {
    InsertMonthPermutation(m, keys);
    forall i | 0 <= i < |InsertMonth(m, keys)|
      ensures InsertMonth(m, keys)[i] in counts
    {
      var x := InsertMonth(m, keys)[i];
      assert x in multiset(InsertMonth(m, keys));
      if x != m {
        assert x in multiset(keys);
      }
    }
    if |keys| > 0 && !MonthBefore(m, keys[0]) {
      InsertMonthSum(m, keys[1..], counts);
    } else if |keys| > 0 {
      assert ([m] + keys)[1..] == keys;
    }
  }

  /** Sorting distinct months puts them in chronological order without
      losing, duplicating or recounting any. */
  lemma {:induction false} SortMonthsCorrect(keys: seq<YearMonth>, counts: map<YearMonth, nat>)
    requires Distinct(keys)
    requires forall i :: 0 <= i < |keys| ==> keys[i] in counts
    ensures multiset(SortMonths(keys)) == multiset(keys)
    ensures Chronological(SortMonths(keys))
    ensures forall i :: 0 <= i < |SortMonths(keys)| ==> SortMonths(keys)[i] in counts
    ensures SumOver(SortMonths(keys), counts) == SumOver(keys, counts)
  {
    if |keys| > 0 {
      var rest := SortMonths(keys[1..]);
      SortMonthsCorrect(keys[1..], counts);
      InsertMonthPermutation(keys[0], rest);
      MultisetHeadTail(keys);
      assert keys[0] !in rest by {
        assert keys[0] !in multiset(keys[1..]);
      }
      InsertMonthChronological(keys[0], rest);
      InsertMonthSum(keys[0], rest, counts);
    }
  }

  lemma {:induction false} DistinctCardinality(keys: seq<YearMonth>)
    requires Distinct(keys)
    ensures |KeySet(keys)| == |keys|
  {
    if |keys| > 0 {
      DistinctCardinality(keys[1..]);
      assert KeySet(keys) == {keys[0]} + KeySet(keys[1..]) by {
        forall x | x in KeySet(keys) ensures x in {keys[0]} + KeySet(keys[1..]) {
          var i :| 0 <= i < |keys| && keys[i] == x;
          if i > 0 { assert keys[1..][i - 1] == x; }
        }
      }
    }
  }

  /** `sortedMonths.map(month => ({ name, total }))`. */
  function Series(keys: seq<YearMonth>, counts: map<YearMonth, nat>): seq<MonthTotal>
    requires forall i :: 0 <= i < |keys| ==> keys[i] in counts
  {
    seq(|keys|, i requires 0 <= i < |keys| => MonthTotal(keys[i], counts[keys[i]]))
  }

  function Total(series: seq<MonthTotal>): nat
  {
    if |series| == 0 then 0 else series[0].total + Total(series[1..])
  }

  lemma {:induction false} SeriesTotal(keys: seq<YearMonth>, counts: map<YearMonth, nat>)
    requires forall i :: 0 <= i < |keys| ==> keys[i] in counts
    ensures Total(Series(keys, counts)) == SumOver(keys, counts)
  {
    if |keys| > 0 {
      SeriesTotal(keys[1..], counts);
      assert Series(keys, counts)[1..] == Series(keys[1..], counts);
    }
  }

  /** `.slice(-6)`: the last six entries, or all of them if there are fewer. */
  function LastMonths(series: seq<MonthTotal>): seq<MonthTotal>
  {
    var start := |series| - MaxMonths;
    series[if start > 0 then start else 0..]
  }

  /** Two sequences holding the same months, as often, have the same length and set. */
  lemma PermutationKeySet(a: seq<YearMonth>, b: seq<YearMonth>)
    requires multiset(a) == multiset(b)
    ensures KeySet(a) == KeySet(b) && |a| == |b|
  {
    assert |multiset(a)| == |multiset(b)|;
    forall x
      ensures x in KeySet(a) <==> x in KeySet(b)
    {
      assert x in KeySet(a) <==> x in multiset(a);
      assert x in KeySet(b) <==> x in multiset(b);
    }
  }

  lemma SeriesMonths(keys: seq<YearMonth>, counts: map<YearMonth, nat>)
    requires forall i :: 0 <= i < |keys| ==> keys[i] in counts
    ensures MonthSet(Series(keys, counts)) == KeySet(keys)
  {
    var series := Series(keys, counts);
    assert forall i :: 0 <= i < |series| ==> series[i].month == keys[i];
  }

  /** The whole monthly series before the last-six cut. */
  method MonthlySeries(tickets: seq<Ticket>) returns (series: seq<MonthTotal>)
    ensures forall i, j :: 0 <= i < j < |series| ==> MonthBefore(series[i].month, series[j].month)
    ensures forall i :: 0 <= i < |series| ==>
      series[i].total == CountMonth(tickets, series[i].month) && series[i].total >= 1
    ensures MonthSet(series) == MonthsOf(tickets)
    ensures |series| == |MonthsOf(tickets)|
    ensures Total(series) == |tickets|
  {
    var monthly, keys := MonthlyCounts(tickets);
    var sorted := SortMonths(keys);
    SortMonthsCorrect(keys, monthly);
    series := Series(sorted, monthly);
    SeriesTotal(sorted, monthly);
    PermutationKeySet(sorted, keys);
    SeriesMonths(sorted, monthly);
    DistinctCardinality(keys);
    forall i | 0 <= i < |series|
      ensures series[i].total == CountMonth(tickets, series[i].month) && series[i].total >= 1
    {
      assert sorted[i] in KeySet(sorted);
      CountMonthPositive(tickets, sorted[i]);
    }
  }

  /** The cut keeps the tail of the series: at most six entries, the last
      ones, and all of them when there are at most six. */
  lemma LastMonthsTail(series: seq<MonthTotal>)
    ensures var data := LastMonths(series);
      && |data| == (if |series| < MaxMonths then |series| else MaxMonths)
      && (forall i :: 0 <= i < |data| ==> data[i] == series[|series| - |data| + i])
      && MonthSet(data) <= MonthSet(series)
      && (|series| <= MaxMonths ==> data == series)
  {
    var data := LastMonths(series);
    var start := |series| - |data|;
    assert data == series[start..];
    forall i | 0 <= i < |data|
      ensures data[i] == series[start + i] && data[i].month in MonthSet(series)
    {
      assert series[start + i].month in MonthSet(series);
    }
  }

  /** On a chronological series the cut stays chronological, and every month
      it drops is earlier than the first month it keeps. */
  lemma LastMonthsLatest(series: seq<MonthTotal>)
    requires forall i, j :: 0 <= i < j < |series| ==> MonthBefore(series[i].month, series[j].month)
    ensures var data := LastMonths(series);
      && (forall i, j :: 0 <= i < j < |data| ==> MonthBefore(data[i].month, data[j].month))
      && (forall m :: m in MonthSet(series) && m !in MonthSet(data) ==> |data| > 0 && MonthBefore(m, data[0].month))
  {
    var data := LastMonths(series);
    var start := |series| - |data|;
    assert data == series[start..];
    forall i, j | 0 <= i < j < |data|
      ensures MonthBefore(data[i].month, data[j].month)
    {
      assert data[i] == series[start + i] && data[j] == series[start + j];
    }
    forall i | start <= i < |series|
      ensures series[i].month in MonthSet(data)
    {
      assert data[i - start] == series[i];
    }
    forall m | m in MonthSet(series) && m !in MonthSet(data)
      ensures |data| > 0 && MonthBefore(m, data[0].month)
    {
      var k :| 0 <= k < |series| && series[k].month == m;
      assert k < start;
      assert data[0] == series[start];
    }
  }

  /** The chart's `data` memo. */
  method TrendData(tickets: seq<Ticket>) returns (data: seq<MonthTotal>)
    ensures |data| <= MaxMonths
    ensures |data| == if |MonthsOf(tickets)| < MaxMonths then |MonthsOf(tickets)| else MaxMonths
    ensures forall i, j :: 0 <= i < j < |data| ==> MonthBefore(data[i].month, data[j].month)
    ensures forall i :: 0 <= i < |data| ==>
      data[i].total == CountMonth(tickets, data[i].month) && data[i].total >= 1
    ensures MonthSet(data) <= MonthsOf(tickets)
    ensures forall m :: m in MonthsOf(tickets) && m !in MonthSet(data) ==>
      |data| > 0 && MonthBefore(m, data[0].month)
    ensures |MonthsOf(tickets)| <= MaxMonths ==> MonthSet(data) == MonthsOf(tickets)
  {
    var series := MonthlySeries(tickets);
    data := LastMonths(series);
    LastMonthsTail(series);
    LastMonthsLatest(series);
  }
}
