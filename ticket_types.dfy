/**
 * The ticket record shared by every part of the dashboard
 * (src/types/index.ts): three statuses, three priorities and the
 * ten-field ticket.
 *
 * Timestamps are ISO strings in the source. Here a timestamp is the
 * calendar month it falls in together with its offset (in milliseconds)
 * from the start of that month, which is all the dashboard ever looks at:
 * the chronological order of two timestamps and the (year, month) key.
 */
module TicketTypes {

  datatype Status = Pending | InProgress | Resolved

  datatype Priority = High | Medium | Low

  /** The string the source stores in the `status` field. */
  function StatusLabel(s: Status): string
  {
    match s
    case Pending => "Pending"
    case InProgress => "In Progress"
    case Resolved => "Resolved"
  }

  /** The string the source stores in the `priority` field. */
  function PriorityLabel(p: Priority): string
  {
    match p
    case High => "High"
    case Medium => "Medium"
    case Low => "Low"
  }

  type Month = m: int | 1 <= m <= 12 witness 1

  /** A calendar month: the key the trends chart groups by ("MMM yyyy"). */
  datatype YearMonth = YearMonth(year: int, month: Month)

  /** A point in time: its calendar month and the milliseconds elapsed in it. */
  datatype Timestamp = Timestamp(yearMonth: YearMonth, offset: nat)

  datatype Ticket = Ticket(
    ticketId: string,
    employeeId: string,
    employeeName: string,
    avatar: string,
    category: string,
    description: string,
    status: Status,
    createdAt: Timestamp,
    updatedAt: Timestamp,
    priority: Priority)

  /** Strict chronological order of calendar months. */
  predicate MonthBefore(a: YearMonth, b: YearMonth)
  {
    a.year < b.year || (a.year == b.year && a.month < b.month)
  }

  /** The sign of `a.getTime() - b.getTime()`: -1, 0 or 1. */
  function CompareTimes(a: Timestamp, b: Timestamp): int
  {
    if MonthBefore(a.yearMonth, b.yearMonth) then -1
    else if MonthBefore(b.yearMonth, a.yearMonth) then 1
    else if a.offset < b.offset then -1
    else if b.offset < a.offset then 1
    else 0
  }

  /** Strict chronological order of timestamps. */
  predicate TimeBefore(a: Timestamp, b: Timestamp)
  {
    CompareTimes(a, b) < 0
  }

  lemma StatusLabelInjective(s: Status, t: Status)
    ensures StatusLabel(s) == StatusLabel(t) <==> s == t
  {
    if s != t {
      assert StatusLabel(s)[0] != StatusLabel(t)[0];
    }
  }

  lemma PriorityLabelInjective(p: Priority, q: Priority)
    ensures PriorityLabel(p) == PriorityLabel(q) <==> p == q
  {
    if p != q {
      assert PriorityLabel(p)[0] != PriorityLabel(q)[0];
    }
  }

  /** CompareTimes is a total order: antisymmetric, zero exactly on equal
      timestamps, and transitive. */
  lemma CompareTimesOrder(a: Timestamp, b: Timestamp, c: Timestamp)
    ensures CompareTimes(a, b) == -CompareTimes(b, a)
    ensures CompareTimes(a, b) == 0 <==> a == b
    ensures CompareTimes(a, b) <= 0 && CompareTimes(b, c) <= 0 ==> CompareTimes(a, c) <= 0
  {
  }
}
