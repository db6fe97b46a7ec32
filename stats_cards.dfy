/**
 * The four summary cards (src/components/dashboard/stats-cards.tsx): the
 * total number of tickets and the number in each status.
 */
module StatsCards {
  import opened TicketTypes
  import opened Sequences

  /** `tickets.filter(t => t.status === s).length`. */
  function CountStatus(tickets: seq<Ticket>, s: Status): (n: nat)
    ensures n <= |tickets|
  {
    |Filter(tickets, (t: Ticket) => t.status == s)|
  }

  /** One card: its title and its number. */
  datatype Stat = Stat(title: string, value: nat)

  /** The three status counts add up to the total, since a ticket has
      exactly one of the three statuses. */
  lemma {:induction false} StatusCountsPartition(tickets: seq<Ticket>)
    ensures CountStatus(tickets, Resolved) + CountStatus(tickets, Pending) +
            CountStatus(tickets, InProgress) == |tickets|
  {
    if |tickets| > 0 {
      StatusCountsPartition(tickets[1..]);
    }
  }

  /** Appending one ticket adds one to its own status count and to no other. */
  lemma CountStatusAppend(tickets: seq<Ticket>, t: Ticket, s: Status)
    ensures CountStatus(tickets + [t], s) == CountStatus(tickets, s) + if t.status == s then 1 else 0
  {
    FilterAppend(tickets, [t], (u: Ticket) => u.status == s);
  }

  /** `stats`: Total, Resolved, Pending and In Progress, in that order. */
  function Stats(tickets: seq<Ticket>): (cards: seq<Stat>)
    ensures |cards| == 4
    ensures cards[0].title == "Total Tickets" && cards[0].value == |tickets|
    ensures cards[1].title == "Resolved" && cards[2].title == "Pending" && cards[3].title == "In Progress"
    ensures cards[1].value == CountStatus(tickets, Resolved)
    ensures cards[2].value == CountStatus(tickets, Pending)
    ensures cards[3].value == CountStatus(tickets, InProgress)
    ensures cards[1].value + cards[2].value + cards[3].value == cards[0].value
    ensures forall i :: 1 <= i < 4 ==> cards[i].value <= cards[0].value
  {
    StatusCountsPartition(tickets);
    [ Stat("Total Tickets", |tickets|),
      Stat("Resolved", CountStatus(tickets, Resolved)),
      Stat("Pending", CountStatus(tickets, Pending)),
      Stat("In Progress", CountStatus(tickets, InProgress)) ]
  }
}
