/**
 * The visible-ticket filter of the dashboard
 * (src/components/dashboard/dashboard.tsx): a status filter followed by a
 * case-insensitive search over the employee name and the ticket id.
 */
module Dashboard {
  import opened TicketTypes
  import opened Text
  import opened Sequences

  /** The status dropdown: `'all'` or one status. */
  datatype StatusFilter = All | Only(status: Status)

  /** The first `.filter`: `statusFilter === 'all' ? true : ticket.status === statusFilter`. */
  predicate StatusMatches(filter: StatusFilter, t: Ticket)
  {
    filter.All? || t.status == filter.status
  }

  /** The second `.filter`: the lower-cased search term occurs in the
      lower-cased employee name or in the lower-cased ticket id. */
  predicate SearchMatches(search: string, t: Ticket)
  {
    Includes(ToLower(t.employeeName), ToLower(search)) ||
    Includes(ToLower(t.ticketId), ToLower(search))
  }

  /** `filteredTickets`: the two chained filters. */
  function FilteredTickets(tickets: seq<Ticket>, search: string, filter: StatusFilter): seq<Ticket>
  {
    Filter(Filter(tickets, t => StatusMatches(filter, t)), t => SearchMatches(search, t))
  }

  /** Both filters at once: a ticket is visible iff it passes each. */
  predicate Visible(search: string, filter: StatusFilter, t: Ticket)
  {
    StatusMatches(filter, t) && SearchMatches(search, t)
  }

  lemma FilteredIsOneFilter(tickets: seq<Ticket>, search: string, filter: StatusFilter)
    ensures FilteredTickets(tickets, search, filter) == Filter(tickets, t => Visible(search, filter, t))
  {
    FilterFilter(tickets, t => StatusMatches(filter, t), t => SearchMatches(search, t),
      t => Visible(search, filter, t));
  }

  /** The result keeps some of the tickets, in their original order. */
  lemma FilteredIsSubsequence(tickets: seq<Ticket>, search: string, filter: StatusFilter)
    ensures IsSubsequence(FilteredTickets(tickets, search, filter), tickets)
  {
    FilteredIsOneFilter(tickets, search, filter);
    FilterIsSubsequence(tickets, t => Visible(search, filter, t));
  }

  /** A ticket is shown, as often as it occurs, exactly when its status
      matches and the search term occurs in its name or id. */
  lemma FilteredKeepsExactlyVisible(tickets: seq<Ticket>, search: string, filter: StatusFilter, t: Ticket)
    ensures t in FilteredTickets(tickets, search, filter) <==>
      t in tickets && StatusMatches(filter, t) &&
      (Includes(ToLower(t.employeeName), ToLower(search)) || Includes(ToLower(t.ticketId), ToLower(search)))
    ensures multiset(FilteredTickets(tickets, search, filter))[t] ==
      if Visible(search, filter, t) then multiset(tickets)[t] else 0
  {
    FilteredIsOneFilter(tickets, search, filter);
    FilterMembership(tickets, t => Visible(search, filter, t), t);
    FilterMultiplicity(tickets, t => Visible(search, filter, t), t);
  }

  /** With a specific status selected, every shown ticket has that status. */
  lemma FilteredHasStatus(tickets: seq<Ticket>, search: string, s: Status)
    ensures forall t :: t in FilteredTickets(tickets, search, Only(s)) ==> t.status == s
  {
    forall t | t in FilteredTickets(tickets, search, Only(s))
      ensures t.status == s
    {
      FilteredKeepsExactlyVisible(tickets, search, Only(s), t);
    }
  }

  /** With `'all'` selected, only the search decides. */
  lemma FilteredAllIsSearchOnly(tickets: seq<Ticket>, search: string)
    ensures FilteredTickets(tickets, search, All) == Filter(tickets, t => SearchMatches(search, t))
  {
    FilterKeepsAll(tickets, t => StatusMatches(All, t));
  }

  /** An empty search with `'all'` shows every ticket, in order. */
  lemma FilteredEmptySearchAll(tickets: seq<Ticket>)
    ensures FilteredTickets(tickets, "", All) == tickets
  {
    FilteredAllIsSearchOnly(tickets, "");
    forall i | 0 <= i < |tickets|
      ensures SearchMatches("", tickets[i])
    {
      IncludesEmpty(ToLower(tickets[i].employeeName));
    }
    FilterKeepsAll(tickets, t => SearchMatches("", t));
  }

  /** Searching a term or its upper-cased form shows the same tickets. */
  lemma FilteredIgnoresCase(tickets: seq<Ticket>, search: string, filter: StatusFilter)
    ensures FilteredTickets(tickets, ToUpper(search), filter) == FilteredTickets(tickets, search, filter)
  {
    LowerOfUpper(search);
    var kept := Filter(tickets, t => StatusMatches(filter, t));
    FilterCongruence(kept, t => SearchMatches(ToUpper(search), t), t => SearchMatches(search, t));
  }
}
