/**
 * The server-side ticket store (src/app/actions.ts): a module-level array
 * of tickets, read by deep copy and rewritten by `updateTicketStatus`.
 *
 * The artificial delays and the cache revalidation are left out; each
 * action is one atomic step. The wall clock (`new Date()`) is the
 * parameter `now`.
 */
module Actions {
  import opened TicketTypes

  /** The `{ success, message }` object an action returns. */
  datatype ActionResult = ActionResult(success: bool, message: string)

  /** What the `tickets.map` callback returns for one ticket. */
  function Restatus(t: Ticket, id: string, status: Status, now: Timestamp): Ticket
  {
    if t.ticketId == id then t.(status := status, updatedAt := now) else t
  }

  /** The store contents after `tickets = tickets.map(...)`. */
  function ApplyStatus(tickets: seq<Ticket>, id: string, status: Status, now: Timestamp): seq<Ticket>
  {
    seq(|tickets|, i requires 0 <= i < |tickets| => Restatus(tickets[i], id, status, now))
  }

  /** Some ticket in the store carries this id. */
  predicate HasTicket(tickets: seq<Ticket>, id: string)
  {
    exists i :: 0 <= i < |tickets| && tickets[i].ticketId == id
  }

  function SuccessMessage(id: string, status: Status): string
  {
    "Ticket " + id + " status updated to " + StatusLabel(status) + "."
  }

  function NotFoundMessage(id: string): string
  {
    "Ticket " + id + " not found."
  }

  /**
   * The map with its `ticketFound` flag: rewrites every ticket carrying
   * `id` and reports whether there was one.
   */
  method MapStatus(tickets: seq<Ticket>, id: string, status: Status, now: Timestamp)
    returns (updated: seq<Ticket>, found: bool)
    ensures updated == ApplyStatus(tickets, id, status, now)
    ensures found <==> HasTicket(tickets, id)
  {
    updated := [];
    found := false;
    for i := 0 to |tickets|
      invariant |updated| == i
      invariant forall j :: 0 <= j < i ==> updated[j] == Restatus(tickets[j], id, status, now)
      invariant found <==> exists j :: 0 <= j < i && tickets[j].ticketId == id
    {
      var ticket := tickets[i];
      if ticket.ticketId == id {
        found := true;
        updated := updated + [ticket.(status := status, updatedAt := now)];
      } else {
        updated := updated + [ticket];
      }
    }
  }

  /** Every ticket carrying `id` gets the new status and time; none of its
      other fields change; every other ticket is left exactly as it was. */
  lemma ApplyStatusEffect(tickets: seq<Ticket>, id: string, status: Status, now: Timestamp, i: int)
    requires 0 <= i < |tickets|
    ensures |ApplyStatus(tickets, id, status, now)| == |tickets|
    ensures var t, u := tickets[i], ApplyStatus(tickets, id, status, now)[i];
      if t.ticketId == id then
        u.status == status && u.updatedAt == now &&
        u.ticketId == t.ticketId && u.employeeId == t.employeeId &&
        u.employeeName == t.employeeName && u.avatar == t.avatar &&
        u.category == t.category && u.description == t.description &&
        u.createdAt == t.createdAt && u.priority == t.priority
      else u == t
  {
  }

  /** An update of an unknown id leaves the store contents exactly as they were. */
  lemma {:induction false} ApplyStatusUnknownId(tickets: seq<Ticket>, id: string, status: Status, now: Timestamp)
    requires !HasTicket(tickets, id)
    ensures ApplyStatus(tickets, id, status, now) == tickets
  {
    var r := ApplyStatus(tickets, id, status, now);
    forall i | 0 <= i < |tickets|
      ensures r[i] == tickets[i]
    {
      assert tickets[i].ticketId != id;
    }
  }

  /** Applying the same update twice is the same as applying it once. */
  lemma ApplyStatusIdempotent(tickets: seq<Ticket>, id: string, status: Status, now: Timestamp)
    ensures ApplyStatus(ApplyStatus(tickets, id, status, now), id, status, now) ==
            ApplyStatus(tickets, id, status, now)
  {
  }

  /**
   * Rewriting a status never breaks "updated no earlier than created" as
   * long as the clock does not read earlier than any creation time; the
   * store itself does not check this.
   */
  lemma ApplyStatusKeepsTimeOrder(tickets: seq<Ticket>, id: string, status: Status, now: Timestamp)
    requires forall i :: 0 <= i < |tickets| ==> !TimeBefore(tickets[i].updatedAt, tickets[i].createdAt)
    requires forall i :: 0 <= i < |tickets| ==> !TimeBefore(now, tickets[i].createdAt)
    ensures var r := ApplyStatus(tickets, id, status, now);
      forall i :: 0 <= i < |r| ==> !TimeBefore(r[i].updatedAt, r[i].createdAt)
  {
  }

  /** The store. `tickets` is the module-level array; JavaScript's deep
      copies are value semantics here. */
  class TicketStore {
    var tickets: seq<Ticket>

    /** The store starts as a copy of the seed data. */
    constructor(seed: seq<Ticket>)
      ensures tickets == seed
    {
      tickets := seed;
    }

    /** `getTickets`: a snapshot of the contents; later changes to it cannot
        reach the store, because a sequence is a value. */
    method GetTickets() returns (snapshot: seq<Ticket>)
      ensures snapshot == tickets
    {
      snapshot := tickets;
    }

    /** `updateTicketStatus(ticketId, status)` at time `now`. */
    method UpdateTicketStatus(id: string, status: Status, now: Timestamp) returns (result: ActionResult)
      modifies this
      ensures tickets == ApplyStatus(old(tickets), id, status, now)
      ensures |tickets| == |old(tickets)|
      ensures result.success <==> HasTicket(old(tickets), id)
      ensures result.success ==> result.message == SuccessMessage(id, status)
      ensures !result.success ==> result.message == NotFoundMessage(id) && tickets == old(tickets)
    {
      var found;
      tickets, found := MapStatus(tickets, id, status, now);
      if found {
        result := ActionResult(true, SuccessMessage(id, status));
      } else {
        ApplyStatusUnknownId(old(tickets), id, status, now);
        result := ActionResult(false, NotFoundMessage(id));
      }
    }
  }
}
