/**
 * The tickets list: a status filter with an 'all' sentinel and the counts on
 * the filter buttons. There is no text search on this screen, and the filter
 * offers no 'closed' choice. The selected filter and the ticket collection
 * are parameters.
 */
module TicketsScreen {
  import opened Types
  import opened Sequences

  /** The filter choices: 'all', 'open', 'in-progress', 'resolved'. */
  datatype TicketFilter = AllTickets | OpenTickets | InProgressTickets | ResolvedTickets

  /** The status a filter other than 'all' selects. */
  function SelectedStatus(filter: TicketFilter): (status: TicketStatus)
    requires !filter.AllTickets?
    ensures status != Closed
  {
    match filter
    case OpenTickets => Open
    case InProgressTickets => InProgress
    case ResolvedTickets => Resolved
  }

  predicate Selects(filter: TicketFilter, ticket: Ticket) {
    filter.AllTickets? || ticket.status == SelectedStatus(filter)
  }

  function Keeps(filter: TicketFilter): Ticket -> bool {
    (ticket: Ticket) => Selects(filter, ticket)
  }

  function HasStatus(status: TicketStatus): Ticket -> bool {
    (ticket: Ticket) => ticket.status == status
  }

  /** The list shown: the selected tickets in their original order; 'all' keeps the list unchanged. */
  function FilteredTickets(tickets: seq<Ticket>, filter: TicketFilter): (r: seq<Ticket>)
    ensures IsSubsequence(r, tickets)
    ensures forall t :: t in r <==> t in tickets && Selects(filter, t)
    ensures forall t :: multiset(r)[t] == if Selects(filter, t) then multiset(tickets)[t] else 0
    ensures filter.AllTickets? ==> r == tickets
  {
    FilterIsSubsequence(tickets, Keeps(filter));
    forall t ensures multiset(Filter(tickets, Keeps(filter)))[t] == if Selects(filter, t) then multiset(tickets)[t] else 0 {
      FilterMultiplicity(tickets, Keeps(filter), t);
    }
    if filter.AllTickets? then FilterKeepsAll(tickets, Keeps(filter)); Filter(tickets, Keeps(filter))
    else Filter(tickets, Keeps(filter))
  }

  /** The number of tickets with the given status. */
  function CountStatus(tickets: seq<Ticket>, status: TicketStatus): nat {
    Count(tickets, HasStatus(status))
  }

  /** The count on a filter button, computed over the whole list. */
  function FilterCount(tickets: seq<Ticket>, filter: TicketFilter): (n: nat)
    ensures n == if filter.AllTickets? then |tickets| else CountStatus(tickets, SelectedStatus(filter))
  {
    if filter.AllTickets? then |tickets|
    else
      FilterLength(tickets, HasStatus(SelectedStatus(filter)));
      |Filter(tickets, HasStatus(SelectedStatus(filter)))|
  }

  /** Every button's count is the length of the list that button selects. */
  lemma CountIsListLength(tickets: seq<Ticket>, filter: TicketFilter)
    ensures FilterCount(tickets, filter) == |FilteredTickets(tickets, filter)|
  {
    if !filter.AllTickets? {
      FilterCongruent(tickets, Keeps(filter), HasStatus(SelectedStatus(filter)));
    }
  }

  /** A closed ticket is listed only under 'all'. */
  lemma ClosedOnlyUnderAll(tickets: seq<Ticket>, filter: TicketFilter, ticket: Ticket)
    requires ticket in FilteredTickets(tickets, filter) && ticket.status == Closed
    ensures filter == AllTickets
  {
  }

  /**
   * The three status buttons together count every ticket but the closed
   * ones: the 'all' count exceeds their sum by the number of closed tickets.
   */
  lemma {:induction false} CountsMissClosed(tickets: seq<Ticket>)
    ensures FilterCount(tickets, OpenTickets) + FilterCount(tickets, InProgressTickets)
          + FilterCount(tickets, ResolvedTickets) + CountStatus(tickets, Closed)
         == FilterCount(tickets, AllTickets)
  {
    if tickets != [] {
      CountsMissClosed(tickets[1..]);
    }
  }
}
