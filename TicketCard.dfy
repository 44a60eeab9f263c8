/**
 * The ticket card: the priority and status colour switches, the priority
 * and status labels and the translucent status badge.
 */
module TicketCard {
  import opened Types
  import Theme
  import opened Text

  /** The priority badge colour; the disabled colour is the fallback for strings outside the union. */
  function PriorityColor(priority: string): (r: string)
    ensures r == Theme.Disabled <==> ParseTicketPriority(priority).None?
  {
    if priority == "critical" then Theme.Error
    else if priority == "high" then Theme.Warning
    else if priority == "medium" then Theme.Info
    else if priority == "low" then Theme.Success
    else Theme.Disabled
  }

  /**
   * The status colour. A closed ticket shares the fallback colour with
   * strings outside the status union.
   */
  function StatusColor(status: string): (r: string)
    ensures r == Theme.Disabled <==> ParseTicketStatus(status).None? || ParseTicketStatus(status) == Some(Closed)
  {
    if status == "open" then Theme.Error
    else if status == "in-progress" then Theme.Warning
    else if status == "resolved" then Theme.Success
    else if status == "closed" then Theme.Disabled
    else Theme.Disabled
  }

  /** The priority badge text: all capitals, and the priority itself up to case. */
  function PriorityLabel(priority: string): (r: string)
    ensures |r| == |priority| && NoLower(r)
    ensures ToLower(r) == ToLower(priority)
  {
    ToLowerOfToUpper(priority);
    ToUpper(priority)
  }

  /**
   * The status badge text: the first hyphen becomes a space, then everything
   * is upper-cased. The label is all capitals and as long as the status.
   */
  function StatusLabel(status: string): (r: string)
    ensures |r| == |status| && NoLower(r)
  {
    ToUpper(ReplaceFirst(status, '-', ' '))
  }

  /** The four priorities get four different colours. */
  lemma PriorityColorsDistinct(a: TicketPriority, b: TicketPriority)
    requires a != b
    ensures PriorityColor(TicketPriorityName(a)) != PriorityColor(TicketPriorityName(b))
  {
  }

  /** The four ticket statuses get four different colours. */
  lemma StatusColorsDistinct(a: TicketStatus, b: TicketStatus)
    requires a != b
    ensures StatusColor(TicketStatusName(a)) != StatusColor(TicketStatusName(b))
  {
  }

  /** A hyphen-free status is only upper-cased. */
  lemma StatusLabelWithoutHyphen(status: string)
    requires '-' !in status
    ensures StatusLabel(status) == ToUpper(status)
  {
    ReplaceFirstAbsent(status, '-', ' ');
  }

  /** The one hyphenated status is shown with a space. */
  lemma InProgressLabel()
    ensures StatusLabel(TicketStatusName(InProgress)) == "IN PROGRESS"
  {
    HyphenReplaced();
    SpacedUpper();
  }

  lemma SpacedUpper()
    ensures ToUpper("in progress") == "IN PROGRESS"
  {
    assert ToUpper("in progress") == [UpperChar('i'), UpperChar('n'), UpperChar(' '), UpperChar('p'),
      UpperChar('r'), UpperChar('o'), UpperChar('g'), UpperChar('r'), UpperChar('e'), UpperChar('s'), UpperChar('s')];
  }

  lemma HyphenReplaced()
    ensures ReplaceFirst("in-progress", '-', ' ') == "in progress"
  {
    var before, after := "in", "progress";
    assert '-' !in before;
    assert before + ['-'] + after == "in-progress";
    ReplaceFirstSplit(before, '-', ' ', after);
    assert before + [' '] + after == "in progress";
  }

  /** The other statuses have no hyphen, so their labels are the upper-cased statuses. */
  lemma PlainStatusLabel(status: TicketStatus)
    requires status != InProgress
    ensures StatusLabel(TicketStatusName(status)) == ToUpper(TicketStatusName(status))
  {
    var name := TicketStatusName(status);
    assert forall i :: 0 <= i < |name| ==> name[i] != '-';
    StatusLabelWithoutHyphen(name);
  }

  /** A priority of the union is coloured, and its label lowers back to the priority. */
  lemma KnownPriorityShown(priority: TicketPriority)
    ensures PriorityColor(TicketPriorityName(priority)) != Theme.Disabled
    ensures ToLower(PriorityLabel(TicketPriorityName(priority))) == TicketPriorityName(priority)
  {
    ToUpperRoundTrip(TicketPriorityName(priority));
  }

  /** What the card shows of a ticket's priority and status. */
  datatype TicketCardView = TicketCardView(
    priorityColor: string,
    priorityLabel: string,
    statusBackground: string,
    statusColor: string,
    statusLabel: string)

  function Render(ticket: Ticket): (v: TicketCardView)
    ensures v.priorityColor == PriorityColor(TicketPriorityName(ticket.priority)) != Theme.Disabled
    ensures v.priorityLabel == ToUpper(TicketPriorityName(ticket.priority))
    ensures ToLower(v.priorityLabel) == TicketPriorityName(ticket.priority)
    ensures v.statusBackground == v.statusColor + Theme.TranslucentSuffix
    ensures v.statusColor == StatusColor(TicketStatusName(ticket.status))
    ensures v.statusColor == Theme.Disabled <==> ticket.status == Closed
    ensures v.statusLabel == StatusLabel(TicketStatusName(ticket.status))
    ensures ticket.status == InProgress ==> v.statusLabel == "IN PROGRESS"
    ensures ticket.status != InProgress ==> v.statusLabel == ToUpper(TicketStatusName(ticket.status))
  {
    var priority := TicketPriorityName(ticket.priority);
    var status := TicketStatusName(ticket.status);
    KnownPriorityShown(ticket.priority);
    TicketStatusRoundTrip(ticket.status);
    var view := TicketCardView(
      PriorityColor(priority),
      PriorityLabel(priority),
      StatusColor(status) + Theme.TranslucentSuffix,
      StatusColor(status),
      StatusLabel(status));
    if ticket.status == InProgress then InProgressLabel(); view
    else PlainStatusLabel(ticket.status); view
  }
}
