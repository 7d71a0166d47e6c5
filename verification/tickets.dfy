/** How a page of tickets is shown: the row of each ticket, with long subjects
    cut short, and the summary line that places the page among all tickets. */
module Tickets {
  import opened PyInt

  /** Tickets asked for per list request, and so per displayed page. */
  const TicketsPerPage: nat := 25
  /** Longest subject shown as it is. */
  const MaxSubjectLength: nat := 60
  /** Characters of a longer subject kept in front of the ellipsis. */
  const KeptSubjectLength: nat := 57
  const Ellipsis: string := "..."

  /** A ticket as the list endpoint returns it (only the fields shown). */
  datatype Ticket = Ticket(id: int, subject: string, status: string, priority: string)

  /** A ticket as the single-ticket endpoint returns it. */
  datatype TicketDetail = TicketDetail(id: int, subject: string, status: string, priority: string, description: string)

  /** One page of the list endpoint: its tickets and the total number of tickets. */
  datatype PageResult = PageResult(tickets: seq<Ticket>, count: int)

  /** One row of the ticket table. */
  datatype Row = Row(id: int, subject: string, status: string, priority: string)

  /** The numbers of the line "Viewing tickets {start}-{end} (page {page} of {totalPages})". */
  datatype Summary = Summary(start: int, end: int, page: int, totalPages: int)

  /** What is displayed for a page: the "No tickets found." notice, or the table
      followed by its summary line. */
  datatype PageView = NoTickets | Table(rows: seq<Row>, summary: Summary)

  /** The subject as it appears in the table. */
  function Truncate(subject: string): (shown: string)
    ensures |shown| <= MaxSubjectLength
    ensures |subject| <= MaxSubjectLength ==> shown == subject
    ensures |subject| > MaxSubjectLength ==>
      |shown| == MaxSubjectLength &&
      shown[..KeptSubjectLength] == subject[..KeptSubjectLength] &&
      shown[KeptSubjectLength..] == Ellipsis
  {
    if |subject| > MaxSubjectLength then subject[..KeptSubjectLength] + Ellipsis else subject
  }

  /** Truncating a shown subject again changes nothing. */
  lemma TruncateIdempotent(subject: string)
    ensures Truncate(Truncate(subject)) == Truncate(subject)
  {
  }

  /** Number of pages needed for `count` tickets: the ceiling of count / 25. */
  function TotalPages(count: int): (pages: int)
    ensures (pages - 1) * TicketsPerPage < count <= pages * TicketsPerPage
  {
    (count + TicketsPerPage - 1) / TicketsPerPage
  }

  /** The ceiling is the only page count that neither leaves tickets over
      nor has a page to spare. */
  lemma TotalPagesUnique(count: int, pages: int)
    requires (pages - 1) * TicketsPerPage < count <= pages * TicketsPerPage
    ensures pages == TotalPages(count)
  {
  }

  lemma TotalPagesExamples()
    ensures TotalPages(0) == 0
    ensures TotalPages(1) == 1
    ensures TotalPages(25) == 1
    ensures TotalPages(26) == 2
  {
  }

  /** More tickets than fit one page is the same as more than one page. */
  lemma SeveralPagesIff(count: int)
    ensures count > TicketsPerPage <==> TotalPages(count) > 1
  {
  }

  /** Number of the first ticket on `page`, counting from 1. */
  function StartTicket(page: int): int
  {
    (page - 1) * TicketsPerPage + 1
  }

  /** Number of the last ticket on `page`. */
  function EndTicket(page: int): int
  {
    StartTicket(page) + TicketsPerPage - 1
  }

  /** Each page spans 25 numbers and begins right after the page before it. */
  lemma PagesTile(page: int)
    ensures EndTicket(page) - StartTicket(page) + 1 == TicketsPerPage
    ensures StartTicket(1) == 1 && EndTicket(1) == TicketsPerPage
    ensures EndTicket(page) + 1 == StartTicket(page + 1)
  {
  }

  /** Ticket number `n` is in the range of exactly one page. */
  lemma TicketOnOnePage(n: int, page: int)
    requires n >= 1
    ensures StartTicket(page) <= n <= EndTicket(page) <==> page == (n - 1) / TicketsPerPage + 1
  {
  }

  /** The last page reaches the last ticket. */
  lemma LastPageHoldsLastTicket(count: int)
    requires count > 0
    ensures StartTicket(TotalPages(count)) <= count <= EndTicket(TotalPages(count))
  {
  }

  function SummaryOf(count: int, page: int): Summary
  {
    Summary(StartTicket(page), EndTicket(page), page, TotalPages(count))
  }

  /** The summary line as printed. */
  function SummaryText(s: Summary): string
  {
    "Viewing tickets " + FormatInt(s.start) + "-" + FormatInt(s.end) +
    " (page " + FormatInt(s.page) + " of " + FormatInt(s.totalPages) + ")"
  }

  function RowOf(t: Ticket): Row
  {
    Row(t.id, Truncate(t.subject), t.status, t.priority)
  }

  /** What displaying `data` as page `page` shows. */
  function PageViewOf(data: PageResult, page: int): (view: PageView)
    ensures view.NoTickets? <==> data.tickets == []
    ensures view.Table? ==> |view.rows| == |data.tickets| && view.summary == SummaryOf(data.count, page)
  {
    if |data.tickets| == 0 then NoTickets
    else Table(seq(|data.tickets|, i requires 0 <= i < |data.tickets| => RowOf(data.tickets[i])),
               SummaryOf(data.count, page))
  }

  /** Row `i` shows ticket `i`: the same id, status and priority, and its
      subject either whole or cut to 57 characters and an ellipsis. */
  lemma RowShowsTicket(data: PageResult, page: int, i: int)
    requires 0 <= i < |data.tickets|
    ensures var view := PageViewOf(data, page);
      var t := data.tickets[i];
      view.Table? &&
      view.rows[i].id == t.id && view.rows[i].status == t.status && view.rows[i].priority == t.priority &&
      |view.rows[i].subject| <= MaxSubjectLength &&
      (if |t.subject| <= MaxSubjectLength then view.rows[i].subject == t.subject
       else view.rows[i].subject == t.subject[..KeptSubjectLength] + Ellipsis)
  {
  }

  /** The summary line of the first page of a single ticket. */
  lemma SummaryTextExample()
    ensures SummaryText(SummaryOf(1, 1)) == "Viewing tickets 1-25 (page 1 of 1)"
  {
  }

  /** display_tickets: the table is built one row per ticket, in order. */
  method DisplayTickets(data: PageResult, page: int) returns (view: PageView)
    ensures view == PageViewOf(data, page)
  {
    if |data.tickets| == 0 {
      return NoTickets;
    }
    var table: seq<Row> := [];
    for k := 0 to |data.tickets|
      invariant |table| == k
      invariant forall i :: 0 <= i < k ==> table[i] == RowOf(data.tickets[i])
    {
      var ticket := data.tickets[k];
      table := table + [Row(ticket.id, Truncate(ticket.subject), ticket.status, ticket.priority)];
    }
    view := Table(table, SummaryOf(data.count, page));
  }
}
