/** The interactive loop of the ticket viewer: a menu read from the keyboard,
    the two API requests it leads to, and the one piece of state it keeps,
    whether a page number is asked for before listing tickets. */
module Viewer {
  import opened Wrappers
  import opened PyInt
  import opened Tickets
  import opened Config

  /** The helpdesk as the loop sees it: the answer to a list request for a
      page, and to a request for one ticket, `None` when the request fails. */
  datatype Api = Api(
    listTickets: (map<string, string>, int) -> Option<PageResult>,
    ticketById: (map<string, string>, int) -> Option<TicketDetail>)

  /** What the user sees and which requests are made, in order. */
  datatype Event =
    | Welcome                       // "Welcome to the ticket viewer!"
    | ConfigRejected(reason: ConfigError)
    | ShowMenu                      // the menu and the choice prompt
    | AskPage                       // "Enter page number (leave blank for first page): "
    | BadPageNumber                 // "Error: page number must be an integer."
    | ListRequested(page: int)      // a list request for this page
    | ListFailed                    // "Error: could not connect to the API endpoint."
    | ListReceived(count: int)      // the list request answered with this total count
    | PageShown(view: PageView)
    | AskTicketId                   // "Enter ticket ID: "
    | BadTicketId                   // "Error: ticket ID must be an integer."
    | TicketRequested(id: int)      // a request for this ticket
    | TicketNotFound                // "Error: ticket not found."
    | TicketShown(ticket: TicketDetail)
    | Goodbye                       // "Thanks for using the ticket viewer! Goodbye."
    | InputClosed                   // input ended while a line was awaited

  /** The page number typed at the page prompt: a line that strips to
      nothing (see StripSpec) means the first page. */
  function ParsePage(line: string): Option<int>
  {
    if AllSpace(line) then Some(1) else ParseInt(line)
  }

  /** The loop from the top, with the given pagination flag and the lines
      still to be typed: the menu, then the choice. */
  function Session(api: Api, config: map<string, string>, pagination: bool, input: seq<string>): seq<Event>
    decreases |input|, 2
  {
    [ShowMenu] + if |input| == 0 then [InputClosed] else Choice(api, config, pagination, input)
  }

  /** The loop once the menu is shown and `input[0]` is the choice typed. */
  function Choice(api: Api, config: map<string, string>, pagination: bool, input: seq<string>): seq<Event>
    requires |input| > 0
    decreases |input|, 1
  {
    var choice := input[0];
    if choice == "quit" then [Goodbye]
    else if choice == "1" then ListPrompt(api, config, pagination, input[1..])
    else if choice == "2" then TicketPrompt(api, config, pagination, input[1..])
    else Session(api, config, pagination, input[1..])
  }

  /** After choice "1": the page to list is 1, or, when the flag is on, the
      number typed next (blank meaning 1); a line that is no number is
      rejected without a request. */
  function ListPrompt(api: Api, config: map<string, string>, pagination: bool, rest: seq<string>): seq<Event>
    decreases |rest|, 4
  {
    if !pagination then
      ListThen(api, config, pagination, 1, rest)
    else if |rest| == 0 then
      [AskPage, InputClosed]
    else
      match ParsePage(rest[0])
      case None => [AskPage, BadPageNumber] + Session(api, config, pagination, rest[1..])
      case Some(page) => [AskPage] + ListThen(api, config, pagination, page, rest[1..])
  }

  /** After choice "2": the ticket ID typed next; a line that is no number is
      rejected without a request. */
  function TicketPrompt(api: Api, config: map<string, string>, pagination: bool, rest: seq<string>): seq<Event>
    decreases |rest|, 4
  {
    if |rest| == 0 then
      [AskTicketId, InputClosed]
    else
      match ParseInt(rest[0])
      case None => [AskTicketId, BadTicketId] + Session(api, config, pagination, rest[1..])
      case Some(id) => [AskTicketId] + TicketThen(api, config, pagination, id, rest[1..])
  }

  /** The list request for `page`, what its answer shows, and the loop after it
      with the flag updated from the answer. */
  function ListThen(api: Api, config: map<string, string>, pagination: bool, page: int, rest: seq<string>): seq<Event>
    decreases |rest|, 3
  {
    match api.listTickets(config, page)
    case None =>
      [ListRequested(page), ListFailed] + Session(api, config, pagination, rest)
    case Some(data) =>
      [ListRequested(page), ListReceived(data.count), PageShown(PageViewOf(data, page))] +
      Session(api, config, data.count > TicketsPerPage, rest)
  }

  /** The request for ticket `id`, what its answer shows, and the loop after it. */
  function TicketThen(api: Api, config: map<string, string>, pagination: bool, id: int, rest: seq<string>): seq<Event>
    decreases |rest|, 3
  {
    match api.ticketById(config, id)
    case None => [TicketRequested(id), TicketNotFound] + Session(api, config, pagination, rest)
    case Some(ticket) => [TicketRequested(id), TicketShown(ticket)] + Session(api, config, pagination, rest)
  }

  /** The whole program: greeting, config check, then the loop with the flag off. */
  function Run(api: Api, file: ConfigFile, input: seq<string>): seq<Event>
  {
    [Welcome] +
    match LoadConfig(file)
    case Failure(reason) => [ConfigRejected(reason)]
    case Success(config) => Session(api, config, false, input)
  }

  lemma AppendAssociative<T>(a: seq<T>, b: seq<T>, c: seq<T>)
    ensures a + (b + c) == a + b + c
  {
  }

  /** A list request for `page`, and the page displayed when it succeeds;
      the flag becomes "more than one page of tickets" on success and is kept
      on failure. */
  method ShowPage(api: Api, config: map<string, string>, pagination: bool, page: int, ghost rest: seq<string>)
    returns (events: seq<Event>, flag: bool)
    ensures flag == match api.listTickets(config, page)
                    case Some(data) => data.count > TicketsPerPage
                    case None => pagination
    ensures ListThen(api, config, pagination, page, rest) == events + Session(api, config, flag, rest)
  {
    events, flag := [ListRequested(page)], pagination;
    var data := api.listTickets(config, page);
    if data.Some? {
      flag := data.value.count > TicketsPerPage;
      events := events + [ListReceived(data.value.count)];
      var view := DisplayTickets(data.value, page);
      events := events + [PageShown(view)];
    } else {
      events := events + [ListFailed];
    }
  }

  /** A request for ticket `id`, and the ticket displayed when it succeeds. */
  method ShowTicket(api: Api, config: map<string, string>, id: int, ghost pagination: bool, ghost rest: seq<string>)
    returns (events: seq<Event>)
    ensures TicketThen(api, config, pagination, id, rest) == events + Session(api, config, pagination, rest)
  {
    events := [TicketRequested(id)];
    var ticket := api.ticketById(config, id);
    if ticket.Some? {
      events := events + [TicketShown(ticket.value)];
    } else {
      events := events + [TicketNotFound];
    }
  }

  /** Choice "1" was read with the flag on, and the next line, at `pos`, is
      the page number: blank means page 1, anything else must be an integer. */
  method PageChoice(api: Api, config: map<string, string>, input: seq<string>, pos: nat)
    returns (events: seq<Event>, next: nat, flag: bool, stop: bool)
    requires pos <= |input|
    ensures pos <= next <= |input|
    ensures ListPrompt(api, config, true, input[pos..])
         == events + if stop then [] else Session(api, config, flag, input[next..])
  {
    ghost var rest := input[pos..];
    next, flag, stop := pos, true, false;
    if next == |input| {
      events, stop := [AskPage, InputClosed], true;
      return;
    }
    var typed := ParsePage(input[next]);
    assert rest[0] == input[next] && rest[1..] == input[next + 1..];
    next := next + 1;
    if typed.None? {
      events := [AskPage, BadPageNumber];
      return;
    }
    var shown;
    shown, flag := ShowPage(api, config, true, typed.value, input[next..]);
    AppendAssociative([AskPage], shown, Session(api, config, flag, input[next..]));
    events := [AskPage] + shown;
  }

  /** Choice "1" was read, and the next line is at `pos`: with the flag off
      the first page is listed, with it on the page number is read first. */
  method ListChoice(api: Api, config: map<string, string>, pagination: bool, input: seq<string>, pos: nat)
    returns (events: seq<Event>, next: nat, flag: bool, stop: bool)
    requires pos <= |input|
    ensures pos <= next <= |input|
    ensures ListPrompt(api, config, pagination, input[pos..])
         == events + if stop then [] else Session(api, config, flag, input[next..])
  {
    if pagination {
      events, next, flag, stop := PageChoice(api, config, input, pos);
    } else {
      events, flag := ShowPage(api, config, pagination, 1, input[pos..]);
      next, stop := pos, false;
    }
  }

  /** Choice "2" was read, and the next line is at `pos`: read a ticket ID
      and request that ticket. */
  method TicketChoice(api: Api, config: map<string, string>, pagination: bool, input: seq<string>, pos: nat)
    returns (events: seq<Event>, next: nat, stop: bool)
    requires pos <= |input|
    ensures pos <= next <= |input|
    ensures TicketPrompt(api, config, pagination, input[pos..])
         == events + if stop then [] else Session(api, config, pagination, input[next..])
  {
    ghost var rest := input[pos..];
    next, stop := pos, false;
    if next == |input| {
      events, stop := [AskTicketId, InputClosed], true;
      return;
    }
    var typed := ParseInt(input[next]);
    assert rest[0] == input[next] && rest[1..] == input[next + 1..];
    next := next + 1;
    if typed.None? {
      events := [AskTicketId, BadTicketId];
      return;
    }
    var shown := ShowTicket(api, config, typed.value, pagination, input[next..]);
    AppendAssociative([AskTicketId], shown, Session(api, config, pagination, input[next..]));
    events := [AskTicketId] + shown;
  }

  /** One pass of the loop body, from the choice at `pos`. */
  method MenuChoice(api: Api, config: map<string, string>, pagination: bool, input: seq<string>, pos: nat)
    returns (events: seq<Event>, next: nat, flag: bool, stop: bool)
    requires pos < |input|
    ensures pos < next <= |input|
    ensures Choice(api, config, pagination, input[pos..])
         == events + if stop then [] else Session(api, config, flag, input[next..])
  {
    var choice := input[pos];
    assert input[pos..][0] == choice && input[pos..][1..] == input[pos + 1..];
    events, next, flag, stop := [], pos + 1, pagination, false;
    if choice == "quit" {
      events, stop := [Goodbye], true;
    } else if choice == "1" {
      events, next, flag, stop := ListChoice(api, config, pagination, input, pos + 1);
    } else if choice == "2" {
      events, next, stop := TicketChoice(api, config, pagination, input, pos + 1);
    }
  }

  /** The `while True` loop of main, with the pagination flag starting off. */
  method MenuLoop(api: Api, config: map<string, string>, input: seq<string>) returns (trace: seq<Event>)
    ensures trace == Session(api, config, false, input)
  {
    trace := [];
    var pagination := false;
    var pos := 0;
    var running := true;
    assert input[pos..] == input;
    while running
      invariant 0 <= pos <= |input|
      invariant running ==> Session(api, config, false, input) == trace + Session(api, config, pagination, input[pos..])
      invariant !running ==> Session(api, config, false, input) == trace
      decreases |input| - pos + (if running then 1 else 0)
    {
      ghost var before := trace;
      trace := trace + [ShowMenu];
      if pos == |input| {
        assert input[pos..] == [];
        trace := trace + [InputClosed];
        running := false;
      } else {
        ghost var flag := pagination;
        var events, next, stop;
        events, next, pagination, stop := MenuChoice(api, config, pagination, input, pos);
        ghost var later: seq<Event> := if stop then [] else Session(api, config, pagination, input[next..]);
        assert Session(api, config, flag, input[pos..]) == [ShowMenu] + (events + later);
        AppendAssociative(before, [ShowMenu], events + later);
        AppendAssociative(before + [ShowMenu], events, later);
        trace := trace + events;
        pos := next;
        running := !stop;
      }
    }
  }

  /** The program's entry point: greet, load the config, and run the menu
      loop when it is valid. */
  method TicketViewer(api: Api, file: ConfigFile, input: seq<string>) returns (trace: seq<Event>)
    ensures trace == Run(api, file, input)
  {
    trace := [Welcome];
    var loaded := LoadConfig(file);
    if loaded.Failure? {
      trace := trace + [ConfigRejected(loaded.error)];
      return;
    }
    var session := MenuLoop(api, loaded.value, input);
    trace := trace + session;
  }
}
