/** What the menu loop promises, stated over the trace of events it produces. */
module ViewerFacts {
  import opened Wrappers
  import opened PyInt
  import opened Tickets
  import opened Config
  import opened Viewer

  /** The pagination flag as the trace so far has set it: off at the start,
      then "more than one page" for the count of the latest list answer. */
  function Paginated(t: seq<Event>): bool
    decreases |t|
  {
    if t == [] then false
    else match t[|t| - 1]
      case ListReceived(count) => count > TicketsPerPage
      case _ => Paginated(t[..|t| - 1])
  }

  /** Event `e`, coming after the trace `before`, agrees with the flag: the
      page prompt comes straight after the menu and only with the flag on; a
      list request comes after the page prompt when the flag is on, and
      straight after the menu, for page 1, when it is off. */
  predicate StepFollowsFlag(before: seq<Event>, e: Event)
  {
    (e == AskPage ==> Paginated(before) && |before| > 0 && before[|before| - 1] == ShowMenu) &&
    (e.ListRequested? ==>
      |before| > 0 &&
      if Paginated(before) then before[|before| - 1] == AskPage
      else before[|before| - 1] == ShowMenu && e.page == 1)
  }

  /** Every event of `t` agrees with the flag set by the events before it. */
  predicate PromptsFollowFlag(t: seq<Event>)
    decreases |t|
  {
    t == [] || (PromptsFollowFlag(t[..|t| - 1]) && StepFollowsFlag(t[..|t| - 1], t[|t| - 1]))
  }

  /** Appending one event: the flag moves only on a list answer, and the
      trace stays in agreement exactly when the new event does. */
  lemma Snoc(t: seq<Event>, e: Event)
    ensures Paginated(t + [e]) == if e.ListReceived? then e.count > TicketsPerPage else Paginated(t)
    ensures PromptsFollowFlag(t + [e]) <==> PromptsFollowFlag(t) && StepFollowsFlag(t, e)
  {
  }

  /** A trace in agreement with flag `pagination`, extended by the loop from
      the top, stays in agreement. */
  lemma {:induction false} SessionFollows(api: Api, config: map<string, string>, pagination: bool, input: seq<string>, p: seq<Event>)
    requires PromptsFollowFlag(p) && Paginated(p) == pagination
    ensures PromptsFollowFlag(p + Session(api, config, pagination, input))
    decreases |input|, 2
  {
    var q := p + [ShowMenu];
    Snoc(p, ShowMenu);
    if |input| == 0 {
      Snoc(q, InputClosed);
      AppendAssociative(p, [ShowMenu], [InputClosed]);
    } else {
      ChoiceFollows(api, config, pagination, input, q);
      AppendAssociative(p, [ShowMenu], Choice(api, config, pagination, input));
    }
  }

  lemma {:induction false} ChoiceFollows(api: Api, config: map<string, string>, pagination: bool, input: seq<string>, p: seq<Event>)
    requires |input| > 0
    requires PromptsFollowFlag(p) && Paginated(p) == pagination
    requires |p| > 0 && p[|p| - 1] == ShowMenu
    ensures PromptsFollowFlag(p + Choice(api, config, pagination, input))
    decreases |input|, 1
  {
    var choice := input[0];
    if choice == "quit" {
      Snoc(p, Goodbye);
    } else if choice == "1" {
      ListPromptFollows(api, config, pagination, input[1..], p);
    } else if choice == "2" {
      TicketPromptFollows(api, config, pagination, input[1..], p);
    } else {
      SessionFollows(api, config, pagination, input[1..], p);
    }
  }

  lemma {:induction false} ListPromptFollows(api: Api, config: map<string, string>, pagination: bool, rest: seq<string>, p: seq<Event>)
    requires PromptsFollowFlag(p) && Paginated(p) == pagination
    requires |p| > 0 && p[|p| - 1] == ShowMenu
    ensures PromptsFollowFlag(p + ListPrompt(api, config, pagination, rest))
    decreases |rest|, 4
  {
    if !pagination {
      ListThenFollows(api, config, pagination, 1, rest, p);
    } else {
      var q := p + [AskPage];
      Snoc(p, AskPage);
      if |rest| == 0 {
        Snoc(q, InputClosed);
        assert p + [AskPage, InputClosed] == q + [InputClosed];
      } else {
        match ParsePage(rest[0])
        case None =>
          Snoc(q, BadPageNumber);
          SessionFollows(api, config, pagination, rest[1..], q + [BadPageNumber]);
          AppendAssociative(p, [AskPage, BadPageNumber], Session(api, config, pagination, rest[1..]));
          assert p + [AskPage, BadPageNumber] == q + [BadPageNumber];
        case Some(page) =>
          ListThenFollows(api, config, pagination, page, rest[1..], q);
          AppendAssociative(p, [AskPage], ListThen(api, config, pagination, page, rest[1..]));
      }
    }
  }

  lemma {:induction false} TicketPromptFollows(api: Api, config: map<string, string>, pagination: bool, rest: seq<string>, p: seq<Event>)
    requires PromptsFollowFlag(p) && Paginated(p) == pagination
    requires |p| > 0 && p[|p| - 1] == ShowMenu
    ensures PromptsFollowFlag(p + TicketPrompt(api, config, pagination, rest))
    decreases |rest|, 4
  {
    var q := p + [AskTicketId];
    Snoc(p, AskTicketId);
    if |rest| == 0 {
      Snoc(q, InputClosed);
      assert p + [AskTicketId, InputClosed] == q + [InputClosed];
    } else {
      match ParseInt(rest[0])
      case None =>
        Snoc(q, BadTicketId);
        SessionFollows(api, config, pagination, rest[1..], q + [BadTicketId]);
        AppendAssociative(p, [AskTicketId, BadTicketId], Session(api, config, pagination, rest[1..]));
        assert p + [AskTicketId, BadTicketId] == q + [BadTicketId];
      case Some(id) =>
        TicketThenFollows(api, config, pagination, id, rest[1..], q);
        AppendAssociative(p, [AskTicketId], TicketThen(api, config, pagination, id, rest[1..]));
    }
  }

  lemma {:induction false} ListThenFollows(api: Api, config: map<string, string>, pagination: bool, page: int, rest: seq<string>, p: seq<Event>)
    requires PromptsFollowFlag(p) && Paginated(p) == pagination
    requires |p| > 0
    requires if pagination then p[|p| - 1] == AskPage else p[|p| - 1] == ShowMenu && page == 1
    ensures PromptsFollowFlag(p + ListThen(api, config, pagination, page, rest))
    decreases |rest|, 3
  {
    var q := p + [ListRequested(page)];
    Snoc(p, ListRequested(page));
    match api.listTickets(config, page)
    case None =>
      Snoc(q, ListFailed);
      SessionFollows(api, config, pagination, rest, q + [ListFailed]);
      AppendAssociative(p, [ListRequested(page), ListFailed], Session(api, config, pagination, rest));
      assert p + [ListRequested(page), ListFailed] == q + [ListFailed];
    case Some(data) =>
      var shown := [ListRequested(page), ListReceived(data.count), PageShown(PageViewOf(data, page))];
      Snoc(q, ListReceived(data.count));
      Snoc(q + [ListReceived(data.count)], PageShown(PageViewOf(data, page)));
      assert p + shown == q + [ListReceived(data.count)] + [PageShown(PageViewOf(data, page))];
      SessionFollows(api, config, data.count > TicketsPerPage, rest, p + shown);
      AppendAssociative(p, shown, Session(api, config, data.count > TicketsPerPage, rest));
  }

  lemma {:induction false} TicketThenFollows(api: Api, config: map<string, string>, pagination: bool, id: int, rest: seq<string>, p: seq<Event>)
    requires PromptsFollowFlag(p) && Paginated(p) == pagination
    ensures PromptsFollowFlag(p + TicketThen(api, config, pagination, id, rest))
    decreases |rest|, 3
  {
    var q := p + [TicketRequested(id)];
    Snoc(p, TicketRequested(id));
    match api.ticketById(config, id)
    case None =>
      Snoc(q, TicketNotFound);
      SessionFollows(api, config, pagination, rest, q + [TicketNotFound]);
      AppendAssociative(p, [TicketRequested(id), TicketNotFound], Session(api, config, pagination, rest));
      assert p + [TicketRequested(id), TicketNotFound] == q + [TicketNotFound];
    case Some(ticket) =>
      Snoc(q, TicketShown(ticket));
      SessionFollows(api, config, pagination, rest, q + [TicketShown(ticket)]);
      AppendAssociative(p, [TicketRequested(id), TicketShown(ticket)], Session(api, config, pagination, rest));
      assert p + [TicketRequested(id), TicketShown(ticket)] == q + [TicketShown(ticket)];
  }

  /** The whole program: the page prompt appears, and a list request follows
      it, exactly when the latest list answer counted more than 25 tickets;
      otherwise "1" lists page 1 with no prompt. */
  lemma PromptsFollowLatestCount(api: Api, file: ConfigFile, input: seq<string>)
    ensures PromptsFollowFlag(Run(api, file, input))
  {
    Snoc([], Welcome);
    match LoadConfig(file)
    case Failure(reason) =>
      Snoc([Welcome], ConfigRejected(reason));
    case Success(config) =>
      SessionFollows(api, config, false, input, [Welcome]);
  }

  /** A blank page line means page 1, and every line that int() accepts means
      the same page as it does there. */
  lemma BlankOrInteger(line: string)
    ensures Strip(line) == "" ==> ParsePage(line) == Some(1)
    ensures ParseInt(line).Some? ==> ParsePage(line) == ParseInt(line)
    ensures ParsePage(line).None? <==> Strip(line) != "" && ParseInt(line).None?
  {
    StripSpec(line);
    if AllSpace(line) {
      ParseIntRejectsBlank(line);
    }
  }

  /** "quit" ends the loop at once. */
  lemma QuitEnds(api: Api, config: map<string, string>, pagination: bool, rest: seq<string>)
    ensures Session(api, config, pagination, ["quit"] + rest) == [ShowMenu, Goodbye]
  {
  }

  /** Any other choice shows the menu again, with the flag unchanged and no
      request made. */
  lemma OtherChoiceRedisplaysMenu(api: Api, config: map<string, string>, pagination: bool, choice: string, rest: seq<string>)
    requires choice != "quit" && choice != "1" && choice != "2"
    ensures Session(api, config, pagination, [choice] + rest) == [ShowMenu] + Session(api, config, pagination, rest)
  {
  }

  /** With the flag off, "1" requests page 1 without reading a page number. */
  lemma FirstPageWithoutPrompt(api: Api, config: map<string, string>, rest: seq<string>)
    ensures [ShowMenu, ListRequested(1)] <= Session(api, config, false, ["1"] + rest)
  {
    var input := ["1"] + rest;
    assert input[0] == "1" && input[1..] == rest;
    assert Session(api, config, false, input) == [ShowMenu] + ListPrompt(api, config, false, rest);
    assert ListPrompt(api, config, false, rest) == ListThen(api, config, false, 1, rest);
  }

  /** With the flag on, choice "1" followed by a page line that reads as
      `page` asks for the page and requests it. */
  lemma PageLineAccepted(api: Api, config: map<string, string>, line: string, page: int, rest: seq<string>)
    requires ParsePage(line) == Some(page)
    ensures Session(api, config, true, ["1", line] + rest)
         == [ShowMenu, AskPage] + ListThen(api, config, true, page, rest)
  {
    MenuListStep(api, config, true, line, rest);
    PageLineStep(api, config, line, rest);
  }

  /** Choice "1" followed by a line: the menu, then the list prompt on that line. */
  lemma MenuListStep(api: Api, config: map<string, string>, pagination: bool, line: string, rest: seq<string>)
    ensures Session(api, config, pagination, ["1", line] + rest)
         == [ShowMenu] + ListPrompt(api, config, pagination, [line] + rest)
  {
    var input := ["1", line] + rest;
    assert input[0] == "1" && input[1..] == [line] + rest;
  }

  /** With the flag on, the list prompt reads one line as a page number. */
  lemma PageLineStep(api: Api, config: map<string, string>, line: string, rest: seq<string>)
    ensures ListPrompt(api, config, true, [line] + rest)
         == match ParsePage(line)
            case None => [AskPage, BadPageNumber] + Session(api, config, true, rest)
            case Some(page) => [AskPage] + ListThen(api, config, true, page, rest)
  {
    var after := [line] + rest;
    assert after[0] == line && after[1..] == rest;
  }

  /** With the flag on, a blank page line requests page 1. */
  lemma BlankPageIsFirst(api: Api, config: map<string, string>, line: string, rest: seq<string>)
    requires Strip(line) == ""
    ensures [ShowMenu, AskPage, ListRequested(1)] <= Session(api, config, true, ["1", line] + rest)
  {
    BlankOrInteger(line);
    PageLineAccepted(api, config, line, 1, rest);
  }

  /** With the flag on, an integer page line requests that page, whatever its
      sign: zero and negative pages are sent as they are. */
  lemma TypedPageRequested(api: Api, config: map<string, string>, line: string, rest: seq<string>)
    requires ParseInt(line).Some?
    ensures [ShowMenu, AskPage, ListRequested(ParseInt(line).value)] <= Session(api, config, true, ["1", line] + rest)
  {
    BlankOrInteger(line);
    PageLineAccepted(api, config, line, ParseInt(line).value, rest);
  }

  /** With the flag on, a page line that is neither blank nor an integer
      (see BlankOrInteger) is reported, no request is made, and the menu comes
      back with the flag on. */
  lemma BadPageNoRequest(api: Api, config: map<string, string>, input: seq<string>)
    requires |input| >= 2 && input[0] == "1" && ParsePage(input[1]).None?
    ensures Session(api, config, true, input)
         == [ShowMenu, AskPage, BadPageNumber] + Session(api, config, true, input[2..])
  {
    assert input == ["1", input[1]] + input[2..];
    MenuListStep(api, config, true, input[1], input[2..]);
    PageLineStep(api, config, input[1], input[2..]);
  }

  /** A ticket ID that is no integer is reported, no request is made, and the
      menu comes back with the flag unchanged. */
  lemma BadTicketIdNoRequest(api: Api, config: map<string, string>, pagination: bool, line: string, rest: seq<string>)
    requires ParseInt(line).None?
    ensures Session(api, config, pagination, ["2", line] + rest)
         == [ShowMenu, AskTicketId, BadTicketId] + Session(api, config, pagination, rest)
  {
    var input := ["2", line] + rest;
    assert input[0] == "2" && input[1..][0] == line && input[1..][1..] == rest;
    assert Session(api, config, pagination, input) == [ShowMenu] + TicketPrompt(api, config, pagination, input[1..]);
  }

  /** A failed list request shows only the error, and the flag keeps its value. */
  lemma FailedFetchKeepsFlag(api: Api, config: map<string, string>, rest: seq<string>)
    requires api.listTickets(config, 1).None?
    ensures Session(api, config, false, ["1"] + rest)
         == [ShowMenu, ListRequested(1), ListFailed] + Session(api, config, false, rest)
  {
    var input := ["1"] + rest;
    assert input[0] == "1" && input[1..] == rest;
    assert Session(api, config, false, input) == [ShowMenu] + ListPrompt(api, config, false, rest);
    assert ListPrompt(api, config, false, rest) == ListThen(api, config, false, 1, rest);
  }

  /** With the flag on, a failed list request shows only the error and the
      flag stays on, so the next "1" asks for a page again. */
  lemma FailedPageFetchKeepsFlag(api: Api, config: map<string, string>, line: string, page: int, rest: seq<string>)
    requires ParsePage(line) == Some(page) && api.listTickets(config, page).None?
    ensures Session(api, config, true, ["1", line] + rest)
         == [ShowMenu, AskPage, ListRequested(page), ListFailed] + Session(api, config, true, rest)
  {
    PageLineAccepted(api, config, line, page, rest);
  }

  /** The flag is set again on every answer: once an answer counts 25 tickets
      or fewer, the next "1" lists page 1 without asking for a page. */
  lemma FlagCanDrop(api: Api, config: map<string, string>, line: string, rest: seq<string>)
    requires ParsePage(line).Some?
    requires api.listTickets(config, ParsePage(line).value).Some?
    requires api.listTickets(config, ParsePage(line).value).value.count <= TicketsPerPage
    ensures var page := ParsePage(line).value;
            var data := api.listTickets(config, page).value;
            [ShowMenu, AskPage, ListRequested(page), ListReceived(data.count), PageShown(PageViewOf(data, page)),
             ShowMenu, ListRequested(1)]
            <= Session(api, config, true, ["1", line, "1"] + rest)
  {
    var page := ParsePage(line).value;
    var data := api.listTickets(config, page).value;
    var shown := [ListRequested(page), ListReceived(data.count), PageShown(PageViewOf(data, page))];
    PageLineAccepted(api, config, line, page, ["1"] + rest);
    assert ["1", line] + (["1"] + rest) == ["1", line, "1"] + rest;
    FirstPageWithoutPrompt(api, config, rest);
    assert Session(api, config, true, ["1", line, "1"] + rest)
        == [ShowMenu, AskPage] + shown + Session(api, config, false, ["1"] + rest);
  }

  /** The events that end the program: "quit" and the end of input. */
  predicate Terminal(e: Event)
  {
    e == Goodbye || e == InputClosed
  }

  /** `t` ends with a terminal event and holds no other. */
  predicate EndsOnce(t: seq<Event>)
  {
    |t| > 0 && Terminal(t[|t| - 1]) && forall i :: 0 <= i < |t| - 1 ==> !Terminal(t[i])
  }

  lemma Prepend(a: seq<Event>, t: seq<Event>)
    requires forall i :: 0 <= i < |a| ==> !Terminal(a[i])
    requires EndsOnce(t)
    ensures EndsOnce(a + t)
  {
  }

  /** The loop stops only on "quit" or at the end of input, and then at once. */
  lemma {:induction false} SessionEnds(api: Api, config: map<string, string>, pagination: bool, input: seq<string>)
    ensures EndsOnce(Session(api, config, pagination, input))
    decreases |input|, 2
  {
    if |input| == 0 {
      assert Session(api, config, pagination, input) == [ShowMenu, InputClosed];
    } else {
      ChoiceEnds(api, config, pagination, input);
      Prepend([ShowMenu], Choice(api, config, pagination, input));
    }
  }

  lemma {:induction false} ChoiceEnds(api: Api, config: map<string, string>, pagination: bool, input: seq<string>)
    requires |input| > 0
    ensures EndsOnce(Choice(api, config, pagination, input))
    decreases |input|, 1
  {
    var choice := input[0];
    if choice == "quit" {
      assert Choice(api, config, pagination, input) == [Goodbye];
    } else if choice == "1" {
      ListPromptEnds(api, config, pagination, input[1..]);
    } else if choice == "2" {
      TicketPromptEnds(api, config, pagination, input[1..]);
    } else {
      SessionEnds(api, config, pagination, input[1..]);
    }
  }

  lemma {:induction false} ListPromptEnds(api: Api, config: map<string, string>, pagination: bool, rest: seq<string>)
    ensures EndsOnce(ListPrompt(api, config, pagination, rest))
    decreases |rest|, 4
  {
    if !pagination {
      ListThenEnds(api, config, pagination, 1, rest);
    } else if |rest| == 0 {
      assert ListPrompt(api, config, pagination, rest) == [AskPage, InputClosed];
    } else {
      match ParsePage(rest[0])
      case None =>
        SessionEnds(api, config, pagination, rest[1..]);
        Prepend([AskPage, BadPageNumber], Session(api, config, pagination, rest[1..]));
      case Some(page) =>
        ListThenEnds(api, config, pagination, page, rest[1..]);
        Prepend([AskPage], ListThen(api, config, pagination, page, rest[1..]));
    }
  }

  lemma {:induction false} TicketPromptEnds(api: Api, config: map<string, string>, pagination: bool, rest: seq<string>)
    ensures EndsOnce(TicketPrompt(api, config, pagination, rest))
    decreases |rest|, 4
  {
    if |rest| == 0 {
      assert TicketPrompt(api, config, pagination, rest) == [AskTicketId, InputClosed];
    } else {
      match ParseInt(rest[0])
      case None =>
        SessionEnds(api, config, pagination, rest[1..]);
        Prepend([AskTicketId, BadTicketId], Session(api, config, pagination, rest[1..]));
      case Some(id) =>
        TicketThenEnds(api, config, pagination, id, rest[1..]);
        Prepend([AskTicketId], TicketThen(api, config, pagination, id, rest[1..]));
    }
  }

  lemma {:induction false} ListThenEnds(api: Api, config: map<string, string>, pagination: bool, page: int, rest: seq<string>)
    ensures EndsOnce(ListThen(api, config, pagination, page, rest))
    decreases |rest|, 3
  {
    match api.listTickets(config, page)
    case None =>
      SessionEnds(api, config, pagination, rest);
      Prepend([ListRequested(page), ListFailed], Session(api, config, pagination, rest));
    case Some(data) =>
      SessionEnds(api, config, data.count > TicketsPerPage, rest);
      Prepend([ListRequested(page), ListReceived(data.count), PageShown(PageViewOf(data, page))],
              Session(api, config, data.count > TicketsPerPage, rest));
  }

  lemma {:induction false} TicketThenEnds(api: Api, config: map<string, string>, pagination: bool, id: int, rest: seq<string>)
    ensures EndsOnce(TicketThen(api, config, pagination, id, rest))
    decreases |rest|, 3
  {
    SessionEnds(api, config, pagination, rest);
    match api.ticketById(config, id)
    case None =>
      Prepend([TicketRequested(id), TicketNotFound], Session(api, config, pagination, rest));
    case Some(ticket) =>
      Prepend([TicketRequested(id), TicketShown(ticket)], Session(api, config, pagination, rest));
  }

  /** The whole program stops after the config is rejected, on "quit", or at
      the end of input, and the trace shows which. */
  lemma RunEnds(api: Api, file: ConfigFile, input: seq<string>)
    ensures var t := Run(api, file, input);
      match LoadConfig(file)
      case Failure(reason) => t == [Welcome, ConfigRejected(reason)]
      case Success(_) => EndsOnce(t)
  {
    match LoadConfig(file)
    case Failure(_) =>
    case Success(config) =>
      SessionEnds(api, config, false, input);
      Prepend([Welcome], Session(api, config, false, input));
  }
}
