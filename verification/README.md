# Zendesk ticket viewer, modelled in Dafny

The ticket viewer is a small command-line program. It reads a config file holding
a Zendesk subdomain and credentials. Then it runs a menu loop: `1` lists a page of
tickets, `2` shows one ticket by ID, and `quit` leaves. While listing, it keeps one
piece of state, the `pagination` flag. Once an answer reports more than 25 tickets
in total, later listings first ask for a page number.

This project models the program's own logic and proves properties of it:

- `pyint.dfy` (module `PyInt`): the parts of Python that the viewer relies on when it
  reads a number. These are `str.strip()`, `int(str)` in base 10 (sign, surrounding
  white space, single underscores between digits) and `str(int)`.
- `tickets.dfy` (module `Tickets`): `display_tickets`. This covers the row of each
  ticket with its subject cut to 60 characters, the page count, the summary line
  numbers, and the "No tickets found." case. `DisplayTickets` is the row-building
  loop, proved against the specification function `PageViewOf`.
- `config.dfy` (module `Config`): the required-keys check of `load_config`.
- `viewer.dfy` (module `Viewer`): `main`. The two API calls are oracles. An oracle is
  a function that the program's caller supplies (`Api`). What the program prints
  and requests becomes a trace of `Event`s. The specification functions
  `Session`/`Choice`/`ListPrompt`/`TicketPrompt`/`ListThen`/`TicketThen`/`Run` are
  mutually recursive and give the trace for any list of typed lines. The methods
  `MenuLoop` and `TicketViewer` run the loop with a mutable `pagination` flag. Each
  is proved to produce exactly that trace.
- `viewer_facts.dfy` (module `ViewerFacts`): what the loop promises, as lemmas about
  the trace. They cover the flag theorem (`PromptsFollowLatestCount`), how the
  program ends (`RunEnds`), and each branch of the menu.
- `wrappers.dfy`: `Option` and `Result`.

The input that `main` reads from the keyboard is an explicit sequence of lines. When
the sequence runs out while a line is awaited, the trace ends with `InputClosed`.
Python raises `EOFError` out of `main` at that point.

Two facts about app.py shape the model:

- The flag does not stay on once set. app.py:187 sets it to `count > 25` on every
  successful list answer, so it can go back to off (`ViewerFacts.FlagCanDrop`). A
  failed answer leaves it as it was (`ViewerFacts.FailedFetchKeepsFlag`,
  `ViewerFacts.FailedPageFetchKeepsFlag`).
- A config is accepted whatever the values of its keys (app.py:26): the three keys
  only have to be present. An empty subdomain is accepted.

## Model

| member | source | states |
|---|---|---|
| PyInt.TrimStartSpec | app.py:174 | strip's leading part removes exactly a prefix of white space, and what is left is empty or starts with a non-space |
| PyInt.TrimEndSpec | app.py:174 | strip's trailing part removes exactly a suffix of white space, and what is left is empty or ends with a non-space |
| PyInt.Strip | app.py:174 | `str.strip()` with Python's white-space characters; its contract is `StripSpec` |
| PyInt.StripSpec | app.py:174 | `line.strip()` neither starts nor ends with white space, and it is `""` exactly when the whole line is white space |
| PyInt.FormatNat | app.py:120-123 | `str(n)` of a natural number is a non-empty run of digits with no leading zero |
| PyInt.FormatInt | app.py:120-123 | `str(n)` starts with `-` exactly when n is negative |
| PyInt.FormatNatValue | app.py:120-123 | the digits printed for n form a digit group whose value is n |
| PyInt.ParseInt | app.py:174 | `int(line)` in base 10, here and for the ticket ID at app.py:193: strip, an optional sign, then a digit group; `None` where Python raises ValueError; its contracts are the lemmas below |
| PyInt.ParseFormatRoundTrip | app.py:174 | `int(str(n)) == n` for every integer n (Python bounds both at 4300 digits by default, see Left out) |
| PyInt.ParseIntRejectsWord | app.py:174-176 | `int("a")` raises ValueError |
| PyInt.ParseIntRejectsBlank | app.py:193-195 | `int()` of a line made only of white space (including `""`) raises ValueError |
| PyInt.TrimStartSkipsSpace | app.py:174 | stripping the front skips any run of white space put before a string |
| PyInt.TrimEndSkipsSpace | app.py:174 | stripping the back skips any run of white space put after a string |
| PyInt.TrimStartAppend | app.py:174 | stripping the front of s + b strips s first, and reaches b only when s is all white space |
| PyInt.StripSkipsPadding | app.py:174 | `(a + s + b).strip() == s.strip()` whenever a and b are white space only |
| PyInt.ParseIntIgnoresPadding | app.py:174 | `int(a + s + b) == int(s)` whenever a and b are white space only, for every s, valid or not |
| PyInt.ParseIntDigits | app.py:193 | a digit group is read as its value |
| PyInt.ParseIntNegative | app.py:193 | `-` followed by a digit group is read as the negated value |
| PyInt.ParseIntPositive | app.py:193 | `+` followed by a digit group is read as its value |
| PyInt.DigitGroupUnderscore | app.py:193 | `1_000` is a valid number worth 1000 |
| PyInt.DigitGroupShape | app.py:193 | a string is a digit group exactly when it is non-empty, made of digits and underscores, starts and ends with a digit, and has a digit after every underscore |
| Tickets.Truncate | app.py:105-108 | the shown subject has at most 60 characters; a subject of at most 60 is unchanged; a longer one becomes its first 57 characters followed by `...`, exactly 60 in all |
| Tickets.TruncateIdempotent | app.py:105-108 | cutting a shown subject again changes nothing |
| Tickets.TotalPages | app.py:114-115 | the page count p is the ceiling of count/25: (p-1)*25 < count <= p*25 |
| Tickets.TotalPagesUnique | app.py:114-115 | no other page count satisfies those bounds |
| Tickets.TotalPagesExamples | app.py:114-115 | 0, 1, 25 and 26 tickets take 0, 1, 1 and 2 pages |
| Tickets.SeveralPagesIff | app.py:115 | more than 25 tickets (the flag test at app.py:187) is the same as more than one page |
| Tickets.StartTicket | app.py:118 | the first ticket number shown on a page; its contracts are `PagesTile` and `TicketOnOnePage` |
| Tickets.EndTicket | app.py:119 | the last ticket number shown on a page; its contracts are `PagesTile` and `TicketOnOnePage` |
| Tickets.PagesTile | app.py:118-119 | every summary range spans 25 numbers, page 1 is 1-25, and each page starts right after the previous one ends |
| Tickets.TicketOnOnePage | app.py:118-119 | ticket number n >= 1 lies in the range of exactly one page, page (n-1)/25+1 |
| Tickets.LastPageHoldsLastTicket | app.py:114-119 | with at least one ticket, the last page's range contains the last ticket |
| Tickets.RowOf | app.py:105-109 | the row of one ticket, with its subject cut by `Truncate`; its contract is `RowShowsTicket` |
| Tickets.SummaryOf | app.py:113-119 | the numbers of the summary line: first and last ticket, page and page count; its contracts are `PageViewOf` and `PagesTile` |
| Tickets.SummaryText | app.py:120-124 | the summary line as printed; its contract is `SummaryTextExample` |
| Tickets.PageViewOf | app.py:96-124 | "No tickets found." is shown exactly when the list is empty; otherwise the table has one row per ticket and the summary of this count and page |
| Tickets.RowShowsTicket | app.py:104-109 | row i shows ticket i's id, status and priority, and its subject whole or cut to 57 characters and `...` |
| Tickets.SummaryTextExample | app.py:117-124 | one ticket on page 1 gives "Viewing tickets 1-25 (page 1 of 1)" |
| Tickets.DisplayTickets | app.py:88-124 | the loop that appends one row per ticket produces exactly `PageViewOf` |
| Config.LoadConfig | app.py:18-30 | a config is accepted exactly when the file exists and has the keys subdomain, email and password; it is then returned whole; a missing file is reported as such |
| Config.EachKeyRequired | app.py:26-28 | removing any one required key gets the record rejected as missing fields |
| Config.ExtraKeysKept | app.py:26-30 | extra keys are accepted and kept |
| Viewer.ParsePage | app.py:174 | a page line that strips to `""` means page 1, any other line reads as `int()`; its contract is `ViewerFacts.BlankOrInteger` |
| Viewer.Session | app.py:156-162 | the trace of the loop from the menu on, for a flag value and the lines still to be typed; `MenuLoop` is proved to produce it |
| Viewer.Choice | app.py:164-203 | the dispatch on the typed choice: `quit`, `1`, `2`, or back to the menu |
| Viewer.ListPrompt | app.py:170-179 | choice `1`: page 1 with the flag off; with it on, the page line, rejected or read as the page |
| Viewer.TicketPrompt | app.py:191-196 | choice `2`: the ID line, rejected or read as the ticket ID |
| Viewer.ListThen | app.py:181-188 | the list request for a page, its answer, and the loop again with the flag set to count > 25 on success and kept on failure |
| Viewer.TicketThen | app.py:198-203 | the ticket request, its answer, and the loop again with the flag kept |
| Viewer.Run | app.py:142-154 | the whole program: the greeting, then the config rejection or the loop with the flag off; `TicketViewer` is proved to produce it |
| Viewer.ShowPage | app.py:181-188 | a list request for the page; on success the count and the page view are shown and the new flag is exactly count > 25; on failure only the error is shown and the new flag is the old one |
| Viewer.ShowTicket | app.py:198-203 | a request for the ticket, then the ticket or the "not found" error, with the flag kept |
| Viewer.PageChoice | app.py:171-177 | with the flag on, the page prompt reads a line; a bad line gives an error and no request; otherwise that page is listed |
| Viewer.ListChoice | app.py:170-188 | choice `1` lists page 1 when the flag is off, and the page read from the prompt when it is on |
| Viewer.TicketChoice | app.py:191-203 | choice `2` reads an ID; a bad ID gives an error and no request; otherwise that ticket is requested |
| Viewer.MenuChoice | app.py:164-203 | one pass of the loop body dispatches on `quit`, `1`, `2` and anything else, as `Choice` specifies |
| Viewer.MenuLoop | app.py:154-203 | the `while True` loop, with the flag starting off, produces exactly `Session` |
| Viewer.TicketViewer | app.py:142-203 | the whole of `main` produces exactly `Run`: the greeting, then the config rejection or the loop |
| ViewerFacts.SessionFollows | app.py:154-203 | from any point of the loop whose flag matches the trace so far, every later page prompt and list request agrees with the flag |
| ViewerFacts.PromptsFollowLatestCount | app.py:154-188 | in every run, a page prompt comes straight after the menu only when the latest list answer counted more than 25 tickets; a list request follows the page prompt in that case, and otherwise comes straight after the menu and is for page 1 |
| ViewerFacts.BlankOrInteger | app.py:174 | a blank page line means page 1; every line `int()` accepts means that number; a page line is rejected exactly when it is neither |
| ViewerFacts.QuitEnds | app.py:165-167 | `quit` ends the loop at once |
| ViewerFacts.OtherChoiceRedisplaysMenu | app.py:156-203 | any other choice shows the menu again with the flag unchanged and no request |
| ViewerFacts.FirstPageWithoutPrompt | app.py:178-182 | with the flag off, `1` requests page 1 without a page prompt |
| ViewerFacts.PageLineAccepted | app.py:171-182 | with the flag on, `1` and a page line that reads as a page ask for the page and request that page |
| ViewerFacts.BlankPageIsFirst | app.py:174 | with the flag on, a blank page line requests page 1 |
| ViewerFacts.TypedPageRequested | app.py:174-182 | with the flag on, an integer page line requests that page, zero and negative pages included |
| ViewerFacts.BadPageNoRequest | app.py:175-177 | a rejected page line prints the error, makes no request, and returns to the menu with the flag still on |
| ViewerFacts.BadTicketIdNoRequest | app.py:192-196 | a ticket ID that is not an integer prints the error, makes no request, and returns to the menu with the flag unchanged |
| ViewerFacts.FailedFetchKeepsFlag | app.py:182-188 | a failed list request shows only the error, and the flag keeps its value |
| ViewerFacts.FailedPageFetchKeepsFlag | app.py:171-188 | with the flag on, a page line read as a page whose request fails shows only the error, and the flag stays on |
| ViewerFacts.FlagCanDrop | app.py:185-187 | after an answer of at most 25 tickets, the next `1` lists page 1 without asking for a page |
| ViewerFacts.SessionEnds | app.py:156-203 | the loop's trace ends with `Goodbye` or the end of input, and contains neither before that |
| ViewerFacts.RunEnds | app.py:142-167 | a rejected config ends the program after the greeting; otherwise the trace ends with `Goodbye` or the end of input, and only there |

## Left out

- The HTTP requests in `get_tickets` and `get_ticket_by_id` (app.py:33-85) are not modelled. They are the oracles `Api.listTickets` and `Api.ticketById`. Each answers with a value, or with `None` for the errors the code catches. The URL, the credentials and the `page`/`per_page` parameters are not modelled.
- An oracle is a fixed function of the config and the page or ID. So two requests for the same page in one session get the same answer. A live server can change between requests.
- Exceptions that app.py does not catch end the program with a traceback, and they are not modelled. These include a connection error other than `HTTPError`/`LocationParseError`, and an answer without `tickets`, `count` or `ticket`. A `count` that is not a number, or a subject that is not a string (`null`), is another case. Every answer in the model has a numeric `count` and string subjects.
- Opening and JSON-decoding the config file (app.py:18-23) are not modelled. The model starts from the decoded top-level object, with string values, or from an absent file. Other I/O errors and a top-level value that is not an object are not modelled.
- The printed layout is not modelled: `tabulate`, blank lines, and the fields printed by `display_single_ticket` (app.py:111, app.py:127-139). `TicketShown` carries the ticket as received, and a page carries its rows and summary numbers.
- Tickets.TotalPages: computes the exact integer ceiling. It does not model the rounding of `math.ceil` over a float division, which differs only for counts beyond 2^53.
- PyInt.ParseInt: accepts only the ASCII digits 0-9. Python's `int()` also accepts other Unicode decimal digits.
- PyInt.ParseInt: places no limit on the number of digits. Since Python 3.11 (and 3.7.14, 3.8.14, 3.9.14, 3.10.7), `int()` raises ValueError on a string of more than 4300 digits by default. Such a page line or ticket ID is rejected in Python but read as a number here.
- PyInt.ParseFormatRoundTrip: holds for every integer. In Python, `str(n)` of an integer of more than 4300 digits raises ValueError by default, so the round trip holds there only up to that size.
- A ticket's `priority` is a string in the model. The API can send `null` for a ticket's priority, which app.py:109 puts in the table and app.py:137 prints as `None`. The model does not distinguish that value from a string.
- Reading past the end of input raises `EOFError` in Python. The model ends the trace with `InputClosed` instead.
- test_app.py calls `main` with an input list and with a config path, but app.py's `main` takes neither. In the model, `Viewer.TicketViewer` takes both the lines and the decoded config file as parameters.
