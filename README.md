# Currency-rate chat server and rate report, modelled in Dafny

This project models the core of a small Python application made of two
programs:

- **`server.py`** is a websocket chat server. Every text message a client sends
  is broadcast to all connected clients, with one exception: the commands
  `exchange <date> <currency>` and `today` are answered by looking up exchange
  rates at the PrivatBank API. The answer is broadcast instead.
- **`main.py`** is a command-line report. It fetches the historical rates of
  the last *n* days and prints the records of the chosen currencies as a framed
  text table.

The model keeps the logic and makes every outside effect an input:

- Whatever the HTTP API replies is a `Fetched` value: a client error with its
  text, or a status with a decoded body.
- The chat server's provider replies for message `i` are `world(i)`.
- The report takes the date of day offset `i` as `dateOf(i)` and the reply to a
  URL as `fetch(url)`.
- The display name `register` would draw from `names.get_full_name()` is a
  parameter.
- A connection's incoming messages are a sequence. How its receive loop ends is
  an `Ending`: closed by the peer, a protocol error, or another transport error.

Modules:

| file | module | what it holds |
|---|---|---|
| `Common.dfy` | `Wrappers`, `Faults` | `Option`/`Result`; the exceptions that escape the server's handlers (`KeyError`, `IndexError`, protocol and connection errors) |
| `PyText.dfy` | `PyText` | the Python string behaviour the core relies on: `str.split()` on Unicode whitespace, `"sep".join`, ASCII `upper()`, the `<`, `^`, `>` format alignments, `str(int)`, and `repr(str)` for the characters up to U+00FF |
| `RateApi.dfy` | `RateApi` | rate records (`map<string,string>`), reply shapes, and the first-match search `next(filter(lambda el: el[key] == value, records), None)`, which raises `KeyError` at a record lacking the key before any match |
| `Lookup.dfy` | `Lookup` | `get_exchange_today` and `get_exchange` as functions of the provider's reply |
| `Dispatch.dfy` | `Dispatch` | the per-message branch of `Server.distrubute`: classify a message, perform the lookup, and produce the text to broadcast or the exception raised |
| `Registry.dfy` | `Registry` | `class Server`: the client set, the name each client got at registration, and a log of every `send`; `register`, `unregister`, `send_to_clients`, `distrubute` and `ws_handler` as methods, checked against the spec function `Replay` |
| `RateReport.dfy` | `RateReport` | `main.py`: day-count validation, `request`, the row filter, the table layout, and the fetch loop (`FetchDays`/`BuildReport`, checked against the spec function `Report`), plus the command-line currency list |

Decisions on behaviour, all taken from the code:

- `unregister` calls `set.remove`, which raises for an absent client, so
  membership is a precondition of `Server.Unregister`. A more lenient
  description, in which removing an absent client is a no-op, is not what the
  code does.
- `send_to_clients` sends in an unguarded list comprehension. A failing send
  would stop the broadcast; no per-recipient isolation is modelled.
- `message.startswith('exchange')` is tested first and needs no whitespace
  after the word: `exchangeX 01.01.2024 eur` is a date lookup.
- An exchange message with exactly two tokens reads `parts[2]` and raises
  `IndexError`. It never gives the bad-format message.
- In `get_exchange`, a 200 reply without `exchangeRate` raises `KeyError`.
  So does a record missing `currency` (or `ccy`) before the first match, and a
  matching record missing one of the two rate fields. That `KeyError` ends the
  connection's handler: `ws_handler` only catches `WebSocketProtocolError`, and
  it unregisters the client in `finally` before the exception propagates.
- In `main.py`, `request` raises `HttpError(f'Connection error: {url}',
  str(err))` with two arguments. `f"Error: {err}"` therefore shows the tuple of
  both strings' reprs (`RateReport.ConnectionErrorText`).

## Model

| member | source | states |
|---|---|---|
| `RateApi.Search` | server.py:21 | the result is the index of the first record whose `key` equals `value`, with every earlier record holding `key` and a different value; or no match when every record holds `key` and none matches; or `KeyError` at the first record lacking `key`, with every earlier one holding a different value |
| `RateApi.SearchFindsFirst` | server.py:39 | a match at `i`, after records that all hold the key with another value, is exactly what the search returns |
| `Lookup.ExchangeToday` | server.py:15-30 | `get_exchange_today` on the reply of the current-rates endpoint; its behaviour on every reply is stated by `TodayUnavailable`, `TodayFirstUsd`, `TodayNoUsd`, `TodayMissingCcy` and `TodayFaults` |
| `Lookup.TodayUnavailable` | server.py:19-30 | a client error or a non-200 status gives `Error: I dint know today's exchange rates.` |
| `Lookup.TodayFirstUsd` | server.py:19-23 | for a 200 reply whose first USD record is at `i`: `USD: buy: <buy>, sale: <sale>` of that record, or `KeyError` for `buy`, then `sale`, when missing |
| `Lookup.TodayNoUsd` | server.py:21-30 | a 200 reply whose records all carry `ccy` but none is USD gives the fixed fallback |
| `Lookup.TodayMissingCcy` | server.py:21 | a record lacking `ccy` before the first USD record raises `KeyError("ccy")` |
| `Lookup.TodayFaults` | server.py:21-23 | the today lookup only fails with `KeyError` on `ccy`, `buy` or `sale` |
| `Lookup.Exchange` | server.py:33-48 | `get_exchange` on the reply of the historical endpoint; its behaviour on every reply is stated by `DateUnavailable`, `DateNoRateList`, `DateFirstMatch`, `DateNoMatch`, `DateMissingCurrency` and `DateFaults` |
| `Lookup.DateUnavailable` | server.py:37-48 | a client error or a non-200 status gives `I cant find rates for <currency> on <date>.` |
| `Lookup.DateFirstMatch` | server.py:37-41 | for a 200 reply whose first record for the currency is at `i`: `Date: <date>, <currency>: buy: <purchaseRate>, sale: <saleRate>` of that record, or `KeyError` for a missing rate field |
| `Lookup.DateNoMatch` | server.py:39-48 | records for other currencies only give the fallback naming the currency and date |
| `Lookup.DateMissingCurrency` | server.py:39 | a record lacking `currency` before the first match raises `KeyError("currency")` |
| `Lookup.DateNoRateList` | server.py:39 | a 200 reply without `exchangeRate` raises `KeyError("exchangeRate")` |
| `Lookup.DateFaults` | server.py:39-41 | the date lookup only fails with `KeyError` on `exchangeRate`, `currency`, `purchaseRate` or `saleRate` |
| `PyText.Split` | server.py:80 | every token of `str.split()` is non-empty and free of whitespace; `SplitDecompose` and `SplitSpaced` pin down which tokens |
| `PyText.SplitLeadingWord` | server.py:80 | a word followed by whitespace or by nothing is split off as the first token |
| `PyText.SplitBlank` | server.py:80 | a string of whitespace only splits into no tokens |
| `PyText.SplitSkip` | server.py:80 | whitespace in front of a string changes nothing about its tokens |
| `PyText.SplitSpaced` | server.py:80 | tokens separated by runs of whitespace of any length (the last run possibly empty) split back into exactly those tokens |
| `PyText.SplitDecompose` | server.py:80 | every string is leading whitespace followed by its tokens, each followed by a run of whitespace that is non-empty except after the last; with `SplitSpaced`, the tokens are exactly the maximal runs of non-space characters, in order |
| `PyText.Upper` | server.py:84 | `upper()` keeps the length and upper-cases each ASCII letter in place |
| `PyText.JoinAppend` | main.py:57 | joining two non-empty lists is the two joins with one separator between them |
| `PyText.Repeat` | main.py:56 | `c * n` has length `n` and every character `c` |
| `PyText.AlignLeftShape` | main.py:53 | `{:<w}` has width `max(len, w)`, the text first and spaces after it |
| `PyText.AlignRightShape` | main.py:53 | `{:>w}` has width `max(len, w)`, spaces first and the text last |
| `PyText.AlignCenterShape` | main.py:53 | `{:^w}` has width `max(len, w)`, with the text after half the padding (rounded down) and spaces on both sides |
| `PyText.NatToString` | main.py:20 | `str(n)` is non-empty, all digits, without a leading zero unless `n` is 0 |
| `PyText.NatToStringValue` | main.py:20 | the digits of `str(n)` read back as `n` |
| `PyText.IntToString` | main.py:20 | `str(i)` begins with `-` exactly when `i` is negative, and the digits after the sign read back as the absolute value of `i` |
| `PyText.Repr` | main.py:22 | `repr(s)` is at least two characters longer than `s` and starts and ends with the quote character Python picks; `ReprRoundTrip` shows the escaping loses nothing |
| `PyText.ReprRoundTrip` | main.py:22 | stripping the quotes of `repr(s)` and undoing its escapes (`\\`, the quote, `\t`, `\n`, `\r`, `\xhh`) gives `s` back |
| `PyText.ReprPlain` | main.py:22 | a string of printable characters without `\` or `'` is shown verbatim between single quotes |
| `PyText.EscapePlain` | main.py:22 | such a string needs no escaping inside single quotes |
| `Dispatch.Parse` | server.py:79-93 | the classification of a message: `exchange` prefix first, then exactly `today`, else chat; its cases are stated by `ExchangeFirst`, `ExchangeForms`, `ParseFaults`, `TodayRequest` and `ChatMessage` |
| `Dispatch.Respond` | server.py:79-95 | the text broadcast for one message, or the exception it raises; stated by `ExchangeForms`, `TodayRequest`, `ChatMessage` and `RespondFaults` |
| `Dispatch.ExchangeFirst` | server.py:79 | a message starting with `exchange` is never classified as `today` or chat |
| `Dispatch.ExchangeForms` | server.py:79-88 | for a first token starting with `exchange` and `n` more tokens, each token followed by a run of whitespace of any length (tabs and newlines included, the last run possibly empty): no more tokens gives `Invalid 'exchange' command format.`; one more raises `IndexError`; two or more look up token 1 as the date and token 2, upper-cased, as the currency, ignoring the rest |
| `Dispatch.TodayRequest` | server.py:91-93 | `today` is classified as the today lookup and broadcasts its result |
| `Dispatch.ChatMessage` | server.py:94-95 | any other message broadcasts `<name>: <message>` |
| `Dispatch.ParseFaults` | server.py:79-84 | classification fails exactly for an `exchange` message of two tokens, and then with `IndexError` |
| `Dispatch.RespondFaults` | server.py:79-95 | handling a message gives `IndexError` exactly for the two-token exchange form; every other failure is a lookup's `KeyError` |
| `Dispatch.ExampleLookup` | server.py:80-84 | `exchange 01.01.2024 usd` looks up `01.01.2024` and `USD` |
| `Dispatch.ExampleWideSpacing` | server.py:80-84 | `exchange\t01.01.2024  usd\n` looks up `01.01.2024` and `USD` too |
| `Dispatch.ExampleGluedPrefix` | server.py:79-84 | `exchangeX 01.01.2024 eur extra` looks up `01.01.2024` and `EUR` |
| `Dispatch.ExampleMissingCurrency` | server.py:81-84 | `exchange 01.01.2024` raises `IndexError` |
| `Dispatch.ExampleBareExchange` | server.py:81-88 | `exchange` alone gives the bad-format message |
| `Dispatch.ExampleBlankExchange` | server.py:80-88 | `exchange` followed by whitespace only gives the bad-format message |
| `Registry.Answers` | server.py:79-95 | what handling each message of a connection gives, one answer per message |
| `Registry.Replay` | server.py:77-95 | the receive loop run over the answers, stopping at the first exception; its meaning is stated by `ReplayPrefix` and `ReplayStops` |
| `Registry.ReplayPrefix` | server.py:77-95 | the texts of a connection are the responses to its longest prefix of messages that raised nothing, in order; it stops short exactly when a message raised, and then keeps that message's exception |
| `Registry.ReplayStops` | server.py:77-95 | once a message has raised, later messages change nothing |
| `Registry.Server.constructor` | server.py:51-52 | a new server has no clients and has sent nothing |
| `Registry.Server.Register` | server.py:54-56 | the client is added to the set under the given name; no other member changes and nothing is sent |
| `Registry.Server.Unregister` | server.py:59-60 | requires membership; removes exactly that client and sends nothing |
| `Registry.Server.Send` | server.py:65 | one delivery of the message to the client is appended to the log |
| `Registry.Server.SendToClients` | server.py:63-65 | the log grows by exactly one delivery of the message per current member and by nothing when the set is empty; every member receives the message once and no one else receives anything |
| `Registry.Server.Distribute` | server.py:76-95 | every member receives the session's texts in order, no one else receives anything, and the exception returned is the first one a message raised, otherwise the one the receive loop ended with |
| `Registry.Server.WsHandler` | server.py:67-74 | afterwards the client is no longer in the set and no other member changed, so a new client leaves the set as it was; the handler returns on a protocol error or a normal end and re-raises anything else; the clients present before plus this one received the session's texts |
| `RateReport.Validate` | main.py:28-34 | only 1 to 9 days proceed, with their count; `<= 0` and `>= 10` give their two messages |
| `RateReport.Report` | main.py:25-59 | what `main` returns and requests; stated by `ReportRejects`, `ReportFailure` and `ReportSuccess` |
| `RateReport.Tabulate` | main.py:54-59 | the table of the gathered rows, or `Error: <err>` for the error that stopped the loop |
| `RateReport.ReportRejects` | main.py:27-34 | a refused count returns `Error: <message>` and requests nothing |
| `RateReport.Request` | main.py:12-22 | `request(url)` on the provider's reply; stated by `RequestOutcome` and `ConnectionErrorText` |
| `RateReport.RequestOutcome` | main.py:16-20 | a request succeeds exactly on a 200 response, with its body; another status raises `Error status: <status> for <url>` |
| `RateReport.ConnectionErrorText` | main.py:21-22 | with plain URL and reason, a connection error reads `('Connection error: <url>', '<reason>')` |
| `RateReport.Row` | main.py:46-53 | the f-string row of one record; its layout follows from `AlignLeftShape`, `AlignCenterShape` and `AlignRightShape` |
| `RateReport.Header` | main.py:54-55 | the header line; its width is stated by `HeaderWidth` |
| `RateReport.Separator` | main.py:56 | the separator is `-` repeated to the header's length |
| `RateReport.HeaderWidth` | main.py:54-56 | the header line is 74 characters wide |
| `RateReport.Table` | main.py:56-57 | the framed table of the rows; its shape is stated by `TableShape` |
| `RateReport.TableShape` | main.py:57 | the output is separator, header, separator, the rows, separator, joined by newlines |
| `RateReport.Selected` | main.py:45-51 | the records of a day that make rows; stated by `SelectedComplete`, `SelectedSound` and `SelectedAppend` |
| `RateReport.SelectedComplete` | main.py:45-51 | every record whose currency was asked for is kept |
| `RateReport.SelectedSound` | main.py:45-51 | only such records are kept, and no more of them than there are records |
| `RateReport.SelectedAppend` | main.py:45-51 | the records kept keep their order |
| `RateReport.DayRows` | main.py:44-53 | the rows of one day; stated by `DayRowsComplete`, `DayRowsSound`, `NoRateListNoRows` and `DayLines` |
| `RateReport.DayRowsNext` | main.py:45-53 | one more record adds its row exactly when its currency was asked for |
| `RateReport.NoRateListNoRows` | main.py:44 | a day without `exchangeRate` gives no rows |
| `RateReport.DayRowsComplete` | main.py:45-53 | every record whose currency was asked for gives its row |
| `RateReport.DayRowsSound` | main.py:45-53 | every row is the row of some record whose currency was asked for, and there are no more rows than records |
| `RateReport.Gather` | main.py:38-53 | the first `k` rounds of the fetch loop; stated by `GatherRequests`, `GatherRows` and `GatherStops` |
| `RateReport.GatherRequests` | main.py:40-43 | days are requested in order from offset 0, one request each, at most `n`; all before a failure succeeded; the failure's error is kept; without one, all `n` days were requested |
| `RateReport.GatherRows` | main.py:40-53 | while no request fails, the rows gathered are day 0's rows, then day 1's, and so on, each day's rows kept together in day order |
| `RateReport.GatherStops` | main.py:38-59 | after a failed request, later days add nothing |
| `RateReport.ReportFailure` | main.py:38-59 | when day `j` is the first to fail, the output is `Error: <its error>` and exactly days `0..j` were requested |
| `RateReport.ReportSuccess` | main.py:38-57 | when every request succeeds, exactly days `0..n-1` were requested, in order, and the output is the table of day 0's rows, then day 1's, and so on, each day's rows being those of its records whose currency was asked for |
| `RateReport.DayLines` | main.py:45-53 | the inner loop yields the rows of the day's kept records |
| `RateReport.FetchDays` | main.py:38-59 | the fetch loop returns what the spec function `Gather` and the table layout give |
| `RateReport.BuildReport` | main.py:25-59 | `main` returns, and requests, what `Report` gives |
| `RateReport.CliCurrencies` | main.py:77-81 | the arguments upper-cased in order, or `USD` and `EUR` when there are none |

## Left out

- The network transport: `websockets.serve`, the `async for` receive loop and
  `asyncio.Future`. The received messages are a sequence, and the loop's end is
  an `Ending`.
- `aiohttp` sessions and JSON decoding. The replies are given already decoded.
- JSON values that are not objects or not strings. Record field values are
  opaque strings, so float rendering of rates is not modelled.
- Binary websocket frames. Only text messages are modelled.
- Concurrency: the class-level `clients` set shared by concurrent handlers. The
  registry is modelled as one handler at a time.
- `names.get_full_name()` is randomness. The name is a parameter of
  `Server.WsHandler` and `Server.Register`.
- `ws.remote_address`, `logging`/`my_logger.py` and the `print` calls.
  These are diagnostics only.
- Send failures. `client.send` is modelled as always succeeding. A
  `ConnectionClosed` raised while broadcasting is not modelled.
- `datetime.now()`, `timedelta` and `strftime`. The date of each day offset is
  the input `dateOf`. The dead assignment at main.py:36-37 is omitted.
- The replies of the report's provider are keyed by URL (`fetch`). Two requests
  of the same URL get the same reply.
- The report's `request` catches only `ClientConnectorError` and `InvalidURL`.
  Any other `aiohttp` exception would end the program uncaught. All client
  errors are modelled as the caught kind.
- `int(index_days)` in `main` receives an integer from the command-line block.
  `BuildReport` takes an `int`, and the `ValueError` of a non-numeric argument
  (main.py:74-87) is not modelled. Neither are the `platform` check, the usage
  message or the final `print`.
- `PyText.Upper`: upper-cases ASCII letters only. Python's full Unicode case
  mapping (for instance `ß` to `SS`, which changes the length) is not modelled.
- `PyText.Repr`: escapes follow Python for characters up to U+00FF. Wider
  characters are treated as printable.
