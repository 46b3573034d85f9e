/**
 * The command-line report of historical rates: validate the number of days,
 * fetch one day at a time (today first, going back), keep the records of the
 * requested currencies as table rows, and frame them with a header and
 * separator lines. The date of each day offset and the provider's reply to
 * each URL are inputs.
 */
module RateReport {
  import opened Wrappers
  import opened PyText
  import opened RateApi

  const NotPositive := "Number of days must be a positive integer"
  const TooMany := "Number of days must be more than 0 and less than 10"

  /** The day-count check of `main`: only 1 to 9 days proceed. */
  function Validate(indexDays: int): (r: Result<nat, string>)
    ensures r.Ok? <==> 0 < indexDays < 10
    ensures r.Ok? ==> r.value == indexDays
    ensures r.Err? ==> r.error == if indexDays <= 0 then NotPositive else TooMany
  {
    if indexDays <= 0 then Err(NotPositive)
    else if indexDays >= 10 then Err(TooMany)
    else Ok(indexDays)
  }

  /** `rate.get(key, '')`. */
  function Field(rate: Record, key: string): string {
    if key in rate then rate[key] else ""
  }

  function DayUrl(date: string): string {
    "https://api.privatbank.ua/p24api/exchange_rates?date=" + date
  }

  /**
   * `request(url)`: the decoded body of a 200 response, or the text of the
   * `HttpError` it raises — for a connection error the exception has two
   * arguments, so its text is the tuple of both.
   */
  function Request(url: string, reply: Fetched<DayBody>): Result<DayBody, string> {
    match reply
    case Failed(reason) => Err("(" + Repr("Connection error: " + url) + ", " + Repr(reason) + ")")
    case Response(status, body) =>
      if status == 200 then Ok(body)
      else Err("Error status: " + IntToString(status) + " for " + url)
  }

  /**
   * Only a 200 response succeeds, with its body; any other status raises an
   * error that names the status and the URL.
   */
  lemma RequestOutcome(url: string, reply: Fetched<DayBody>)
    ensures Request(url, reply).Ok? <==> reply.Response? && reply.status == 200
    ensures Request(url, reply).Ok? ==> Request(url, reply).value == reply.body
    ensures reply.Response? && reply.status != 200 ==>
      Request(url, reply) == Err("Error status: " + IntToString(reply.status) + " for " + url)
  {
  }

  /** A connection error whose URL and reason are plain text reads as a quoted pair. */
  lemma ConnectionErrorText(url: string, reason: string)
    requires forall i :: 0 <= i < |url| ==> Plain(url[i])
    requires forall i :: 0 <= i < |reason| ==> Plain(reason[i])
    ensures Request(url, Failed(reason)) ==
      Err("('Connection error: " + url + "', '" + reason + "')")
  {
    ConnectionTextPlain(url);
    ReprPlain("Connection error: " + url);
    ReprPlain(reason);
    QuotedPair(url, reason);
  }

  lemma ConnectionTextPlain(url: string)
    requires forall i :: 0 <= i < |url| ==> Plain(url[i])
    ensures forall i :: 0 <= i < |"Connection error: " + url| ==> Plain(("Connection error: " + url)[i])
  {
    var text := "Connection error: " + url;
    forall i | 0 <= i < |text| ensures Plain(text[i]) {
      if i >= 18 { assert text[i] == url[i - 18]; }
    }
  }

  lemma QuotedPair(url: string, reason: string)
    ensures "(" + ("'" + ("Connection error: " + url) + "'") + ", " + ("'" + reason + "'") + ")" ==
      "('Connection error: " + url + "', '" + reason + "')"
  {
    assert "(" + "'" + "Connection error: " == "('Connection error: ";
    assert "'" + ", " + "'" == "', '";
    assert "'" + ")" == "')";
  }

  /** `response.get('exchangeRate', [])`. */
  function RatesOf(body: DayBody): seq<Record> {
    match body.exchangeRate
    case None => []
    case Some(rates) => rates
  }

  /** The table row of one rate record of the day `date`. */
  function Row(date: string, rate: Record): string {
    "| " + AlignLeft(date, 10)
    + " | " + AlignCenter(Field(rate, "baseCurrency"), 13)
    + " | " + AlignCenter(Field(rate, "currency"), 10)
    + " | " + AlignRight(Field(rate, "saleRateNB"), 10)
    + " | " + AlignRight(Field(rate, "purchaseRateNB"), 15) + " | "
  }

  function Header(): string {
    "| " + AlignLeft("Date", 10)
    + " | " + AlignCenter("BaseCurrency", 10)
    + "  | " + AlignCenter("Currency", 10)
    + " | " + AlignRight("Sale", 10)
    + " | " + AlignRight("Buy", 15) + " |"
  }

  /** A line of dashes as long as the header. */
  function Separator(): (r: string)
    ensures |r| == |Header()|
    ensures forall i :: 0 <= i < |r| ==> r[i] == '-'
  {
    Repeat('-', |Header()|)
  }

  /** The header is 74 characters wide. */
  lemma HeaderWidth()
    ensures |Header()| == 74
  {
  }

  /** `"\n".join([separator, header, separator] + lines + [separator])`. */
  function Table(rows: seq<string>): string {
    Join("\n", [Separator(), Header(), Separator()] + rows + [Separator()])
  }

  /** The table opens with separator, header and separator lines, then the rows, and closes with a separator. */
  lemma TableShape(rows: seq<string>)
    ensures Table(rows) ==
      Separator() + "\n" + Header() + "\n" + Separator() + "\n"
      + (if rows == [] then "" else Join("\n", rows) + "\n")
      + Separator()
  {
    FramedJoin(Separator(), Header(), rows);
  }

  lemma FramedJoin(sep: string, head: string, rows: seq<string>)
    ensures Join("\n", [sep, head, sep] + rows + [sep]) ==
      sep + "\n" + head + "\n" + sep + "\n"
      + (if rows == [] then "" else Join("\n", rows) + "\n")
      + sep
  {
    var top := [sep, head, sep];
    var opening := sep + "\n" + head + "\n" + sep;
    JoinThree(sep, head);
    if rows == [] {
      assert top + rows + [sep] == top + [sep];
      JoinAppend("\n", top, [sep]);
    } else {
      JoinAppend("\n", top, rows);
      JoinAppend("\n", top + rows, [sep]);
      assert Join("\n", top + rows + [sep]) == opening + "\n" + Join("\n", rows) + "\n" + sep;
    }
  }

  lemma JoinThree(a: string, b: string)
    ensures Join("\n", [a, b, a]) == a + "\n" + b + "\n" + a
  {
    var top := [a, b, a];
    assert top[1..] == [b, a] && top[1..][1..] == [a];
    assert Join("\n", [b, a]) == b + "\n" + a;
  }

  /** The test of the inner loop of `main`: the record's currency is one of those asked for. */
  predicate Wanted(rate: Record, currencies: seq<string>) {
    Field(rate, "currency") in currencies
  }

  /** The records of one day that make rows, in their order. */
  function Selected(rates: seq<Record>, currencies: seq<string>): seq<Record> {
    if rates == [] then []
    else
      var last := rates[|rates| - 1];
      Selected(rates[..|rates| - 1], currencies) + (if Wanted(last, currencies) then [last] else [])
  }

  /** Taking one more record of the day keeps it if its currency was asked for. */
  lemma SelectedNext(rates: seq<Record>, j: nat, currencies: seq<string>)
    requires j < |rates|
    ensures Selected(rates[..j + 1], currencies) ==
      Selected(rates[..j], currencies) + (if Wanted(rates[j], currencies) then [rates[j]] else [])
  {
    assert rates[..j + 1][..j] == rates[..j];
  }

  /** Every record whose currency was asked for is kept. */
  lemma {:induction false} SelectedComplete(rates: seq<Record>, currencies: seq<string>, k: nat)
    requires k < |rates| && Wanted(rates[k], currencies)
    ensures rates[k] in Selected(rates, currencies)
    decreases |rates|
  {
    var init := rates[..|rates| - 1];
    if k < |init| {
      assert rates[k] == init[k];
      SelectedComplete(init, currencies, k);
    }
  }

  /** Records keep their order: those of an earlier run of records come before those of a later one. */
  lemma {:induction false} SelectedAppend(a: seq<Record>, b: seq<Record>, currencies: seq<string>)
    ensures Selected(a + b, currencies) == Selected(a, currencies) + Selected(b, currencies)
    decreases |b|
  {
    if b == [] {
      assert a + b == a;
    } else {
      var init := b[..|b| - 1];
      assert (a + b)[..|a + b| - 1] == a + init;
      SelectedAppend(a, init, currencies);
    }
  }

  /** Only records whose currency was asked for are kept, and there are no more of them than records. */
  lemma {:induction false} SelectedSound(rates: seq<Record>, currencies: seq<string>)
    ensures |Selected(rates, currencies)| <= |rates|
    ensures forall rate :: rate in Selected(rates, currencies) ==> rate in rates && Wanted(rate, currencies)
    decreases |rates|
  {
    if rates != [] {
      var init := rates[..|rates| - 1];
      SelectedSound(init, currencies);
      assert forall rate :: rate in init ==> rate in rates;
    }
  }

  /** The rows of one day: one row per kept record, in their order. */
  function DayRows(date: string, rates: seq<Record>, currencies: seq<string>): seq<string> {
    var kept := Selected(rates, currencies);
    seq(|kept|, k requires 0 <= k < |kept| => Row(date, kept[k]))
  }

  /** Taking one more record of the day adds its row if its currency was asked for. */
  lemma DayRowsNext(date: string, rates: seq<Record>, j: nat, currencies: seq<string>)
    requires j < |rates|
    ensures DayRows(date, rates[..j + 1], currencies) ==
      DayRows(date, rates[..j], currencies)
      + (if Wanted(rates[j], currencies) then [Row(date, rates[j])] else [])
  {
    SelectedNext(rates, j, currencies);
  }

  /** A day without an `exchangeRate` key gives no rows. */
  lemma NoRateListNoRows(date: string, currencies: seq<string>)
    ensures DayRows(date, RatesOf(DayBody(None)), currencies) == []
  {
  }

  /** Each record whose currency was asked for gives its row. */
  lemma DayRowsComplete(date: string, rates: seq<Record>, currencies: seq<string>, k: nat)
    requires k < |rates| && Wanted(rates[k], currencies)
    ensures Row(date, rates[k]) in DayRows(date, rates, currencies)
  {
    SelectedComplete(rates, currencies, k);
    var kept := Selected(rates, currencies);
    var i :| 0 <= i < |kept| && kept[i] == rates[k];
    assert DayRows(date, rates, currencies)[i] == Row(date, rates[k]);
  }

  /** Each row comes from a record whose currency was asked for, and there are no more rows than records. */
  lemma DayRowsSound(date: string, rates: seq<Record>, currencies: seq<string>)
    ensures |DayRows(date, rates, currencies)| <= |rates|
    ensures forall row :: row in DayRows(date, rates, currencies) ==>
      exists rate :: rate in rates && Wanted(rate, currencies) && row == Row(date, rate)
  {
    SelectedSound(rates, currencies);
    var kept := Selected(rates, currencies);
    forall row | row in DayRows(date, rates, currencies)
      ensures exists rate :: rate in rates && Wanted(rate, currencies) && row == Row(date, rate)
    {
      var i :| 0 <= i < |kept| && DayRows(date, rates, currencies)[i] == row;
      assert kept[i] in kept;
    }
  }

  /** The rows gathered, the URLs requested, and the text of the `HttpError` that stopped the loop, if any. */
  datatype Progress = Progress(rows: seq<string>, urls: seq<string>, error: Option<string>)

  /**
   * The rows of day `i`, whose date is `dateOf(i)`, or the error its request raised,
   * when `fetch(url)` is the reply to `url`.
   */
  function Days(currencies: seq<string>, dateOf: nat -> string, fetch: string -> Fetched<DayBody>): nat -> Result<seq<string>, string> {
    (i: nat) =>
      match Request(DayUrl(dateOf(i)), fetch(DayUrl(dateOf(i))))
      case Err(e) => Err(e)
      case Ok(body) => Ok(DayRows(dateOf(i), RatesOf(body), currencies))
  }

  /** The URL requested for day `i`, whose date is `dateOf(i)`. */
  function Urls(dateOf: nat -> string): nat -> string {
    (i: nat) => DayUrl(dateOf(i))
  }

  /** The first `k` days of the fetch loop; day `i` is requested at `urlOf(i)`, which gives `day(i)`. */
  function Gather(k: nat, urlOf: nat -> string, day: nat -> Result<seq<string>, string>): Progress {
    if k == 0 then Progress([], [], None)
    else
      var p := Gather(k - 1, urlOf, day);
      if p.error.Some? then p
      else
        var url := urlOf(k - 1);
        match day(k - 1)
        case Err(e) => Progress(p.rows, p.urls + [url], Some(e))
        case Ok(rows) => Progress(p.rows + rows, p.urls + [url], None)
  }

  /**
   * The loop requests the days in order from offset 0, one request per day,
   * and stops at the first request that fails: all requests before it
   * succeeded, its error is the one kept, and without a failure every day was
   * requested.
   */
  lemma {:induction false} GatherRequests(k: nat, urlOf: nat -> string,
                                          day: nat -> Result<seq<string>, string>)
    ensures var p := Gather(k, urlOf, day);
      var done := if p.error.Some? then |p.urls| - 1 else |p.urls|;
      && |p.urls| <= k
      && (forall i :: 0 <= i < |p.urls| ==> p.urls[i] == urlOf(i))
      && (forall i :: 0 <= i < done ==> day(i).Ok?)
      && (p.error.None? ==> |p.urls| == k)
      && (p.error.Some? ==> |p.urls| > 0 && day(done) == Err(p.error.value))
  {
    if k > 0 {
      GatherRequests(k - 1, urlOf, day);
      if Gather(k - 1, urlOf, day).error.Some? {
        GatherStops(k - 1, k, urlOf, day);
      } else {
        GatherNext(k - 1, urlOf, day);
      }
    }
  }

  /** One more day: its rows are added, or its failed request ends the loop. */
  lemma GatherNext(k: nat, urlOf: nat -> string, day: nat -> Result<seq<string>, string>)
    requires Gather(k, urlOf, day).error.None?
    ensures var p := Gather(k, urlOf, day);
      var r := day(k);
      Gather(k + 1, urlOf, day) ==
        if r.Err? then Progress(p.rows, p.urls + [urlOf(k)], Some(r.error))
        else Progress(p.rows + r.value, p.urls + [urlOf(k)], None)
  {
  }

  /** After a failed request the loop is over: later days add nothing. */
  lemma {:induction false} GatherStops(k: nat, k': nat, urlOf: nat -> string,
                                       day: nat -> Result<seq<string>, string>)
    requires k <= k' && Gather(k, urlOf, day).error.Some?
    ensures Gather(k', urlOf, day) == Gather(k, urlOf, day)
    decreases k' - k
  {
    if k < k' {
      GatherStops(k, k' - 1, urlOf, day);
    }
  }

  /** `parts[0] + parts[1] + ...`: the lists joined end to end, in order. */
  function Concat(parts: seq<seq<string>>): seq<string> {
    if parts == [] then [] else parts[0] + Concat(parts[1..])
  }

  lemma {:induction false} ConcatSnoc(parts: seq<seq<string>>, last: seq<string>)
    ensures Concat(parts + [last]) == Concat(parts) + last
    decreases |parts|
  {
    if parts == [] {
      assert [] + [last] == [last];
    } else {
      assert (parts + [last])[1..] == parts[1..] + [last];
      ConcatSnoc(parts[1..], last);
    }
  }

  /**
   * While no request fails, the rows gathered are the rows of day 0, then
   * those of day 1, and so on: each day's rows stay together, in day order.
   */
  lemma {:induction false} GatherRows(k: nat, urlOf: nat -> string, day: nat -> Result<seq<string>, string>)
    requires forall i :: 0 <= i < k ==> day(i).Ok?
    ensures Gather(k, urlOf, day).rows == Concat(seq(k, i requires 0 <= i < k && day(i).Ok? => day(i).value))
  {
    var parts := seq(k, i requires 0 <= i < k && day(i).Ok? => day(i).value);
    if k > 0 {
      var init := seq(k - 1, i requires 0 <= i < k - 1 && day(i).Ok? => day(i).value);
      GatherRows(k - 1, urlOf, day);
      GatherFirstFailure(k - 1, urlOf, day);
      assert parts == init + [day(k - 1).value];
      ConcatSnoc(init, day(k - 1).value);
    }
  }

  /** What `main` returns, and the URLs it requested on the way. */
  datatype Run = Run(output: string, requested: seq<string>)

  function Report(indexDays: int, currencies: seq<string>, dateOf: nat -> string, fetch: string -> Fetched<DayBody>): Run {
    match Validate(indexDays)
    case Err(msg) => Run("Error: " + msg, [])
    case Ok(n) => Tabulate(Gather(n, Urls(dateOf), Days(currencies, dateOf, fetch)))
  }

  /** The table of the gathered rows, or the error that stopped the loop. */
  function Tabulate(p: Progress): Run {
    match p.error
    case Some(e) => Run("Error: " + e, p.urls)
    case None => Run(Table(p.rows), p.urls)
  }

  /** A day count outside 1 to 9 is refused with its message before any request. */
  lemma ReportRejects(indexDays: int, currencies: seq<string>, dateOf: nat -> string, fetch: string -> Fetched<DayBody>)
    requires indexDays <= 0 || indexDays >= 10
    ensures Report(indexDays, currencies, dateOf, fetch) ==
      Run("Error: " + (if indexDays <= 0 then NotPositive else TooMany), [])
  {
  }

  /**
   * When the request for day `j` is the first to fail, the whole table is
   * replaced by that error, and exactly the days `0..j` were requested.
   */
  lemma ReportFailure(n: nat, j: nat, currencies: seq<string>, dateOf: nat -> string, fetch: string -> Fetched<DayBody>)
    requires 0 < n < 10 && j < n
    requires forall i :: 0 <= i < j ==> Request(DayUrl(dateOf(i)), fetch(DayUrl(dateOf(i)))).Ok?
    requires Request(DayUrl(dateOf(j)), fetch(DayUrl(dateOf(j)))).Err?
    ensures var run := Report(n, currencies, dateOf, fetch);
      && run.output == "Error: " + Request(DayUrl(dateOf(j)), fetch(DayUrl(dateOf(j)))).error
      && |run.requested| == j + 1
      && forall i :: 0 <= i <= j ==> run.requested[i] == DayUrl(dateOf(i))
  {
    var day := Days(currencies, dateOf, fetch);
    assert forall i :: 0 <= i < j ==> day(i).Ok?;
    assert day(j) == Err(Request(DayUrl(dateOf(j)), fetch(DayUrl(dateOf(j)))).error);
    GatherFailure(n, j, Urls(dateOf), day);
  }

  /** The body of day `i`'s reply, or no records when its request failed. */
  function Body(dateOf: nat -> string, fetch: string -> Fetched<DayBody>, i: nat): DayBody {
    match Request(DayUrl(dateOf(i)), fetch(DayUrl(dateOf(i))))
    case Ok(body) => body
    case Err(_) => DayBody(None)
  }

  /**
   * When every request succeeds, exactly the days `0..n-1` were requested, in
   * that order, and the output is the table of the rows of day 0, then of day
   * 1, and so on, each day's rows being those of its wanted records.
   */
  lemma ReportSuccess(n: nat, currencies: seq<string>, dateOf: nat -> string, fetch: string -> Fetched<DayBody>)
    requires 0 < n < 10
    requires forall i :: 0 <= i < n ==> Request(DayUrl(dateOf(i)), fetch(DayUrl(dateOf(i)))).Ok?
    ensures var run := Report(n, currencies, dateOf, fetch);
      && run.output == Table(Concat(seq(n, i requires 0 <= i < n => DayRows(dateOf(i), RatesOf(Body(dateOf, fetch, i)), currencies))))
      && |run.requested| == n
      && forall i :: 0 <= i < n ==> run.requested[i] == DayUrl(dateOf(i))
  {
    var day := Days(currencies, dateOf, fetch);
    assert forall i :: 0 <= i < n ==> day(i).Ok?;
    GatherFirstFailure(n, Urls(dateOf), day);
    GatherRequests(n, Urls(dateOf), day);
    GatherRows(n, Urls(dateOf), day);
    assert seq(n, i requires 0 <= i < n && day(i).Ok? => day(i).value) ==
      seq(n, i requires 0 <= i < n => DayRows(dateOf(i), RatesOf(Body(dateOf, fetch, i)), currencies));
  }

  lemma GatherFailure(n: nat, j: nat, urlOf: nat -> string, day: nat -> Result<seq<string>, string>)
    requires j < n
    requires forall i :: 0 <= i < j ==> day(i).Ok?
    requires day(j).Err?
    ensures var p := Gather(n, urlOf, day);
      && p.error == Some(day(j).error)
      && |p.urls| == j + 1
      && forall i :: 0 <= i <= j ==> p.urls[i] == urlOf(i)
  {
    GatherFirstFailure(j, urlOf, day);
    GatherNext(j, urlOf, day);
    GatherStops(j + 1, n, urlOf, day);
    GatherRequests(j + 1, urlOf, day);
  }

  /** Days before the first failing one leave the loop running. */
  lemma {:induction false} GatherFirstFailure(j: nat, urlOf: nat -> string,
                                              day: nat -> Result<seq<string>, string>)
    requires forall i :: 0 <= i < j ==> day(i).Ok?
    ensures Gather(j, urlOf, day).error.None?
  {
    if j > 0 {
      GatherFirstFailure(j - 1, urlOf, day);
    }
  }

  /** The loop over one day's records in `main`, appending the rows of the requested currencies. */
  method DayLines(shift: string, rates: seq<Record>, currencies: seq<string>) returns (lines: seq<string>)
    ensures lines == DayRows(shift, rates, currencies)
  {
    lines := [];
    var j := 0;
    while j < |rates|
      invariant 0 <= j <= |rates|
      invariant lines == DayRows(shift, rates[..j], currencies)
    {
      DayRowsNext(shift, rates, j, currencies);
      var rate := rates[j];
      if Wanted(rate, currencies) {
        lines := lines + [Row(shift, rate)];
      }
      j := j + 1;
    }
    assert rates[..j] == rates;
  }

  /**
   * `main(index_days, currencies)`: check the day count, then run the
   * request loop.
   */
  method BuildReport(indexDays: int, currencies: seq<string>, dateOf: nat -> string, fetch: string -> Fetched<DayBody>)
    returns (output: string, requested: seq<string>)
    ensures Run(output, requested) == Report(indexDays, currencies, dateOf, fetch)
  {
    var checked := Validate(indexDays);
    if checked.Err? {
      return "Error: " + checked.error, [];
    }
    output, requested := FetchDays(checked.value, currencies, dateOf, fetch);
  }

  /**
   * The `try` block of `main`: request the days in order, today first,
   * collecting the rows of each, then frame them as the table; a failed
   * request ends the loop with its error instead.
   */
  method FetchDays(numDays: nat, currencies: seq<string>, dateOf: nat -> string, fetch: string -> Fetched<DayBody>)
    returns (output: string, requested: seq<string>)
    ensures Run(output, requested) == Tabulate(Gather(numDays, Urls(dateOf), Days(currencies, dateOf, fetch)))
  {
    var lines: seq<string> := [];
    requested := [];
    var i := 0;
    while i < numDays
      invariant 0 <= i <= numDays
      invariant Gather(i, Urls(dateOf), Days(currencies, dateOf, fetch)) == Progress(lines, requested, None)
    {
      var shift := dateOf(i);
      var url := DayUrl(shift);
      requested := requested + [url];
      var response := Request(url, fetch(url));
      GatherNext(i, Urls(dateOf), Days(currencies, dateOf, fetch));
      if response.Err? {
        GatherStops(i + 1, numDays, Urls(dateOf), Days(currencies, dateOf, fetch));
        return "Error: " + response.error, requested;
      }
      var rows := DayLines(shift, RatesOf(response.value), currencies);
      lines := lines + rows;
      i := i + 1;
    }
    output := Table(lines);
  }

  /** The currency list of the command line: the arguments upper-cased in order, or USD and EUR when there are none. */
  method CliCurrencies(args: seq<string>) returns (currencies: seq<string>)
    ensures args == [] ==> currencies == ["USD", "EUR"]
    ensures args != [] ==>
      |currencies| == |args| && forall k :: 0 <= k < |args| ==> currencies[k] == Upper(args[k])
  {
    currencies := [];
    for i := 0 to |args|
      invariant |currencies| == i
      invariant forall k :: 0 <= k < i ==> currencies[k] == Upper(args[k])
    {
      currencies := currencies + [Upper(args[i])];
    }
    if currencies == [] {
      currencies := ["USD", "EUR"];
    }
  }
}
