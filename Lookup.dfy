/**
 * The two rate lookups of the chat server, `get_exchange_today` and
 * `get_exchange`, as functions of the reply the provider gave. A missing
 * dictionary key is not caught by them and escapes as `KeyError`.
 */
module Lookup {
  import opened Wrappers
  import opened Faults
  import opened RateApi

  const TodayFallback := "Error: I dint know today's exchange rates."

  function DateFallback(date: string, currency: string): string {
    "I cant find rates for " + currency + " on " + date + "."
  }

  /** The line shown for today's USD record. */
  function TodayLine(buy: string, sale: string): string {
    "USD: buy: " + buy + ", sale: " + sale
  }

  /** The line shown for a historical record. */
  function DateLine(date: string, currency: string, purchase: string, sale: string): string {
    "Date: " + date + ", " + currency + ": buy: " + purchase + ", sale: " + sale
  }

  /** `get_exchange_today()`, given the reply of the current-rates endpoint. */
  function ExchangeToday(reply: Fetched<seq<Record>>): Result<string, Fault> {
    match reply
    case Failed(_) => Ok(TodayFallback)
    case Response(status, records) =>
      if status != 200 then Ok(TodayFallback)
      else
        match Search(records, "ccy", "USD")
        case MissingKey(_) => Err(KeyError("ccy"))
        case Absent => Ok(TodayFallback)
        case Found(i) =>
          var rec := records[i];
          if "buy" !in rec then Err(KeyError("buy"))
          else if "sale" !in rec then Err(KeyError("sale"))
          else Ok(TodayLine(rec["buy"], rec["sale"]))
  }

  /** `get_exchange(date, currency)`, given the reply of the historical endpoint for `date`. */
  function Exchange(date: string, currency: string, reply: Fetched<DayBody>): Result<string, Fault> {
    match reply
    case Failed(_) => Ok(DateFallback(date, currency))
    case Response(status, body) =>
      if status != 200 then Ok(DateFallback(date, currency))
      else
        match body.exchangeRate
        case None => Err(KeyError("exchangeRate"))
        case Some(records) =>
          match Search(records, "currency", currency)
          case MissingKey(_) => Err(KeyError("currency"))
          case Absent => Ok(DateFallback(date, currency))
          case Found(i) =>
            var rec := records[i];
            if "purchaseRate" !in rec then Err(KeyError("purchaseRate"))
            else if "saleRate" !in rec then Err(KeyError("saleRate"))
            else Ok(DateLine(date, currency, rec["purchaseRate"], rec["saleRate"]))
  }

  /** A failed request or a non-200 status always gives the fixed fallback, never an error. */
  lemma TodayUnavailable(reply: Fetched<seq<Record>>)
    requires reply.Failed? || reply.status != 200
    ensures ExchangeToday(reply) == Ok(TodayFallback)
  {
  }

  /**
   * With a 200 reply whose first USD record is at `i`, the result is that
   * record's buy and sale rates (or a `KeyError` for the first one missing).
   */
  lemma TodayFirstUsd(records: seq<Record>, i: nat)
    requires i < |records| && Passed(records, "ccy", "USD", i)
    requires "ccy" in records[i] && records[i]["ccy"] == "USD"
    ensures ExchangeToday(Response(200, records)) ==
      if "buy" !in records[i] then Err(KeyError("buy"))
      else if "sale" !in records[i] then Err(KeyError("sale"))
      else Ok(TodayLine(records[i]["buy"], records[i]["sale"]))
  {
    SearchFindsFirst(records, "ccy", "USD", i);
  }

  /** A 200 reply whose records all carry `ccy` but none is USD gives the fallback. */
  lemma TodayNoUsd(records: seq<Record>)
    requires Passed(records, "ccy", "USD", |records|)
    ensures ExchangeToday(Response(200, records)) == Ok(TodayFallback)
  {
  }

  /** A record lacking `ccy` before the first USD record raises `KeyError("ccy")`. */
  lemma TodayMissingCcy(records: seq<Record>, i: nat)
    requires i < |records| && Passed(records, "ccy", "USD", i) && "ccy" !in records[i]
    ensures ExchangeToday(Response(200, records)) == Err(KeyError("ccy"))
  {
  }

  /** The lookup only fails with `KeyError`, and the key is one it reads. */
  lemma TodayFaults(reply: Fetched<seq<Record>>)
    ensures ExchangeToday(reply).Err? ==>
      ExchangeToday(reply).error in {KeyError("ccy"), KeyError("buy"), KeyError("sale")}
  {
  }

  /** The lookup only fails with `KeyError`, and the key is one it reads. */
  lemma DateFaults(date: string, currency: string, reply: Fetched<DayBody>)
    ensures Exchange(date, currency, reply).Err? ==>
      Exchange(date, currency, reply).error in
        {KeyError("exchangeRate"), KeyError("currency"), KeyError("purchaseRate"), KeyError("saleRate")}
  {
  }

  /** A failed request or a non-200 status gives the fallback that names the date and currency. */
  lemma DateUnavailable(date: string, currency: string, reply: Fetched<DayBody>)
    requires reply.Failed? || reply.status != 200
    ensures Exchange(date, currency, reply) == Ok(DateFallback(date, currency))
  {
  }

  /**
   * With a 200 reply whose first record for `currency` is at `i`, the result
   * is the line with that record's purchase and sale rates.
   */
  lemma DateFirstMatch(date: string, currency: string, records: seq<Record>, i: nat)
    requires i < |records| && Passed(records, "currency", currency, i)
    requires "currency" in records[i] && records[i]["currency"] == currency
    ensures Exchange(date, currency, Response(200, DayBody(Some(records)))) ==
      if "purchaseRate" !in records[i] then Err(KeyError("purchaseRate"))
      else if "saleRate" !in records[i] then Err(KeyError("saleRate"))
      else Ok(DateLine(date, currency, records[i]["purchaseRate"], records[i]["saleRate"]))
  {
    SearchFindsFirst(records, "currency", currency, i);
  }

  /** A 200 reply with records for other currencies only gives the fallback. */
  lemma DateNoMatch(date: string, currency: string, records: seq<Record>)
    requires Passed(records, "currency", currency, |records|)
    ensures Exchange(date, currency, Response(200, DayBody(Some(records)))) ==
      Ok(DateFallback(date, currency))
  {
  }

  /** A record lacking `currency` before the first match raises `KeyError("currency")`. */
  lemma DateMissingCurrency(date: string, currency: string, records: seq<Record>, i: nat)
    requires i < |records| && Passed(records, "currency", currency, i) && "currency" !in records[i]
    ensures Exchange(date, currency, Response(200, DayBody(Some(records)))) == Err(KeyError("currency"))
  {
  }

  /** A 200 reply without an `exchangeRate` key raises `KeyError`. */
  lemma DateNoRateList(date: string, currency: string)
    ensures Exchange(date, currency, Response(200, DayBody(None))) == Err(KeyError("exchangeRate"))
  {
  }
}
