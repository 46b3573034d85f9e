/**
 * What the chat server does with one incoming text message (the body of the
 * receive loop of `Server.distrubute`): classify it, consult the rate
 * provider when it asks for rates, and produce the text to broadcast, or the
 * exception that ends the connection's handler.
 */
module Dispatch {
  import opened Wrappers
  import opened Faults
  import opened PyText
  import opened RateApi
  import opened Lookup

  datatype Command =
    | DateLookup(date: string, currency: string)  // `exchange <date> <currency> ...`
    | BadExchange                                 // `exchange` with nothing after it
    | TodayLookup                                 // exactly `today`
    | Chat(text: string)                          // anything else

  const BadFormat := "Invalid 'exchange' command format."

  /**
   * The classification: the `exchange` prefix is tested first and needs no
   * whitespace after it; the currency is upper-cased, extra tokens are ignored,
   * and two tokens make `parts[2]` raise `IndexError`.
   */
  function Parse(message: string): Result<Command, Fault> {
    if "exchange" <= message then
      var parts := Split(message);
      if |parts| > 1 then
        if |parts| > 2 then Ok(DateLookup(parts[1], Upper(parts[2]))) else Err(IndexError)
      else Ok(BadExchange)
    else if message == "today" then Ok(TodayLookup)
    else Ok(Chat(message))
  }

  /**
   * The replies the provider gives while one message is handled: the
   * current-rates reply, and the historical reply for each date.
   */
  datatype Provider = Provider(today: Fetched<seq<Record>>, onDate: string -> Fetched<DayBody>)

  function ChatLine(name: string, message: string): string {
    name + ": " + message
  }

  /** The text broadcast for `message` from the client named `name`. */
  function Respond(message: string, name: string, provider: Provider): Result<string, Fault> {
    match Parse(message)
    case Err(f) => Err(f)
    case Ok(DateLookup(date, currency)) => Exchange(date, currency, provider.onDate(date))
    case Ok(BadExchange) => Ok(BadFormat)
    case Ok(TodayLookup) => ExchangeToday(provider.today)
    case Ok(Chat(text)) => Ok(ChatLine(name, text))
  }

  /** `today` broadcasts the result of the current-rates lookup. */
  lemma TodayRequest(name: string, provider: Provider)
    ensures Parse("today") == Ok(TodayLookup)
    ensures Respond("today", name, provider) == ExchangeToday(provider.today)
  {
  }

  /** A message starting with `exchange` is never taken as `today` or as chat. */
  lemma ExchangeFirst(message: string)
    requires "exchange" <= message
    ensures Parse(message).Ok? ==> Parse(message).value.DateLookup? || Parse(message).value.BadExchange?
  {
  }

  /**
   * The forms of an exchange command: a first token starting with `exchange`
   * (such as `exchangeX`) and further tokens, each token followed by a run of
   * whitespace (any length, tabs and newlines included; the last run may be
   * empty). No further token is the bad-format message, one raises
   * `IndexError`, and two or more look up the first as the date and the
   * second, upper-cased, as the currency.
   */
  lemma {:induction false} ExchangeForms(head: string, rest: seq<string>, gaps: seq<string>,
                                         name: string, provider: Provider)
    requires IsWord(head) && "exchange" <= head
    requires forall k :: 0 <= k < |rest| ==> IsWord(rest[k])
    requires |gaps| == |rest| + 1 && Separating(gaps)
    ensures var message := Spaced([head] + rest, gaps);
      && (|rest| == 0 ==> Respond(message, name, provider) == Ok(BadFormat))
      && (|rest| == 1 ==> Respond(message, name, provider) == Err(IndexError))
      && (|rest| >= 2 ==>
            Parse(message) == Ok(DateLookup(rest[0], Upper(rest[1])))
            && Respond(message, name, provider) ==
                 Exchange(rest[0], Upper(rest[1]), provider.onDate(rest[0])))
  {
    var words := [head] + rest;
    var message := Spaced(words, gaps);
    forall k | 0 <= k < |words| ensures IsWord(words[k]) {
      if k > 0 { assert words[k] == rest[k - 1]; }
    }
    SplitSpaced(words, gaps);
    assert words[1..] == rest;
    assert message == head + (gaps[0] + Spaced(rest, gaps[1..]));
    assert "exchange" <= message;
  }

  /** Every other message is broadcast as the sender's name, a colon, and the message. */
  lemma ChatMessage(message: string, name: string, provider: Provider)
    requires !("exchange" <= message) && message != "today"
    ensures Respond(message, name, provider) == Ok(ChatLine(name, message))
  {
  }

  /** A message only fails on the two-token exchange form or on a lookup's `KeyError`. */
  lemma RespondFaults(message: string, name: string, provider: Provider)
    ensures Respond(message, name, provider) == Err(IndexError) <==>
      "exchange" <= message && |Split(message)| == 2
    ensures Respond(message, name, provider).Err? ==>
      Respond(message, name, provider).error == IndexError
      || Respond(message, name, provider).error.KeyError?
  {
    ParseFaults(message);
    match Parse(message)
    case Err(_) =>
    case Ok(DateLookup(date, currency)) => DateFaults(date, currency, provider.onDate(date));
    case Ok(BadExchange) =>
    case Ok(TodayLookup) => TodayFaults(provider.today);
    case Ok(Chat(_)) =>
  }

  /** Classification only fails on the two-token exchange form, with `IndexError`. */
  lemma ParseFaults(message: string)
    ensures Parse(message).Err? <==> "exchange" <= message && |Split(message)| == 2
    ensures Parse(message).Err? ==> Parse(message).error == IndexError
  {
  }

  /** The documented lookup example: the currency is upper-cased. */
  lemma ExampleLookup()
    ensures Parse("exchange 01.01.2024 usd") == Ok(DateLookup("01.01.2024", "USD"))
  {
    var words := ["01.01.2024", "usd"];
    var gaps := [" ", " ", ""];
    WordsOfExample(words, gaps);
    ExchangeForms("exchange", words, gaps, "", Provider(Failed(""), d => Failed("")));
    SpacedExample();
  }

  lemma WordsOfExample(words: seq<string>, gaps: seq<string>)
    requires words == ["01.01.2024", "usd"] && gaps == [" ", " ", ""]
    ensures forall k :: 0 <= k < |words| ==> IsWord(words[k])
    ensures Separating(gaps)
    ensures Upper(words[1]) == "USD"
  {
  }

  lemma SpacedExample()
    ensures Spaced(["exchange"] + ["01.01.2024", "usd"], [" ", " ", ""]) == "exchange 01.01.2024 usd"
  {
    var words, gaps := ["exchange"] + ["01.01.2024", "usd"], [" ", " ", ""];
    assert words[1..][1..] == ["usd"] && gaps[1..][1..] == [""];
    assert Spaced(words[1..][1..], gaps[1..][1..]) == "usd";
    assert Spaced(words[1..], gaps[1..]) == "01.01.2024" + " " + "usd";
  }

  /** Runs of whitespace and a trailing newline separate the tokens like single spaces. */
  lemma ExampleWideSpacing()
    ensures Parse("exchange\t01.01.2024  usd\n") == Ok(DateLookup("01.01.2024", "USD"))
  {
    var words := ["01.01.2024", "usd"];
    var gaps := ["\t", "  ", "\n"];
    WordsOfWideExample(words, gaps);
    ExchangeForms("exchange", words, gaps, "", Provider(Failed(""), d => Failed("")));
    SpacedWideExample();
  }

  lemma WordsOfWideExample(words: seq<string>, gaps: seq<string>)
    requires words == ["01.01.2024", "usd"] && gaps == ["\t", "  ", "\n"]
    ensures forall k :: 0 <= k < |words| ==> IsWord(words[k])
    ensures Separating(gaps)
    ensures Upper(words[1]) == "USD"
  {
  }

  lemma SpacedWideExample()
    ensures Spaced(["exchange"] + ["01.01.2024", "usd"], ["\t", "  ", "\n"]) == "exchange\t01.01.2024  usd\n"
  {
    var words, gaps := ["exchange"] + ["01.01.2024", "usd"], ["\t", "  ", "\n"];
    assert words[1..][1..] == ["usd"] && gaps[1..][1..] == ["\n"];
    assert Spaced(words[1..][1..], gaps[1..][1..]) == "usd\n";
    assert Spaced(words[1..], gaps[1..]) == "01.01.2024" + "  " + "usd\n";
  }

  /** The prefix test needs no space after `exchange`, and a fourth token is ignored. */
  lemma ExampleGluedPrefix()
    ensures Parse("exchangeX 01.01.2024 eur extra") == Ok(DateLookup("01.01.2024", "EUR"))
  {
    var words := ["01.01.2024", "eur", "extra"];
    var gaps := [" ", " ", " ", ""];
    WordsOfGluedExample(words, gaps);
    ExchangeForms("exchangeX", words, gaps, "", Provider(Failed(""), d => Failed("")));
    SpacedGluedExample();
  }

  lemma WordsOfGluedExample(words: seq<string>, gaps: seq<string>)
    requires words == ["01.01.2024", "eur", "extra"] && gaps == [" ", " ", " ", ""]
    ensures IsWord("exchangeX") && "exchange" <= "exchangeX"
    ensures forall k :: 0 <= k < |words| ==> IsWord(words[k])
    ensures Separating(gaps)
    ensures Upper(words[1]) == "EUR"
  {
  }

  lemma SpacedGluedExample()
    ensures Spaced(["exchangeX"] + ["01.01.2024", "eur", "extra"], [" ", " ", " ", ""])
      == "exchangeX 01.01.2024 eur extra"
  {
    var words, gaps := ["exchangeX"] + ["01.01.2024", "eur", "extra"], [" ", " ", " ", ""];
    assert words[1..][1..][1..] == ["extra"] && gaps[1..][1..][1..] == [""];
    assert Spaced(words[1..][1..][1..], gaps[1..][1..][1..]) == "extra";
    assert Spaced(words[1..][1..], gaps[1..][1..]) == "eur" + " " + "extra";
    assert Spaced(words[1..], gaps[1..]) == "01.01.2024" + " " + "eur extra";
  }

  /** A date without a currency raises `IndexError`. */
  lemma ExampleMissingCurrency(name: string, provider: Provider)
    ensures Respond("exchange 01.01.2024", name, provider) == Err(IndexError)
  {
    WordsOfMissingCurrency();
    ExchangeForms("exchange", ["01.01.2024"], [" ", ""], name, provider);
    SpacedMissingCurrency();
  }

  lemma WordsOfMissingCurrency()
    ensures IsWord("exchange")
    ensures forall k :: 0 <= k < |["01.01.2024"]| ==> IsWord(["01.01.2024"][k])
    ensures Separating([" ", ""])
  {
    assert IsWord("01.01.2024");
  }

  lemma SpacedMissingCurrency()
    ensures Spaced(["exchange"] + ["01.01.2024"], [" ", ""]) == "exchange 01.01.2024"
  {
    var words, gaps := ["exchange"] + ["01.01.2024"], [" ", ""];
    assert words[1..] == ["01.01.2024"] && gaps[1..] == [""];
    assert Spaced(words[1..], gaps[1..]) == "01.01.2024";
  }

  /** `exchange` alone is the bad-format message. */
  lemma ExampleBareExchange(name: string, provider: Provider)
    ensures Respond("exchange", name, provider) == Ok(BadFormat)
  {
    assert IsWord("exchange") && Separating([""]);
    ExchangeForms("exchange", [], [""], name, provider);
    assert Spaced(["exchange"], [""]) == "exchange";
  }

  /** So is `exchange` followed by whitespace only. */
  lemma ExampleBlankExchange(name: string, provider: Provider)
    ensures Respond("exchange \n", name, provider) == Ok(BadFormat)
  {
    assert IsWord("exchange") && Separating([" \n"]);
    ExchangeForms("exchange", [], [" \n"], name, provider);
    assert Spaced(["exchange"], [" \n"]) == "exchange \n";
  }
}
