/**
 * The exchange-rate provider as the core sees it: decoded JSON rate records,
 * the two reply shapes, and the first-match search both lookups perform.
 */
module RateApi {
  import opened Wrappers

  /** One decoded rate object; each field value is kept as the text it renders to. */
  type Record = map<string, string>

  /** The body of the historical endpoint: its `exchangeRate` list, if the key is present. */
  datatype DayBody = DayBody(exchangeRate: Option<seq<Record>>)

  /**
   * The outcome of one HTTP GET: an aiohttp client error (with its text), or a
   * response with its status and decoded body.
   */
  datatype Fetched<B> = Failed(reason: string) | Response(status: int, body: B)

  /**
   * What `next(filter(lambda el: el[key] == value, records), None)` does:
   * return the index of the first match, find none, or raise `KeyError` at the
   * first record that lacks `key` before any match.
   */
  datatype Hit = Found(index: nat) | Absent | MissingKey(index: nat)

  /** Every record before `i` has `key`, with a value other than `value`. */
  predicate Passed(records: seq<Record>, key: string, value: string, i: nat)
    requires i <= |records|
  {
    forall j :: 0 <= j < i ==> key in records[j] && records[j][key] != value
  }

  function Search(records: seq<Record>, key: string, value: string): (h: Hit)
    ensures h.Found? ==>
      h.index < |records| && key in records[h.index] && records[h.index][key] == value
      && Passed(records, key, value, h.index)
    ensures h.MissingKey? ==>
      h.index < |records| && key !in records[h.index] && Passed(records, key, value, h.index)
    ensures h.Absent? ==> Passed(records, key, value, |records|)
  {
    SearchFrom(records, key, value, 0)
  }

  function SearchFrom(records: seq<Record>, key: string, value: string, i: nat): (h: Hit)
    requires i <= |records| && Passed(records, key, value, i)
    ensures h.Found? ==>
      i <= h.index < |records| && key in records[h.index] && records[h.index][key] == value
      && Passed(records, key, value, h.index)
    ensures h.MissingKey? ==>
      i <= h.index < |records| && key !in records[h.index] && Passed(records, key, value, h.index)
    ensures h.Absent? ==> Passed(records, key, value, |records|)
    decreases |records| - i
  {
    if i == |records| then Absent
    else if key !in records[i] then MissingKey(i)
    else if records[i][key] == value then Found(i)
    else SearchFrom(records, key, value, i + 1)
  }

  /** The search stops at the first match: a match at `i` after passed records is what it finds. */
  lemma SearchFindsFirst(records: seq<Record>, key: string, value: string, i: nat)
    requires i < |records| && Passed(records, key, value, i)
    requires key in records[i] && records[i][key] == value
    ensures Search(records, key, value) == Found(i)
  {
  }
}
