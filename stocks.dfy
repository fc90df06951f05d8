/**
 * The `Stock` helper of the trading app: a ticker symbol, upper-cased when the
 * stock is created, and the recent closing-price series fetched for it. The
 * fetch itself is a network call and is not modelled: the series is a value
 * handed in by the caller, `None` until something was fetched.
 */
module Stocks {
  import opened Wrappers

  /** ASCII upper-casing of one character; every other character is left as it is. */
  function UpperChar(c: char): char
  {
    if 'a' <= c <= 'z' then (c as int - 32) as char else c
  }

  /** No character of `s` is a lower-case ASCII letter. */
  predicate IsUpper(s: string)
  {
    forall i :: 0 <= i < |s| ==> !('a' <= s[i] <= 'z')
  }

  /** `str.upper()` restricted to ASCII: same length, each letter mapped on its own. */
  function Upper(s: string): (r: string)
    ensures |r| == |s|
    ensures forall i :: 0 <= i < |s| ==> r[i] == UpperChar(s[i])
    ensures IsUpper(r)
  {
    if s == [] then [] else [UpperChar(s[0])] + Upper(s[1..])
  }

  /** Upper-casing is idempotent. */
  lemma UpperIdempotent(s: string)
    ensures Upper(Upper(s)) == Upper(s)
  {
  }

  /** A stock: its ticker and, once fetched, its recent closing prices (oldest first). */
  datatype Stock = Stock(ticker: string, closes: Option<seq<real>>)

  /** `Stock(ticker)`: the ticker is upper-cased and nothing has been fetched yet. */
  function NewStock(ticker: string): (s: Stock)
    ensures s.ticker == Upper(ticker) && s.closes == None
    ensures Upper(s.ticker) == s.ticker
  {
    Stock(Upper(ticker), None)
  }

  /** The price used for trading: the last close, or 0 when there is no data. */
  function CurrentPrice(s: Stock): (p: real)
    ensures s.closes == None || s.closes == Some([]) ==> p == 0.0
    ensures s.closes.Some? && s.closes.value != [] ==> p == s.closes.value[|s.closes.value| - 1]
    ensures p == 0.0 || (s.closes.Some? && p in s.closes.value)
  {
    if s.closes == None || s.closes == Some([]) then 0.0
    else s.closes.value[|s.closes.value| - 1]
  }

  /** Every close of the stock's series is non-negative. */
  predicate NonNegativeCloses(s: Stock)
  {
    s.closes.Some? ==> forall i :: 0 <= i < |s.closes.value| ==> s.closes.value[i] >= 0.0
  }

  /** Prices are never negative when the series has no negative close. */
  lemma CurrentPriceNonNegative(s: Stock)
    requires NonNegativeCloses(s)
    ensures CurrentPrice(s) >= 0.0
  {
  }
}
