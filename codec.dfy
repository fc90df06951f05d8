/**
 * How holdings are persisted: `save_user_data` writes each holding as a JSON
 * object `{quantity, price}` under its ticker, and `load_user_data` rebuilds the
 * holdings from that mapping. The JSON text itself is not modelled; a stored
 * entry is the decoded JSON value, either an object (with each field present
 * or not) or anything else.
 */
module Codec {
  import opened Wrappers
  import opened Stocks
  import opened Ledger

  /** The `price` field of a stored object: absent, JSON null, or a number. */
  datatype PriceField = PriceMissing | PriceNull | PriceValue(value: real)

  /** One stored value: an object with optional `quantity` and `price`, or a value of another shape. */
  datatype Entry = Dict(quantity: Option<int>, price: PriceField) | NotDict

  /** The decoded JSON mapping kept in the `stocks_owned` column. */
  type Stored = map<string, Entry>

  function EncodeHolding(h: Holding): Entry
  {
    Dict(Some(h.quantity), if h.price.Some? then PriceValue(h.price.value) else PriceNull)
  }

  /** The mapping `save_user_data` writes: one object per ticker, the Stock object dropped. */
  function Encode(h: Holdings): (r: Stored)
    ensures r.Keys == h.Keys
    ensures forall t :: t in r ==> r[t].Dict? && r[t].quantity == Some(h[t].quantity)
    ensures forall t :: t in r && h[t].price.Some? ==> r[t].price == PriceValue(h[t].price.value)
    ensures forall t :: t in r && h[t].price.None? ==> r[t].price == PriceNull
  {
    map t | t in h :: EncodeHolding(h[t])
  }

  /** The holding `load_user_data` rebuilds from an object entry; missing fields default to 0. */
  function DecodeEntry(t: string, quantity: Option<int>, price: PriceField): Holding
  {
    Holding(Upper(t), quantity.GetOr(0),
            match price
            case PriceMissing => Some(0.0)
            case PriceNull => None
            case PriceValue(p) => Some(p))
  }

  /** The holdings `load_user_data` rebuilds: entries that are not objects are skipped. */
  function Decoded(s: Stored): (r: Holdings)
    ensures forall t :: t in r <==> t in s && s[t].Dict?
    ensures forall t :: t in r ==> r[t].symbol == Upper(t)
    ensures forall t :: t in s && s[t].Dict? && s[t].quantity.Some? ==> r[t].quantity == s[t].quantity.value
    ensures forall t :: t in s && s[t].Dict? && s[t].quantity == None ==> r[t].quantity == 0
    ensures forall t :: t in s && s[t].Dict? && s[t].price.PriceValue? ==> r[t].price == Some(s[t].price.value)
    ensures forall t :: t in s && s[t].Dict? && s[t].price == PriceNull ==> r[t].price == None
    ensures forall t :: t in s && s[t].Dict? && s[t].price == PriceMissing ==> r[t].price == Some(0.0)
  {
    map t | t in s && s[t].Dict? :: DecodeEntry(t, s[t].quantity, s[t].price)
  }

  /** The loop of `load_user_data` that inserts one decoded holding per object entry. */
  method DecodeHoldings(s: Stored) returns (h: Holdings)
    ensures h == Decoded(s)
  {
    h := map[];
    var rest := s.Keys;
    while rest != {}
      invariant rest <= s.Keys
      invariant forall t :: t in h <==> t in s && t !in rest && s[t].Dict?
      invariant forall t :: t in h ==> h[t] == DecodeEntry(t, s[t].quantity, s[t].price)
      decreases rest
    {
      var t :| t in rest;
      match s[t] {
        case Dict(q, p) =>
          h := h[t := DecodeEntry(t, q, p)];
        case NotDict =>
      }
      rest := rest - {t};
    }
  }

  /** Decoding the encoding gives back every holding exactly, precisely when each symbol is its upper-cased key. */
  lemma RoundTrip(h: Holdings)
    ensures Decoded(Encode(h)) == h <==> Canonical(h)
  {
  }

  /** Whatever the symbols, every ticker comes back with the same quantity and purchase price. */
  lemma RoundTripValues(h: Holdings)
    ensures Decoded(Encode(h)).Keys == h.Keys
    ensures forall t :: t in h ==>
      Decoded(Encode(h))[t].quantity == h[t].quantity && Decoded(Encode(h))[t].price == h[t].price
  {
  }

  /** An object with only some fields keeps those fields and defaults the others. */
  lemma PartialEntry(s: Stored, t: string, p: real, q: int)
    ensures Decoded(s[t := Dict(None, PriceValue(p))])[t] == Holding(Upper(t), 0, Some(p))
    ensures Decoded(s[t := Dict(Some(q), PriceMissing)])[t] == Holding(Upper(t), q, Some(0.0))
    ensures Decoded(s[t := Dict(Some(q), PriceNull)])[t] == Holding(Upper(t), q, None)
  {
  }

  /** A corrupt entry costs only its own holding: the rest of the mapping decodes as before. */
  lemma CorruptEntryIsolated(s: Stored, t: string)
    ensures Decoded(s[t := NotDict]) == Decoded(s) - {t}
  {
  }
}
