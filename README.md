# Simvestify portfolio ledger, modelled in Dafny

Simvestify is a Streamlit app for simulated stock trading. A user registers
or logs in, looks up a ticker, and buys or sells shares at its last closing
price against a simulated cash balance (1000 to start). Balance and holdings
are saved to a SQLite table keyed by email. This project models the core of
that app, `main1.py`:

- `stocks.dfy` (module `Stocks`): the `Stock` helper. The ticker is
  upper-cased when the stock is created. `CurrentPrice` is the last close of
  the fetched series, or 0 when there is none.
- `ledger.dfy` (module `Ledger`): the trading rules. `Buy` and `Sell` state
  `buy_stock` and `sell_stock` as functions of the account before the trade,
  returning the new account and the reported `Event`: the kind of message
  (success, error or warning) and its payload. The class `User` holds
  `balance` and `stocksOwned` as fields. Its methods `BuyStock` and `SellStock`
  update those fields in place, in the source's order of steps, and are proved
  to agree with `Buy` and `Sell`. `Run` replays a series of orders. The
  lemmas about `Run` give conservation of money and shares, and show that a
  non-negative balance and positive holdings are kept.
- `codec.dfy` (module `Codec`): how holdings are persisted. `Encode` is the
  `{ticker: {quantity, price}}` mapping that `save_user_data` writes.
  `DecodeHoldings` is the loop in `load_user_data` that rebuilds the holdings.
  It skips entries that are not objects and defaults a missing quantity or
  price to 0. The loop is proved to compute `Decoded`. `RoundTrip` shows that
  decoding inverts encoding.
- `store.dfy` (module `Store`): the `portfolios` table as a map from email to
  row. The class `AccountStore` does REPLACE (`SaveUser`), the
  password-gated load (`LoadUser`), `UserExists` and `DeleteUser`. The client
  method `StoreScenario` saves a user, loads it with a wrong and with the
  right password, and deletes it twice, using only the method contracts.
- `scenarios.dfy` (module `Scenarios`): two client methods of `User`.
  `BuyScenario` runs a first buy, a second buy of the same ticker at a new
  price, and a refused buy. `SellScenario` sells out a position and then
  tries to sell a ticker never bought. Both use only the method contracts.
- `wrappers.dfy` (module `Wrappers`): `Option`.

Money and prices are Dafny `real`, so arithmetic is exact. Share quantities
are `int`. `buy_stock` and `sell_stock` never check the sign of the quantity,
and neither does the model. The app's form only offers quantities of 1 or
more (`main1.py:236`). The run lemmas take that as a hypothesis.

Points about the code that shape the model:

- A sell that empties a position deletes it (`main1.py:124-125`). Trades
  therefore keep every held quantity positive when the order quantity is at
  least 1: see `Buy`, `Sell` and `RunKeepsInvariants`. Loading does not have
  this guarantee. `load_user_data` defaults a missing quantity to 0 and
  accepts any stored quantity, so positivity is not an invariant of every
  account.
- `Stock` upper-cases its ticker (`main1.py:153`), so a buy files its holding
  under an upper-case key. `load_user_data` keeps each JSON key as written
  and upper-cases only the ticker of the `Stock` object kept with the holding
  (`Holding.symbol`). Decoding the encoding always gives back every ticker's
  quantity and price (`RoundTripValues`). Whole holdings come back exactly
  precisely when every holding's symbol is its upper-cased key (`RoundTrip`).
- A buy at price 0, which happens when no data was fetched, is free. The
  model keeps this, because the source does it.

## Model

| member | source | states |
|---|---|---|
| `Stocks.Upper` | main1.py:153 | The upper-cased ticker has the same length, maps every character on its own, and contains no lower-case letter |
| `Stocks.UpperIdempotent` | main1.py:153 | Upper-casing twice equals upper-casing once |
| `Stocks.NewStock` | main1.py:152-154 | A new Stock holds the upper-cased ticker, which upper-casing no longer changes, and no data yet |
| `Stocks.CurrentPrice` | main1.py:166-169 | The price is 0 when the series is missing or empty, and otherwise the last close; it is always 0 or one of the closes |
| `Stocks.CurrentPriceNonNegative` | main1.py:166-169 | The price is non-negative when no close is negative |
| `Ledger.Buy` | main1.py:104-115 | Accepted exactly when balance >= price*quantity. Accepted: debits exactly price*quantity, adds quantity to the ticker's holding, keeps the recorded purchase price of an existing holding, records the current price for a new one, leaves other tickers untouched. Refused: nothing changes and the event carries needed and available. Keeps a non-negative balance, positive quantities (for quantity >= 1), canonical symbols, and never adds an unpriced holding |
| `Ledger.Sell` | main1.py:117-129 | An unheld ticker gives "no shares" and an insufficient holding gives "only own N"; both change nothing. Accepted exactly when enough shares are held: credits exactly price*quantity, reduces the holding by quantity, removes it exactly when it reaches 0, leaves other tickers untouched. Keeps positive quantities and a non-negative balance (at non-negative price and quantity) |
| `Ledger.CashConserved` | main1.py:104-129 | Over any series of orders, the final balance is the initial balance minus every reported buy cost plus every reported sale's proceeds |
| `Ledger.SharesConserved` | main1.py:104-129 | Over any series of orders, every ticker's final holding is its initial holding plus the shares reported bought minus those reported sold |
| `Ledger.RunKeepsInvariants` | main1.py:104-129 | With quantities >= 1 and non-negative prices, a non-negative balance and all-positive holdings stay so over any series of orders |
| `Ledger.User.constructor` | main1.py:94-99 | A new user has the given name, email and password; balance defaults to 1000 and holdings to empty |
| `Ledger.User.BuyStock` | main1.py:104-115 | Changes only balance and holdings, which become exactly what `Buy` gives for the old state, and returns `Buy`'s event |
| `Ledger.User.SellStock` | main1.py:117-129 | Changes only balance and holdings, which become exactly what `Sell` gives for the old state, and returns `Sell`'s event |
| `Codec.Encode` | main1.py:29 | One object per held ticker, no other keys, carrying the holding's quantity and its price (null when it has none) |
| `Codec.Decoded` | main1.py:50-59 | Exactly the object-shaped entries become holdings (others are skipped). A present quantity or price is kept, a null price has no value, a missing quantity or price becomes 0, and each symbol is the upper-cased key |
| `Codec.DecodeHoldings` | main1.py:50-59 | The insertion loop builds exactly `Decoded` of the stored mapping |
| `Codec.RoundTrip` | main1.py:51-57 | Decoding the encoding (line 29) of holdings gives them back exactly, if and only if every symbol is its upper-cased key |
| `Codec.RoundTripValues` | main1.py:51-57 | Decoding the encoding (line 29) gives back the same tickers, each with the same quantity and purchase price, whatever the symbols |
| `Codec.PartialEntry` | main1.py:55-56 | An object with only a price keeps that price with quantity 0; with only a quantity it keeps the quantity with price 0; a null price is kept as no price |
| `Codec.CorruptEntryIsolated` | main1.py:51-59 | Replacing one entry with a non-object removes only that ticker from the decoded holdings |
| `Store.Lookup` | main1.py:39-68 | A profile is returned exactly when a row exists for the email and its password equals the given one; it carries the row's name, email, balance and decoded holdings |
| `Store.SaveThenLoad` | main1.py:29-34 | After the row for a user with canonical holdings is replaced, loading with that password returns exactly the saved name, email, password, balance and holdings |
| `Store.WrongPasswordLikeUnknownEmail` | main1.py:46 | A wrong password and an unknown email both give no result |
| `Store.AccountStore.constructor` | main1.py:10-23 | Opening the store keeps every row of the existing table, which is empty on a first run; each row is stored under its own email |
| `Store.AccountStore.SaveUser` | main1.py:25-36 | The user's row is replaced by its name, password, balance and encoded holdings; all other rows stay; each row stays under its own email |
| `Store.AccountStore.LoadUser` | main1.py:39-68 | Returns the profile exactly when the row exists and the password matches exactly, with the holdings decoded by the loop; agrees with `Lookup` |
| `Store.AccountStore.UserExists` | main1.py:79-85 | True exactly when a row exists for the email |
| `Store.AccountStore.DeleteUser` | main1.py:71-77 | Removes only that email's row; afterwards it does not exist; deleting an absent email changes nothing |

## Left out

- The Streamlit UI: forms, session state, registration and login page flow, and the delete confirmation (`main1.py:180-254`). The rules that flow relies on are in `AccountStore`.
- Message rendering and the `stock_notify` toast (`main1.py:101-102`). Each trade returns an `Event` with the message's kind and payload instead.
- `show_portfolio` (`main1.py:131-148`) only renders. Its one check, a holding with no purchase price, is the set `Ledger.Unpriced`. `Buy` and `Sell` are proved never to enlarge that set. The insertion order of holdings is not modelled, because Dafny maps have no order.
- `Stock.fetch_data` (`main1.py:159-164`) is a network call to the market-data provider. The closing-price series is a value given to `Stock` instead.
- `Stock.plot_price` and `__str__` (`main1.py:156-157`, `171-177`) are charting and display.
- SQLite: connections, `create_table`'s SQL and the database file. The table is a map from email to row.
- JSON text: `json.dumps` and `json.loads` belong to a library outside the model. A stored holdings column is the decoded JSON value.
- A stored holdings column whose top level is not an object is not modelled: `stock_quantities.items()` raises on it (`main1.py:51`). A stored column here is always an object, a map from ticker to entry.
- A null or non-numeric quantity is not modelled; a stored quantity is only absent or an integer. In the source such a quantity is loaded as it is, shown by `show_portfolio` (`main1.py:146`) and written back unchanged by `save_user_data` (`main1.py:29`). Only a buy or sell of that ticker raises, at the quantity update (`main1.py:109`) or the comparison (`main1.py:119`).
- A non-numeric price is not modelled; a stored price is only absent, null or a number. In the source it is loaded as it is, and `show_portfolio` raises when it formats it (`main1.py:145`).
- `Stocks.Upper`: only ASCII letters are upper-cased. Python's `str.upper` also maps non-ASCII letters, some to two characters.
- Floating-point rounding and `:.2f` formatting: money is exact `real`.
- `print` logging (`main1.py:48`, `59`, `77`).
