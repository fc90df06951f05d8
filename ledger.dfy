/**
 * The portfolio ledger: one user's cash balance and holdings, and the buy and
 * sell rules that change them. `Buy` and `Sell` state each rule as a function
 * of the account before the trade; the class `User` performs the same rules in
 * place and is proved to agree with them. What a trade reports to the user is
 * an `Event` (the kind of message and its payload); how it is rendered is not
 * part of the model.
 */
module Ledger {
  import opened Wrappers
  import opened Stocks

  /** Starting cash of a new account. */
  const DefaultBalance: real := 1000.0

  /**
   * One entry of `stocks_owned`: the ticker of the Stock object kept with it,
   * the number of shares and the price recorded when the position was opened
   * (`None` when the persisted price was null).
   */
  datatype Holding = Holding(symbol: string, quantity: int, price: Option<real>)

  /** Holdings keyed by ticker. */
  type Holdings = map<string, Holding>

  /** The part of a user that trading changes. */
  datatype Account = Account(balance: real, holdings: Holdings)

  /** What a trade reports to the user. */
  datatype Event =
    | Bought(ticker: string, quantity: int, price: real)
    | NotEnoughBalance(needed: real, available: real)
    | Sold(ticker: string, quantity: int, price: real)
    | OnlyOwn(ticker: string, owned: int)
    | NoShares(ticker: string)

  /** The account after a trade and what the trade reported. */
  datatype Trade = Trade(account: Account, event: Event)

  /** Price times quantity. */
  function Cost(price: real, quantity: int): real
  {
    price * quantity as real
  }

  /** Number of shares of `t` held; 0 when there is no holding. */
  function Held(h: Holdings, t: string): int
  {
    if t in h then h[t].quantity else 0
  }

  /** Every held quantity is positive. */
  predicate AllPositive(h: Holdings)
  {
    forall t :: t in h ==> h[t].quantity > 0
  }

  /** Every holding carries the upper-cased form of its key as its symbol. */
  predicate Canonical(h: Holdings)
  {
    forall t :: t in h ==> h[t].symbol == Upper(t)
  }

  /** Tickers whose holding has no recorded purchase price. */
  function Unpriced(h: Holdings): set<string>
  {
    set t | t in h && h[t].price == None
  }

  /** `a` and `b` agree on every ticker other than `t`. */
  ghost predicate SameExcept(a: Holdings, b: Holdings, t: string)
  {
    forall u :: u != t ==> (u in a <==> u in b) && (u in a ==> a[u] == b[u])
  }

  /** `User.buy_stock`: buy `quantity` shares at the stock's current price if the balance covers it. */
  function Buy(a: Account, stock: Stock, quantity: int): (r: Trade)
    // accepted exactly when the balance covers the cost
    ensures r.event.Bought? <==> a.balance >= Cost(CurrentPrice(stock), quantity)
    // a rejected buy changes nothing and reports what was needed and what was there
    ensures !r.event.Bought? ==>
      r.account == a && r.event == NotEnoughBalance(Cost(CurrentPrice(stock), quantity), a.balance)
    // an accepted buy debits exactly the cost and adds the shares
    ensures r.event.Bought? ==>
      && r.event == Bought(stock.ticker, quantity, CurrentPrice(stock))
      && r.account.balance == a.balance - Cost(CurrentPrice(stock), quantity)
      && stock.ticker in r.account.holdings
      && Held(r.account.holdings, stock.ticker) == Held(a.holdings, stock.ticker) + quantity
      && SameExcept(a.holdings, r.account.holdings, stock.ticker)
    // the first purchase price sticks; a new position records the current price
    ensures r.event.Bought? && stock.ticker in a.holdings ==>
      && r.account.holdings[stock.ticker].price == a.holdings[stock.ticker].price
      && r.account.holdings[stock.ticker].symbol == a.holdings[stock.ticker].symbol
    ensures r.event.Bought? && stock.ticker !in a.holdings ==>
      r.account.holdings[stock.ticker] == Holding(stock.ticker, quantity, Some(CurrentPrice(stock)))
    // invariants a buy keeps
    ensures a.balance >= 0.0 ==> r.account.balance >= 0.0
    ensures AllPositive(a.holdings) && quantity >= 1 ==> AllPositive(r.account.holdings)
    ensures Canonical(a.holdings) && Upper(stock.ticker) == stock.ticker ==> Canonical(r.account.holdings)
    ensures Unpriced(r.account.holdings) <= Unpriced(a.holdings)
  {
    var price := CurrentPrice(stock);
    var total := Cost(price, quantity);
    if a.balance >= total then
      var t := stock.ticker;
      var h := if t in a.holdings then a.holdings[t].(quantity := a.holdings[t].quantity + quantity)
               else Holding(t, quantity, Some(price));
      Trade(Account(a.balance - total, a.holdings[t := h]), Bought(t, quantity, price))
    else
      Trade(a, NotEnoughBalance(total, a.balance))
  }

  /** `User.sell_stock`: sell `quantity` shares of a held ticker at its current price. */
  function Sell(a: Account, stock: Stock, quantity: int): (r: Trade)
    // a ticker that is not held is refused with "no shares"
    ensures stock.ticker !in a.holdings ==> r == Trade(a, NoShares(stock.ticker))
    // selling more than held is refused with "only own N"
    ensures stock.ticker in a.holdings && a.holdings[stock.ticker].quantity < quantity ==>
      r == Trade(a, OnlyOwn(stock.ticker, a.holdings[stock.ticker].quantity))
    // accepted exactly when the ticker is held in sufficient quantity
    ensures r.event.Sold? <==> stock.ticker in a.holdings && a.holdings[stock.ticker].quantity >= quantity
    ensures !r.event.Sold? ==> r.account == a
    // an accepted sell credits exactly the proceeds and removes the shares
    ensures r.event.Sold? ==>
      && r.event == Sold(stock.ticker, quantity, CurrentPrice(stock))
      && r.account.balance == a.balance + Cost(CurrentPrice(stock), quantity)
      && Held(r.account.holdings, stock.ticker) == Held(a.holdings, stock.ticker) - quantity
      && SameExcept(a.holdings, r.account.holdings, stock.ticker)
    // a holding that reaches zero is removed; otherwise only its quantity changes
    ensures r.event.Sold? ==>
      (stock.ticker !in r.account.holdings <==> a.holdings[stock.ticker].quantity == quantity)
    ensures r.event.Sold? && stock.ticker in r.account.holdings ==>
      r.account.holdings[stock.ticker] ==
        a.holdings[stock.ticker].(quantity := a.holdings[stock.ticker].quantity - quantity)
    // invariants a sell keeps
    ensures a.balance >= 0.0 && CurrentPrice(stock) >= 0.0 && quantity >= 0 ==> r.account.balance >= 0.0
    ensures AllPositive(a.holdings) ==> AllPositive(r.account.holdings)
    ensures Canonical(a.holdings) ==> Canonical(r.account.holdings)
    ensures Unpriced(r.account.holdings) <= Unpriced(a.holdings)
  {
    var t := stock.ticker;
    if t in a.holdings then
      var owned := a.holdings[t].quantity;
      if owned >= quantity then
        var price := CurrentPrice(stock);
        var left := owned - quantity;
        var h := if left == 0 then a.holdings - {t} else a.holdings[t := a.holdings[t].(quantity := left)];
        Trade(Account(a.balance + Cost(price, quantity), h), Sold(t, quantity, price))
      else
        Trade(a, OnlyOwn(t, owned))
    else
      Trade(a, NoShares(t))
  }

  /** A trade the user asks for. */
  datatype Order = BuyOrder(stock: Stock, quantity: int) | SellOrder(stock: Stock, quantity: int)

  function Step(a: Account, o: Order): Trade
  {
    match o
    case BuyOrder(s, q) => Buy(a, s, q)
    case SellOrder(s, q) => Sell(a, s, q)
  }

  /** The account after a series of orders, and what each order reported. */
  datatype Session = Session(account: Account, log: seq<Event>)

  function Run(a: Account, orders: seq<Order>): (r: Session)
    ensures |r.log| == |orders|
    decreases |orders|
  {
    if orders == [] then Session(a, [])
    else
      var t := Step(a, orders[0]);
      var rest := Run(t.account, orders[1..]);
      Session(rest.account, [t.event] + rest.log)
  }

  /** Cash an event moved: minus the cost of a buy, plus the proceeds of a sell. */
  function CashFlow(e: Event): real
  {
    match e
    case Bought(_, q, p) => -Cost(p, q)
    case Sold(_, q, p) => Cost(p, q)
    case _ => 0.0
  }

  function NetCash(log: seq<Event>): real
  {
    if log == [] then 0.0 else CashFlow(log[0]) + NetCash(log[1..])
  }

  /** Shares of `t` an event moved. */
  function ShareFlow(e: Event, t: string): int
  {
    match e
    case Bought(u, q, _) => if u == t then q else 0
    case Sold(u, q, _) => if u == t then -q else 0
    case _ => 0
  }

  function NetShares(log: seq<Event>, t: string): int
  {
    if log == [] then 0 else ShareFlow(log[0], t) + NetShares(log[1..], t)
  }

  /** Money is conserved: the final balance is the initial one plus what the reported trades moved. */
  lemma {:induction false} CashConserved(a: Account, orders: seq<Order>)
    ensures Run(a, orders).account.balance == a.balance + NetCash(Run(a, orders).log)
    decreases |orders|
  {
    if orders != [] {
      var t := Step(a, orders[0]);
      CashConserved(t.account, orders[1..]);
      var log := Run(a, orders).log;
      assert log[0] == t.event && log[1..] == Run(t.account, orders[1..]).log;
    }
  }

  /** Shares are conserved: for every ticker, the final holding is the initial one plus what the reported trades moved. */
  lemma {:induction false} SharesConserved(a: Account, orders: seq<Order>, ticker: string)
    ensures Held(Run(a, orders).account.holdings, ticker) == Held(a.holdings, ticker) + NetShares(Run(a, orders).log, ticker)
    decreases |orders|
  {
    if orders != [] {
      var t := Step(a, orders[0]);
      SharesConserved(t.account, orders[1..], ticker);
      var log := Run(a, orders).log;
      assert log[0] == t.event && log[1..] == Run(t.account, orders[1..]).log;
      assert Held(t.account.holdings, ticker) == Held(a.holdings, ticker) + ShareFlow(t.event, ticker);
    }
  }

  /** An order as the app issues it: at least one share, at a non-negative price. */
  predicate Sane(o: Order)
  {
    o.quantity >= 1 && CurrentPrice(o.stock) >= 0.0
  }

  /** The balance never goes negative and no held quantity reaches zero, over any series of sane orders. */
  lemma {:induction false} RunKeepsInvariants(a: Account, orders: seq<Order>)
    requires a.balance >= 0.0 && AllPositive(a.holdings)
    requires forall i :: 0 <= i < |orders| ==> Sane(orders[i])
    ensures Run(a, orders).account.balance >= 0.0
    ensures AllPositive(Run(a, orders).account.holdings)
    decreases |orders|
  {
    if orders != [] {
      var t := Step(a, orders[0]);
      assert Sane(orders[0]);
      assert forall i :: 0 <= i < |orders[1..]| ==> Sane(orders[1..][i]) by {
        forall i | 0 <= i < |orders[1..]| ensures Sane(orders[1..][i]) {
          assert orders[1..][i] == orders[i + 1];
        }
      }
      RunKeepsInvariants(t.account, orders[1..]);
    }
  }

  /** A user of the app; `buy_stock` and `sell_stock` change `balance` and `stocksOwned` in place. */
  class User {
    var name: string
    var email: string
    var password: string
    var balance: real
    var stocksOwned: Holdings

    constructor (name: string, email: string, password: string,
                 balance: real := DefaultBalance, stocksOwned: Holdings := map[])
      ensures this.name == name && this.email == email && this.password == password
      ensures this.balance == balance && this.stocksOwned == stocksOwned
    {
      this.name := name;
      this.email := email;
      this.password := password;
      this.balance := balance;
      this.stocksOwned := stocksOwned;
    }

    /** The user's balance and holdings. */
    function Snapshot(): Account
      reads this
    {
      Account(balance, stocksOwned)
    }

    method BuyStock(stock: Stock, quantity: int) returns (e: Event)
      modifies this`balance, this`stocksOwned
      ensures Trade(Snapshot(), e) == Buy(old(Snapshot()), stock, quantity)
    {
      var price := CurrentPrice(stock);
      var total := Cost(price, quantity);
      if balance >= total {
        if stock.ticker in stocksOwned {
          var h := stocksOwned[stock.ticker];
          stocksOwned := stocksOwned[stock.ticker := h.(quantity := h.quantity + quantity)];
        } else {
          stocksOwned := stocksOwned[stock.ticker := Holding(stock.ticker, quantity, Some(price))];
        }
        balance := balance - total;
        e := Bought(stock.ticker, quantity, price);
      } else {
        e := NotEnoughBalance(total, balance);
      }
    }

    method SellStock(stock: Stock, quantity: int) returns (e: Event)
      modifies this`balance, this`stocksOwned
      ensures Trade(Snapshot(), e) == Sell(old(Snapshot()), stock, quantity)
    {
      if stock.ticker in stocksOwned {
        if stocksOwned[stock.ticker].quantity >= quantity {
          var price := CurrentPrice(stock);
          var h := stocksOwned[stock.ticker];
          stocksOwned := stocksOwned[stock.ticker := h.(quantity := h.quantity - quantity)];
          balance := balance + Cost(price, quantity);
          e := Sold(stock.ticker, quantity, price);
          if stocksOwned[stock.ticker].quantity == 0 {
            stocksOwned := stocksOwned - {stock.ticker};
          }
        } else {
          e := OnlyOwn(stock.ticker, stocksOwned[stock.ticker].quantity);
        }
      } else {
        e := NoShares(stock.ticker);
      }
    }
  }
}
