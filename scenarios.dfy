/** The app's trading flows, worked through using only the contracts of `User`. */
module Scenarios {
  import opened Wrappers
  import opened Stocks
  import opened Ledger

  /** Buying: a new account, two buys of one ticker, and a buy it cannot afford. */
  method BuyScenario()
  {
    var x := NewStock("x");
    assert x.ticker[0] == UpperChar('x') == 'X';
    assert x.ticker == "X";
    var user := new User("Ann", "ann@example.com", "pw");

    // a new account starts with 1000 and buys 5 shares at 100
    var e := user.BuyStock(x.(closes := Some([90.0, 100.0])), 5);
    assert user.balance == 500.0 && user.stocksOwned == map["X" := Holding("X", 5, Some(100.0))];

    // two more at 120: the recorded price stays 100
    e := user.BuyStock(x.(closes := Some([120.0])), 2);
    assert user.balance == 260.0 && user.stocksOwned == map["X" := Holding("X", 7, Some(100.0))];

    // a buy costing 1000 is refused and changes nothing
    e := user.BuyStock(x.(closes := Some([100.0])), 10);
    assert e == NotEnoughBalance(1000.0, 260.0);
    assert user.balance == 260.0 && user.stocksOwned == map["X" := Holding("X", 7, Some(100.0))];
  }

  /** Selling: a whole position, then a ticker never bought. */
  method SellScenario()
  {
    var x := Stock("X", Some([150.0]));
    var user := new User("Ann", "ann@example.com", "pw", 260.0, map["X" := Holding("X", 7, Some(100.0))]);

    // selling all 7 at 150 removes the holding
    var e := user.SellStock(x, 7);
    assert user.balance == 1310.0 && user.stocksOwned == map[];

    // a ticker never bought cannot be sold
    e := user.SellStock(Stock("Y", Some([10.0])), 1);
    assert e == NoShares("Y") && user.balance == 1310.0;
  }
}
