/**
 * The stock ticker of `07_observer/stock_price_update.js`: a `Stock` with a
 * fixed symbol, a price and a list of investors, compared by identity;
 * every new price is stored and then announced to each investor in list
 * order. Console output is returned as lines.
 */
module StockTicker {
  import Strings
  import Seqs

  /** `new Investor(name)`. */
  class Investor {
    const name: string

    constructor(name: string)
      ensures this.name == name
    {
      this.name := name;
    }
  }

  /** What `investor.update(symbol, price)` prints. */
  function UpdateLine(name: string, symbol: string, price: int): string {
    name + " notified: " + symbol + " is now $" + Strings.IntToString(price)
  }

  /** The lines of notifying each investor, in list order. */
  function NotifyLines(observers: seq<Investor>, symbol: string, price: int): seq<string>
    reads observers
  {
    if observers == [] then []
    else NotifyLines(observers[..|observers| - 1], symbol, price) + [UpdateLine(observers[|observers| - 1].name, symbol, price)]
  }

  /** Each investor is told once, in subscription order, with the symbol and the price. */
  lemma {:induction false} OneLinePerInvestor(observers: seq<Investor>, symbol: string, price: int)
    ensures |NotifyLines(observers, symbol, price)| == |observers|
    ensures forall i :: 0 <= i < |observers| ==>
      NotifyLines(observers, symbol, price)[i] == UpdateLine(observers[i].name, symbol, price)
  {
    if observers != [] {
      OneLinePerInvestor(observers[..|observers| - 1], symbol, price);
    }
  }

  /** The subject. */
  class Stock {
    const symbol: string
    var price: int
    var observers: seq<Investor>

    /** `new Stock(symbol, price)`: no observers yet. */
    constructor(symbol: string, price: int)
      ensures this.symbol == symbol && this.price == price && observers == []
    {
      this.symbol := symbol;
      this.price := price;
      observers := [];
    }

    /** `subscribe(observer)`: appends. */
    method Subscribe(observer: Investor)
      modifies this
      ensures observers == old(observers) + [observer] && price == old(price)
    {
      observers := observers + [observer];
    }

    /** `unSubscribe(observer)`: keeps, in order, every other investor. */
    method UnSubscribe(observer: Investor)
      modifies this
      ensures observers == Seqs.RemoveAll(old(observers), observer) && price == old(price)
      ensures forall o :: o in observers <==> o in old(observers) && o != observer
    {
      forall o {
        Seqs.RemoveAllMembers(observers, observer, o);
      }
      observers := Seqs.RemoveAll(observers, observer);
    }

    /** `notify()`: calls `update(symbol, price)` on each investor in list order. */
    method Notify() returns (lines: seq<string>)
      ensures lines == NotifyLines(observers, symbol, price)
    {
      lines := [];
      var i := 0;
      while i < |observers|
        invariant 0 <= i <= |observers|
        invariant lines == NotifyLines(observers[..i], symbol, price)
      {
        assert observers[..i + 1][..i] == observers[..i];
        lines := lines + [UpdateLine(observers[i].name, symbol, price)];
        i := i + 1;
      }
      assert observers[..i] == observers;
    }

    /** `setPrice(newPrice)`: stores the price, then notifies with it. */
    method SetPrice(newPrice: int) returns (lines: seq<string>)
      modifies this
      ensures price == newPrice && observers == old(observers)
      ensures lines == NotifyLines(observers, symbol, newPrice)
    {
      price := newPrice;
      lines := Notify();
    }
  }

  /** Two investors subscribed in turn are told of a new price in that order. */
  method AnnounceToTwo(stock: Stock, first: Investor, second: Investor, newPrice: int) returns (lines: seq<string>)
    requires stock.observers == []
    modifies stock
    ensures stock.price == newPrice
    ensures lines == [UpdateLine(first.name, stock.symbol, newPrice), UpdateLine(second.name, stock.symbol, newPrice)]
  {
    stock.Subscribe(first);
    stock.Subscribe(second);
    lines := stock.SetPrice(newPrice);
    OneLinePerInvestor(stock.observers, stock.symbol, newPrice);
  }

  /** The script: `"PSO"` at 150 with Ali and Kizer subscribed; the move to 155 reaches both, Ali first. */
  method Script() returns (lines: seq<string>, price: int)
    ensures lines == [UpdateLine("Ali", "PSO", 155), UpdateLine("Kizer", "PSO", 155)] && price == 155
  {
    var stock := new Stock("PSO", 150);
    var investor1 := new Investor("Ali");
    var investor2 := new Investor("Kizer");
    lines := AnnounceToTwo(stock, investor1, investor2, 155);
    price := stock.price;
  }
}
