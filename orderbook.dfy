/**
 * The market-impact execution model of `SimpleOrderBook` (src/orderbook.py).
 * It holds only its configuration, `depth` and `spread`, which no call changes,
 * so it is a value here; the lock that serialises callers is not modelled.
 */
module Orderbook {

  /** The `1e-9` added to `depth` so that a zero depth does not divide by zero. */
  const Eps: real := 0.000000001

  /** Configuration of the order book: liquidity depth and relative spread. */
  datatype OrderBook = OrderBook(depth: real, spread: real)

  /** The order book the simulation backend builds: `SimpleOrderBook()` with its defaults. */
  const DefaultBook: OrderBook := OrderBook(1000.0, 0.001)

  /** An execution: the price paid or received and the size filled. */
  datatype Fill = Fill(price: real, size: int)

  function Abs(x: int): (r: nat)
    ensures r == x || r == -x
  {
    if x < 0 then -x else x
  }

  /** `impact = |size| / (depth + 1e-9) * spread`. */
  function Impact(book: OrderBook, size: int): (impact: real)
    requires book.depth + Eps != 0.0
    ensures book.depth >= 0.0 && book.spread >= 0.0 ==> impact >= 0.0
    ensures size == 0 ==> impact == 0.0
  {
    (Abs(size) as real / (book.depth + Eps)) * book.spread
  }

  /**
   * `execute_market_order`: a buy (`size > 0`) pays `mid * (1 + impact)`,
   * anything else receives `mid * (1 - impact)`; the size is filled in full.
   */
  function ExecuteMarketOrder(book: OrderBook, size: int, mid: real): (fill: Fill)
    requires book.depth + Eps != 0.0
    ensures fill.size == size
    ensures size == 0 ==> fill.price == mid
    ensures book.depth >= 0.0 && book.spread >= 0.0 && mid >= 0.0 ==>
              (size > 0 ==> fill.price >= mid) && (size <= 0 ==> fill.price <= mid)
  {
    var impact := Impact(book, size);
    if size > 0 then Fill(mid * (1.0 + impact), size)
    else Fill(mid * (1.0 - impact), size)
  }

  /** A buy and a sell of the same magnitude are priced symmetrically around `mid`. */
  lemma BuySellSymmetric(book: OrderBook, q: int, mid: real)
    requires book.depth + Eps != 0.0
    requires q > 0
    ensures ExecuteMarketOrder(book, q, mid).price + ExecuteMarketOrder(book, -q, mid).price == 2.0 * mid
  {
    var i := Impact(book, q);
    assert Abs(-q) == Abs(q);
    calc {
      ExecuteMarketOrder(book, q, mid).price + ExecuteMarketOrder(book, -q, mid).price;
      mid * (1.0 + i) + mid * (1.0 - i);
      2.0 * mid;
    }
  }

  /** A larger buy never gets a better price, with non-negative mid, depth and spread. */
  lemma LargerBuyPaysMore(book: OrderBook, q1: int, q2: int, mid: real)
    requires book.depth >= 0.0 && book.spread >= 0.0 && mid >= 0.0
    requires 0 < q1 <= q2
    ensures ExecuteMarketOrder(book, q1, mid).price <= ExecuteMarketOrder(book, q2, mid).price
  {
    var d := book.depth + Eps;
    assert d > 0.0;
    var a1, a2 := q1 as real / d, q2 as real / d;
    assert a1 <= a2 by {
      assert a1 * d == q1 as real;
      assert a2 * d == q2 as real;
    }
    assert Impact(book, q1) == a1 * book.spread;
    assert Impact(book, q2) == a2 * book.spread;
    assert a1 * book.spread <= a2 * book.spread;
  }
}
