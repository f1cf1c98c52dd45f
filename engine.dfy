/**
 * The moving-average crossover strategy `SimpleMAStrategy` (src/engine.py).
 * The object appends every observed price to its `prices` list; the signal is a
 * pure comparison of the means of the trailing `short_window` and `long_window`
 * prices, computed here with explicit sums over exact reals.
 */
module Engine {

  /** What `on_price` returns: "BUY", "SELL" or `None`. */
  datatype Signal = Buy | Sell | NoSignal

  /** Sum of a sequence of prices. */
  function Sum(s: seq<real>): real
  {
    if s == [] then 0.0 else Sum(s[..|s| - 1]) + s[|s| - 1]
  }

  /** Arithmetic mean of a non-empty sequence of prices. */
  function Mean(s: seq<real>): real
    requires |s| > 0
  {
    Sum(s) / (|s| as real)
  }

  /** The last `w` elements of `s`. */
  function Trailing(s: seq<real>, w: nat): seq<real>
    requires w <= |s|
  {
    s[|s| - w..]
  }

  /**
   * The signal for the price history `prices` (the newest last). Fewer than
   * `longWindow` prices give no signal; a `shortWindow` longer than the history
   * makes the rolling mean NaN, so both comparisons fail and there is no signal.
   */
  function MASignal(prices: seq<real>, shortWindow: int, longWindow: int): (signal: Signal)
    requires shortWindow >= 1 && longWindow >= 1
    ensures signal != NoSignal ==> |prices| >= longWindow && |prices| >= shortWindow
  {
    if |prices| < longWindow || |prices| < shortWindow then NoSignal
    else
      var shortMa := Mean(Trailing(prices, shortWindow));
      var longMa := Mean(Trailing(prices, longWindow));
      if shortMa > longMa then Buy
      else if shortMa < longMa then Sell
      else NoSignal
  }

  class MAStrategy {
    const shortWindow: int
    const longWindow: int
    const orderSize: int
    /** Every price observed so far, oldest first. */
    var prices: seq<real>

    /** Windows of at least one price (pandas raises on a negative window; a zero window is excluded too). */
    predicate Valid()
    {
      shortWindow >= 1 && longWindow >= 1
    }

    constructor (shortWindow: int, longWindow: int, orderSize: int)
      requires shortWindow >= 1 && longWindow >= 1
      ensures Valid()
      ensures this.shortWindow == shortWindow && this.longWindow == longWindow
      ensures this.orderSize == orderSize && prices == []
    {
      this.shortWindow := shortWindow;
      this.longWindow := longWindow;
      this.orderSize := orderSize;
      prices := [];
    }

    /** `on_price`: record the price, then compare the trailing means. */
    method OnPrice(price: real) returns (signal: Signal)
      requires Valid()
      modifies this
      ensures prices == old(prices) + [price]
      ensures signal == MASignal(prices, shortWindow, longWindow)
    {
      prices := prices + [price];
      if |prices| < longWindow {
        return NoSignal;
      }
      signal := MASignal(prices, shortWindow, longWindow);
    }
  }

  // ---------------------------------------------------------------------------
  // Properties of the signal

  lemma {:induction false} SumAppend(a: seq<real>, b: seq<real>)
    ensures Sum(a + b) == Sum(a) + Sum(b)
    decreases |b|
  {
    if b == [] {
      assert a + b == a;
    } else {
      var b' := b[..|b| - 1];
      assert (a + b)[..|a + b| - 1] == a + b';
      SumAppend(a, b');
    }
  }

  lemma {:induction false} SumConstant(s: seq<real>, c: real)
    requires forall i :: 0 <= i < |s| ==> s[i] == c
    ensures Sum(s) == (|s| as real) * c
  {
    if s != [] {
      SumConstant(s[..|s| - 1], c);
    }
  }

  /** While fewer than `longWindow` prices have been seen there is no signal. */
  lemma NoSignalEarly(prices: seq<real>, shortWindow: int, longWindow: int)
    requires shortWindow >= 1 && longWindow >= 1
    requires |prices| < longWindow
    ensures MASignal(prices, shortWindow, longWindow) == NoSignal
  {
  }

  /**
   * BUY exactly when the history covers both windows and the short mean exceeds
   * the long one, stated on sums: `longWindow * shortSum > shortWindow * longSum`.
   */
  lemma BuyIffShortSumAbove(prices: seq<real>, shortWindow: int, longWindow: int)
    requires shortWindow >= 1 && longWindow >= 1
    ensures MASignal(prices, shortWindow, longWindow) == Buy <==>
              |prices| >= longWindow && |prices| >= shortWindow &&
              (longWindow as real) * Sum(prices[|prices| - shortWindow..]) >
              (shortWindow as real) * Sum(prices[|prices| - longWindow..])
  {
    if |prices| >= longWindow && |prices| >= shortWindow {
      var ss, ls := Sum(Trailing(prices, shortWindow)), Sum(Trailing(prices, longWindow));
      MeanCompare(ss, shortWindow as real, ls, longWindow as real);
    }
  }

  /** SELL exactly when the short mean is strictly below the long one, stated on sums. */
  lemma SellIffShortSumBelow(prices: seq<real>, shortWindow: int, longWindow: int)
    requires shortWindow >= 1 && longWindow >= 1
    ensures MASignal(prices, shortWindow, longWindow) == Sell <==>
              |prices| >= longWindow && |prices| >= shortWindow &&
              (longWindow as real) * Sum(prices[|prices| - shortWindow..]) <
              (shortWindow as real) * Sum(prices[|prices| - longWindow..])
  {
    if |prices| >= longWindow && |prices| >= shortWindow {
      var ss, ls := Sum(Trailing(prices, shortWindow)), Sum(Trailing(prices, longWindow));
      MeanCompare(ss, shortWindow as real, ls, longWindow as real);
    }
  }

  /**
   * No signal exactly when the history is shorter than either window (a NaN
   * rolling mean) or the two means are equal, stated on sums.
   */
  lemma NoSignalIff(prices: seq<real>, shortWindow: int, longWindow: int)
    requires shortWindow >= 1 && longWindow >= 1
    ensures MASignal(prices, shortWindow, longWindow) == NoSignal <==>
              |prices| < longWindow || |prices| < shortWindow ||
              (longWindow as real) * Sum(prices[|prices| - shortWindow..]) ==
              (shortWindow as real) * Sum(prices[|prices| - longWindow..])
  {
    BuyIffShortSumAbove(prices, shortWindow, longWindow);
    SellIffShortSumBelow(prices, shortWindow, longWindow);
  }

  /** `a/m > b/n` iff `n*a > m*b`, and likewise for `<`, for positive `m`, `n`. */
  lemma MeanCompare(a: real, m: real, b: real, n: real)
    requires m > 0.0 && n > 0.0
    ensures a / m > b / n <==> n * a > m * b
    ensures a / m < b / n <==> n * a < m * b
  {
    var x, y := a / m, b / n;
    assert a == x * m && b == y * n;
    assert n * a - m * b == m * n * (x - y);
  }

  /** A flat price history never produces a signal. */
  lemma FlatPricesNoSignal(prices: seq<real>, c: real, shortWindow: int, longWindow: int)
    requires shortWindow >= 1 && longWindow >= 1
    requires forall i :: 0 <= i < |prices| ==> prices[i] == c
    ensures MASignal(prices, shortWindow, longWindow) == NoSignal
  {
    if |prices| >= longWindow && |prices| >= shortWindow {
      var s, l := Trailing(prices, shortWindow), Trailing(prices, longWindow);
      SumConstant(s, c);
      SumConstant(l, c);
    }
  }

  /** Equal windows compare a mean with itself: never a signal. */
  lemma EqualWindowsNoSignal(prices: seq<real>, w: int)
    requires w >= 1
    ensures MASignal(prices, w, w) == NoSignal
  {
  }

  /**
   * With `shortWindow <= longWindow` only the trailing `longWindow` prices matter:
   * a strategy that kept only those would signal identically.
   */
  lemma OnlyTrailingPricesMatter(older: seq<real>, recent: seq<real>, shortWindow: int, longWindow: int)
    requires 1 <= shortWindow <= longWindow <= |recent|
    ensures MASignal(older + recent, shortWindow, longWindow) == MASignal(recent, shortWindow, longWindow)
  {
    var all := older + recent;
    assert Trailing(all, shortWindow) == Trailing(recent, shortWindow);
    assert Trailing(all, longWindow) == Trailing(recent, longWindow);
  }

  /**
   * With `shortWindow < longWindow`, the short mean is above the long mean exactly
   * when it is above the mean of the older part of the long window.
   */
  lemma BuyIffShortAboveOlder(prices: seq<real>, shortWindow: int, longWindow: int)
    requires 1 <= shortWindow < longWindow <= |prices|
    ensures var n := |prices|;
            MASignal(prices, shortWindow, longWindow) == Buy <==>
              Mean(prices[n - shortWindow..]) > Mean(prices[n - longWindow..n - shortWindow])
  {
    var n := |prices|;
    var older, recent := prices[n - longWindow..n - shortWindow], prices[n - shortWindow..];
    assert Trailing(prices, longWindow) == older + recent;
    SumAppend(older, recent);
    var so, sr := Sum(older), Sum(recent);
    var k, m := (longWindow - shortWindow) as real, shortWindow as real;
    MeanCompare(sr, m, so + sr, k + m);
    MeanCompare(sr, m, so, k);
    assert (k + m) * sr > m * (so + sr) <==> k * sr > m * so;
  }

  /** The example of the tests: 100, 101, 102 with windows 2 and 3 gives BUY. */
  lemma RisingExampleBuys()
    ensures MASignal([100.0, 101.0, 102.0], 2, 3) == Buy
  {
    var p := [100.0, 101.0, 102.0];
    assert Trailing(p, 2) == [101.0, 102.0] && Trailing(p, 3) == p;
    assert Sum([101.0, 102.0]) == 203.0 by { assert [101.0, 102.0][..1] == [101.0]; }
    assert Sum(p) == 303.0 by { assert p[..2] == [100.0, 101.0]; assert p[..2][..1] == [100.0]; }
    assert Mean(Trailing(p, 2)) == 101.5 && Mean(Trailing(p, 3)) == 101.0;
  }

  /** The example of the tests: 102, 101, 100 with windows 2 and 3 gives SELL. */
  lemma FallingExampleSells()
    ensures MASignal([102.0, 101.0, 100.0], 2, 3) == Sell
  {
    var p := [102.0, 101.0, 100.0];
    assert Trailing(p, 2) == [101.0, 100.0] && Trailing(p, 3) == p;
    assert Sum([101.0, 100.0]) == 201.0 by { assert [101.0, 100.0][..1] == [101.0]; }
    assert Sum(p) == 303.0 by { assert p[..2] == [102.0, 101.0]; assert p[..2][..1] == [102.0]; }
  }
}
