/**
 * The trading ledger `Portfolio` (src/portfolio.py): cash, positions keyed by
 * symbol, realized profit and a history of mark-to-market snapshots.
 *
 * The positions dictionary is an insertion-ordered association list: an update
 * of a held symbol keeps its place, a new symbol goes to the end, a deleted one
 * is removed. The effect of one trade on the account is given by the pure
 * functions ApplyBuy, ApplySell and ApplyTrade; the class Portfolio carries out
 * the same steps in place and is proved to match them.
 */
module Ledger {
  import opened Common

  type Symbol = string

  /** Timestamps are opaque: no operation looks inside them. */
  type Timestamp = int

  /** A position entry `{'size': ..., 'avg_price': ...}`. */
  datatype Position = Position(size: int, avgPrice: real)

  /** The positions dictionary, in insertion order. */
  type Holdings = seq<(Symbol, Position)>

  /** The error `_sell` raises: "Not enough position to sell". */
  datatype TradeError = NotEnoughPosition

  /** A mark-to-market snapshot; `tick` is the key the simulation backend adds. */
  datatype Snapshot = Snapshot(timestamp: Option<Timestamp>, cash: real, realizedPnl: real,
                               unrealizedPnl: real, totalExposure: real, tick: Option<nat>)

  /** The accounting part of the ledger. */
  datatype Account = Account(cash: real, positions: Holdings, realizedPnl: real)

  // ---------------------------------------------------------------------------
  // The positions dictionary

  /** `positions.get(symbol)`. */
  function Find(h: Holdings, s: Symbol): (r: Option<Position>)
    ensures AllLong(h) && r.Some? ==> r.value.size > 0
  {
    if h == [] then None
    else if h[0].0 == s then Some(h[0].1)
    else Find(h[1..], s)
  }

  /** No symbol occurs twice (a dictionary's keys). */
  predicate DistinctKeys(h: Holdings)
  {
    h == [] || (Find(h[1..], h[0].0).None? && DistinctKeys(h[1..]))
  }

  /** Every stored position is long: the ledger never holds a zero or short size. */
  predicate AllLong(h: Holdings)
  {
    h == [] || (h[0].1.size > 0 && AllLong(h[1..]))
  }

  predicate WellFormed(h: Holdings)
  {
    DistinctKeys(h) && AllLong(h)
  }

  /** `positions[symbol] = p`: replaced in place when present, appended otherwise. */
  function Put(h: Holdings, s: Symbol, p: Position): (r: Holdings)
    ensures Find(r, s) == Some(p)
    ensures forall t :: t != s ==> Find(r, t) == Find(h, t)
    ensures DistinctKeys(h) ==> DistinctKeys(r)
    ensures AllLong(h) && p.size > 0 ==> AllLong(r)
  {
    if h == [] then [(s, p)]
    else if h[0].0 == s then [(s, p)] + h[1..]
    else [h[0]] + Put(h[1..], s, p)
  }

  /** `del positions[symbol]`. */
  function Delete(h: Holdings, s: Symbol): (r: Holdings)
    requires DistinctKeys(h)
    ensures Find(r, s) == None
    ensures forall t :: t != s ==> Find(r, t) == Find(h, t)
    ensures DistinctKeys(r)
    ensures AllLong(h) ==> AllLong(r)
  {
    if h == [] then []
    else if h[0].0 == s then h[1..]
    else [h[0]] + Delete(h[1..], s)
  }

  /** What a position cost: `size * avg_price`. */
  function Cost(p: Position): real
  {
    p.size as real * p.avgPrice
  }

  /** The cost basis `Σ size * avg_price` of the held positions. */
  function CostBasis(h: Holdings): real
  {
    if h == [] then 0.0 else Cost(h[0].1) + CostBasis(h[1..])
  }

  function EntryCost(p: Option<Position>): real
  {
    if p.None? then 0.0 else Cost(p.value)
  }

  lemma {:induction false} PutCost(h: Holdings, s: Symbol, p: Position)
    ensures CostBasis(Put(h, s, p)) == CostBasis(h) - EntryCost(Find(h, s)) + Cost(p)
  {
    if h == [] {
    } else if h[0].0 == s {
      assert Put(h, s, p)[1..] == h[1..];
    } else {
      PutCost(h[1..], s, p);
      assert Put(h, s, p)[1..] == Put(h[1..], s, p);
    }
  }

  lemma {:induction false} DeleteCost(h: Holdings, s: Symbol)
    requires DistinctKeys(h)
    ensures CostBasis(Delete(h, s)) == CostBasis(h) - EntryCost(Find(h, s))
  {
    if h != [] && h[0].0 != s {
      DeleteCost(h[1..], s);
      assert Delete(h, s)[1..] == Delete(h[1..], s);
    }
  }

  /** Writing back the entry a symbol already has changes nothing. */
  lemma {:induction false} PutSame(h: Holdings, s: Symbol)
    requires Find(h, s).Some?
    ensures Put(h, s, Find(h, s).value) == h
  {
    if h[0].0 != s {
      PutSame(h[1..], s);
    }
  }

  /** Removing a symbol that was just appended restores the list. */
  lemma {:induction false} DeleteAfterPutNew(h: Holdings, s: Symbol, p: Position)
    requires DistinctKeys(h) && Find(h, s).None?
    ensures Delete(Put(h, s, p), s) == h
  {
    if h != [] {
      DeleteAfterPutNew(h[1..], s, p);
    }
  }

  // ---------------------------------------------------------------------------
  // Trades on the account

  /** A new portfolio: the given cash and nothing else. */
  function NewAccount(cash: real): (a: Account)
    ensures WellFormed(a.positions) && Balance(a) == cash
    ensures forall s :: Find(a.positions, s).None?
  {
    Account(cash, [], 0.0)
  }

  /** The size-weighted average price of `n1` units at `p1` and `n2` units at `p2`. */
  function WeightedAverage(n1: int, p1: real, n2: int, p2: real): (avg: real)
    requires n1 + n2 > 0
    ensures (n1 + n2) as real * avg == p1 * n1 as real + p2 * n2 as real
  {
    (p1 * n1 as real + p2 * n2 as real) / (n1 + n2) as real
  }

  /**
   * The entry after buying `size` units at `price`: a new lot, or the held lot
   * grown with its average price re-weighted by size, so that the entry's cost
   * grows by exactly `size * price`.
   */
  function AddLot(held: Option<Position>, size: int, price: real): (p: Position)
    requires size > 0 && (held.Some? ==> held.value.size > 0)
    ensures held.None? ==> p == Position(size, price)
    ensures held.Some? ==> p.size == held.value.size + size
    ensures p.size > 0
    ensures Cost(p) == EntryCost(held) + size as real * price
  {
    match held
    case None => Position(size, price)
    case Some(pos) =>
      Position(pos.size + size, WeightedAverage(pos.size, pos.avgPrice, size, price))
  }

  /** `_buy`: add `size` units at `price` to the entry of `s`; cash pays `size * price`. */
  function ApplyBuy(a: Account, s: Symbol, size: int, price: real): (b: Account)
    requires WellFormed(a.positions) && size > 0
    ensures WellFormed(b.positions)
    ensures b.cash == a.cash - size as real * price
    ensures b.realizedPnl == a.realizedPnl
    ensures Find(b.positions, s) == Some(AddLot(Find(a.positions, s), size, price))
    ensures forall t :: t != s ==> Find(b.positions, t) == Find(a.positions, t)
  {
    Account(a.cash - size as real * price, Put(a.positions, s, AddLot(Find(a.positions, s), size, price)), a.realizedPnl)
  }

  /**
   * The positions after `size` units of the held entry `pos` of `s` are sold:
   * the size drops by `size`, the average price stays, and the entry is deleted
   * when its size reaches zero.
   */
  function RemoveLot(h: Holdings, s: Symbol, pos: Position, size: int): (r: Holdings)
    requires WellFormed(h) && Find(h, s) == Some(pos) && 0 <= size <= pos.size
    ensures WellFormed(r)
    ensures forall t :: t != s ==> Find(r, t) == Find(h, t)
    ensures pos.size == size ==> Find(r, s).None?
    ensures pos.size > size ==> Find(r, s) == Some(Position(pos.size - size, pos.avgPrice))
    ensures CostBasis(r) == CostBasis(h) - size as real * pos.avgPrice
  {
    var left := pos.size - size;
    if left == 0 then
      DeleteCost(h, s);
      Delete(h, s)
    else
      var rest := Position(left, pos.avgPrice);
      PutCost(h, s, rest);
      ReducedCost(pos, size);
      Put(h, s, rest)
  }

  lemma ReducedCost(pos: Position, size: int)
    ensures Cost(Position(pos.size - size, pos.avgPrice)) == Cost(pos) - size as real * pos.avgPrice
  {
    var n, m := pos.size as real, size as real;
    assert (n - m) * pos.avgPrice == n * pos.avgPrice - m * pos.avgPrice;
  }

  /** The profit realized by selling `size` units bought at `avgPrice` for `price`. */
  function RealizedGain(price: real, avgPrice: real, size: int): (pnl: real)
    ensures pnl + size as real * avgPrice == size as real * price
  {
    (price - avgPrice) * size as real
  }

  /**
   * `_sell`: close `size` units at `price`. Fails without touching anything when
   * the symbol is not held or fewer units are held; otherwise realizes
   * `(price - avg_price) * size` and drops the entry when nothing is left.
   */
  function ApplySell(a: Account, s: Symbol, size: int, price: real): (r: Result<Account, TradeError>)
    requires WellFormed(a.positions) && size >= 0
    ensures r.Err? <==> Find(a.positions, s).None? || Find(a.positions, s).value.size < size
    ensures r.Ok? ==>
              var pos := Find(a.positions, s).value;
              && r.value.cash == a.cash + size as real * price
              && r.value.realizedPnl == a.realizedPnl + RealizedGain(price, pos.avgPrice, size)
              && r.value.positions == RemoveLot(a.positions, s, pos, size)
  {
    var proceeds := size as real * price;
    match Find(a.positions, s)
    case None => Err(NotEnoughPosition)
    case Some(pos) =>
      if pos.size < size then Err(NotEnoughPosition)
      else
        var pnl := RealizedGain(price, pos.avgPrice, size);
        Ok(Account(a.cash + proceeds, RemoveLot(a.positions, s, pos, size), a.realizedPnl + pnl))
  }

  /** `execute_trade`: positive sizes buy; every other size (zero too) sells `-size`. */
  function ApplyTrade(a: Account, s: Symbol, size: int, price: real): (r: Result<Account, TradeError>)
    requires WellFormed(a.positions)
    ensures r.Ok? ==> WellFormed(r.value.positions)
    ensures r.Err? ==> size <= 0
  {
    if size > 0 then Ok(ApplyBuy(a, s, size, price))
    else ApplySell(a, s, -size, price)
  }

  /** `cash + cost basis - realized PnL`: what every trade leaves unchanged. */
  function Balance(a: Account): real
  {
    a.cash + CostBasis(a.positions) - a.realizedPnl
  }

  lemma BuyConservesBalance(a: Account, s: Symbol, size: int, price: real)
    requires WellFormed(a.positions) && size > 0
    ensures Balance(ApplyBuy(a, s, size, price)) == Balance(a)
  {
    PutCost(a.positions, s, AddLot(Find(a.positions, s), size, price));
  }

  lemma SellConservesBalance(a: Account, s: Symbol, q: int, price: real)
    requires WellFormed(a.positions) && q >= 0
    requires ApplySell(a, s, q, price).Ok?
    ensures Balance(ApplySell(a, s, q, price).value) == Balance(a)
  {
  }

  /** Every successful trade conserves `cash + Σ size*avg_price - realized_pnl`. */
  lemma TradeConservesBalance(a: Account, s: Symbol, size: int, price: real)
    requires WellFormed(a.positions)
    requires ApplyTrade(a, s, size, price).Ok?
    ensures Balance(ApplyTrade(a, s, size, price).value) == Balance(a)
  {
    if size > 0 {
      BuyConservesBalance(a, s, size, price);
    } else {
      SellConservesBalance(a, s, -size, price);
    }
  }

  /** A zero-size trade sells nothing: it fails on an unheld symbol and changes nothing otherwise. */
  lemma ZeroTrade(a: Account, s: Symbol, price: real)
    requires WellFormed(a.positions)
    ensures ApplyTrade(a, s, 0, price) ==
              if Find(a.positions, s).None? then Err(NotEnoughPosition) else Ok(a)
  {
    if Find(a.positions, s).Some? {
      PutSame(a.positions, s);
    }
  }

  /**
   * Buying `q` of an unheld symbol at `p1` and then selling all `q` at `p2`
   * restores the positions and gains `(p2 - p1) * q` in cash and realized PnL.
   */
  lemma BuyThenSellAll(a: Account, s: Symbol, q: int, p1: real, p2: real)
    requires WellFormed(a.positions) && Find(a.positions, s).None? && q > 0
    ensures var b := ApplyBuy(a, s, q, p1);
            ApplyTrade(b, s, -q, p2) ==
              Ok(Account(a.cash + (p2 - p1) * q as real, a.positions, a.realizedPnl + (p2 - p1) * q as real))
  {
    var b := ApplyBuy(a, s, q, p1);
    assert b.positions == Put(a.positions, s, Position(q, p1));
    assert Find(b.positions, s) == Some(Position(q, p1));
    DeleteAfterPutNew(a.positions, s, Position(q, p1));
    var c := ApplySell(b, s, q, p2).value;
    assert c.positions == a.positions;
    assert b.cash + q as real * p2 == a.cash + (p2 - p1) * q as real;
  }

  /** Two buys of `n1` at `p1` then `n2` at `p2` hold `n1 + n2` at the size-weighted average price. */
  lemma TwoBuysAverage(a: Account, s: Symbol, n1: int, p1: real, n2: int, p2: real)
    requires WellFormed(a.positions) && Find(a.positions, s).None? && n1 > 0 && n2 > 0
    ensures var c := ApplyBuy(ApplyBuy(a, s, n1, p1), s, n2, p2);
            && Find(c.positions, s) == Some(Position(n1 + n2, WeightedAverage(n1, p1, n2, p2)))
            && c.cash == a.cash - n1 as real * p1 - n2 as real * p2
  {
    var b := ApplyBuy(a, s, n1, p1);
    assert Find(b.positions, s) == Some(Position(n1, p1));
  }

  /** The account the ledger reaches from `a` by a sequence of trades, skipping the rejected ones. */
  function Replay(a: Account, trades: seq<(Symbol, int, real)>): (b: Account)
    requires WellFormed(a.positions)
    ensures WellFormed(b.positions)
    decreases |trades|
  {
    if trades == [] then a
    else
      var (s, size, price) := trades[0];
      match ApplyTrade(a, s, size, price)
      case Ok(next) => Replay(next, trades[1..])
      case Err(_) => Replay(a, trades[1..])
  }

  /** From a new portfolio, `cash + Σ size*avg_price == initial_cash + realized_pnl` after any trades. */
  lemma {:induction false} ReplayConservesCash(initialCash: real, trades: seq<(Symbol, int, real)>)
    ensures var b := Replay(NewAccount(initialCash), trades);
            b.cash + CostBasis(b.positions) == initialCash + b.realizedPnl
  {
    ReplayConservesBalance(NewAccount(initialCash), trades);
  }

  lemma {:induction false} ReplayConservesBalance(a: Account, trades: seq<(Symbol, int, real)>)
    requires WellFormed(a.positions)
    ensures Balance(Replay(a, trades)) == Balance(a)
    decreases |trades|
  {
    if trades != [] {
      var (s, size, price) := trades[0];
      match ApplyTrade(a, s, size, price)
      case Ok(next) =>
        TradeConservesBalance(a, s, size, price);
        ReplayConservesBalance(next, trades[1..]);
      case Err(_) =>
        ReplayConservesBalance(a, trades[1..]);
    }
  }

  // ---------------------------------------------------------------------------
  // Mark to market

  /** `Σ (m - avg_price) * size` over the positions that have a quote in `quotes`. */
  function UnrealizedPnl(h: Holdings, quotes: map<Symbol, real>): real
  {
    if h == [] then 0.0
    else
      var (s, pos) := h[|h| - 1];
      UnrealizedPnl(h[..|h| - 1], quotes)
        + (if s in quotes then (quotes[s] - pos.avgPrice) * pos.size as real else 0.0)
  }

  /** `Σ size * m` over the positions that have a quote in `quotes`. */
  function TotalExposure(h: Holdings, quotes: map<Symbol, real>): real
  {
    if h == [] then 0.0
    else
      var (s, pos) := h[|h| - 1];
      TotalExposure(h[..|h| - 1], quotes) + (if s in quotes then pos.size as real * quotes[s] else 0.0)
  }

  /** The cost basis of the quoted positions only. */
  function QuotedCost(h: Holdings, quotes: map<Symbol, real>): real
  {
    if h == [] then 0.0
    else
      var (s, pos) := h[|h| - 1];
      QuotedCost(h[..|h| - 1], quotes) + (if s in quotes then pos.size as real * pos.avgPrice else 0.0)
  }

  /** Quotes equal to every position's average price show no unrealized PnL. */
  lemma {:induction false} MarkAtCostNoPnl(h: Holdings, quotes: map<Symbol, real>)
    requires forall i :: 0 <= i < |h| && h[i].0 in quotes ==> quotes[h[i].0] == h[i].1.avgPrice
    ensures UnrealizedPnl(h, quotes) == 0.0
  {
    if h != [] {
      MarkAtCostNoPnl(h[..|h| - 1], quotes);
    }
  }

  /** Long positions at non-negative quotes have non-negative exposure. */
  lemma {:induction false} ExposureNonNegative(h: Holdings, quotes: map<Symbol, real>)
    requires forall i :: 0 <= i < |h| ==> h[i].1.size >= 0
    requires forall s :: s in quotes ==> quotes[s] >= 0.0
    ensures TotalExposure(h, quotes) >= 0.0
  {
    if h != [] {
      ExposureNonNegative(h[..|h| - 1], quotes);
    }
  }

  /** Exposure less unrealized PnL is what the quoted positions cost. */
  lemma {:induction false} ExposureMinusUnrealized(h: Holdings, quotes: map<Symbol, real>)
    ensures TotalExposure(h, quotes) - UnrealizedPnl(h, quotes) == QuotedCost(h, quotes)
  {
    if h != [] {
      ExposureMinusUnrealized(h[..|h| - 1], quotes);
      var (s, pos) := h[|h| - 1];
      if s in quotes {
        assert pos.size as real * quotes[s] - (quotes[s] - pos.avgPrice) * pos.size as real
               == pos.size as real * pos.avgPrice;
      }
    }
  }

  /** A position without a quote is skipped: wherever it sits, it adds to neither sum. */
  lemma {:induction false} UnquotedSkipped(h1: Holdings, s: Symbol, pos: Position, h2: Holdings, quotes: map<Symbol, real>)
    requires s !in quotes
    ensures UnrealizedPnl(h1 + [(s, pos)] + h2, quotes) == UnrealizedPnl(h1 + h2, quotes)
    ensures TotalExposure(h1 + [(s, pos)] + h2, quotes) == TotalExposure(h1 + h2, quotes)
    decreases |h2|
  {
    var with, without := h1 + [(s, pos)] + h2, h1 + h2;
    if h2 == [] {
      assert with[..|with| - 1] == h1;
      assert without == h1;
    } else {
      var rest := h2[..|h2| - 1];
      assert with[..|with| - 1] == h1 + [(s, pos)] + rest;
      assert without[..|without| - 1] == h1 + rest;
      assert with[|with| - 1] == without[|without| - 1] == h2[|h2| - 1];
      UnquotedSkipped(h1, s, pos, rest, quotes);
    }
  }

  /** A quote for a symbol that is not held changes neither sum. */
  lemma {:induction false} ExtraQuoteIgnored(h: Holdings, quotes: map<Symbol, real>, s: Symbol, m: real)
    requires forall i :: 0 <= i < |h| ==> h[i].0 != s
    ensures UnrealizedPnl(h, quotes[s := m]) == UnrealizedPnl(h, quotes)
    ensures TotalExposure(h, quotes[s := m]) == TotalExposure(h, quotes)
  {
    if h != [] {
      ExtraQuoteIgnored(h[..|h| - 1], quotes, s, m);
    }
  }

  /** One held position `size` at `avg` quoted at `m`: `(m - avg) * size` and `size * m`. */
  lemma SinglePositionMark(s: Symbol, pos: Position, m: real)
    ensures UnrealizedPnl([(s, pos)], map[s := m]) == (m - pos.avgPrice) * pos.size as real
    ensures TotalExposure([(s, pos)], map[s := m]) == pos.size as real * m
  {
    var h := [(s, pos)];
    assert h[..0] == [];
  }

  // ---------------------------------------------------------------------------
  // The portfolio object

  class Portfolio {
    var cash: real
    var positions: Holdings
    var realizedPnl: real
    var history: seq<Snapshot>

    predicate Valid()
      reads this
    {
      WellFormed(positions)
    }

    /** The accounting state of the object. */
    function State(): Account
      reads this
    {
      Account(cash, positions, realizedPnl)
    }

    /** `Portfolio(cash)`. */
    constructor (cash: real)
      ensures Valid()
      ensures State() == NewAccount(cash) && history == []
    {
      this.cash := cash;
      positions := [];
      realizedPnl := 0.0;
      history := [];
    }

    /** `execute_trade`; the error result stands for the `ValueError` raised by `_sell`. */
    method ExecuteTrade(symbol: Symbol, size: int, price: real) returns (r: Result<(), TradeError>)
      requires Valid()
      modifies this
      ensures Valid()
      ensures var expected := ApplyTrade(old(State()), symbol, size, price);
              && (r.Ok? <==> expected.Ok?)
              && State() == (if expected.Ok? then expected.value else old(State()))
      ensures history == old(history)
    {
      var cost := size as real * price;
      if size > 0 {
        Buy(symbol, size, price, cost);
        r := Ok(());
      } else {
        r := Sell(symbol, -size, price, -cost);
      }
    }

    /** `_buy`. */
    method Buy(symbol: Symbol, size: int, price: real, cost: real)
      requires Valid() && size > 0 && cost == size as real * price
      modifies this
      ensures Valid()
      ensures State() == ApplyBuy(old(State()), symbol, size, price)
      ensures history == old(history)
    {
      var pos := Find(positions, symbol);
      var entry: Position;
      if pos.Some? {
        var newSize := pos.value.size + size;
        var avgPrice := WeightedAverage(pos.value.size, pos.value.avgPrice, size, price);
        entry := Position(newSize, avgPrice);
      } else {
        entry := Position(size, price);
      }
      positions := Put(positions, symbol, entry);
      cash := cash - cost;
    }

    /** `_sell`: rejects over-selling before it changes anything. */
    method Sell(symbol: Symbol, size: int, price: real, proceeds: real) returns (r: Result<(), TradeError>)
      requires Valid() && size >= 0 && proceeds == size as real * price
      modifies this
      ensures Valid()
      ensures var expected := ApplySell(old(State()), symbol, size, price);
              && (r.Ok? <==> expected.Ok?)
              && State() == (if expected.Ok? then expected.value else old(State()))
      ensures history == old(history)
    {
      var pos := Find(positions, symbol);
      if pos.None? || pos.value.size < size {
        return Err(NotEnoughPosition);
      }
      var pnl := (price - pos.value.avgPrice) * size as real;
      var left := pos.value.size - size;
      if left == 0 {
        positions := Delete(positions, symbol);
      } else {
        positions := Put(positions, symbol, Position(left, pos.value.avgPrice));
      }
      realizedPnl := realizedPnl + pnl;
      cash := cash + proceeds;
      r := Ok(());
    }

    /**
     * `mark_to_market`: sums unrealized PnL and exposure over the held symbols
     * that have a quote, appends the snapshot to the history and returns it.
     */
    method MarkToMarket(marketPrices: map<Symbol, real>, timestamp: Option<Timestamp>) returns (snapshot: Snapshot)
      requires Valid()
      modifies this
      ensures Valid() && State() == old(State())
      ensures snapshot == Snapshot(timestamp, cash, realizedPnl,
                                   UnrealizedPnl(positions, marketPrices),
                                   TotalExposure(positions, marketPrices), None)
      ensures history == old(history) + [snapshot]
    {
      var unreal := 0.0;
      // The source collects per-symbol exposures in a dictionary and sums them;
      // the keys are distinct, so accumulating directly gives the same total.
      var exposure := 0.0;
      var i := 0;
      while i < |positions|
        invariant 0 <= i <= |positions|
        invariant unreal == UnrealizedPnl(positions[..i], marketPrices)
        invariant exposure == TotalExposure(positions[..i], marketPrices)
      {
        var (sym, pos) := positions[i];
        assert positions[..i + 1][..i] == positions[..i];
        if sym in marketPrices {
          var mprice := marketPrices[sym];
          unreal := unreal + (mprice - pos.avgPrice) * pos.size as real;
          exposure := exposure + pos.size as real * mprice;
        }
        i := i + 1;
      }
      assert positions[..i] == positions;
      snapshot := Snapshot(timestamp, cash, realizedPnl, unreal, exposure, None);
      history := history + [snapshot];
    }
  }
}
