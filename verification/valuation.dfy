/** What the ledger must agree with: valuing a list of executions from scratch. */
module Valuation {
  import opened Grid
  import opened Orders
  import opened Flows
  import opened Fifo

  /** Contract multipliers and the deterministic, finite price callback. */
  datatype Market = Market(multiplier: string -> real, price: (string, nat) -> real)

  /** Value at grid index `i` of having made one execution. */
  function Worth(m: Market, t: Trade, i: nat): real {
    m.multiplier(t.contract.symbol) * Times(t.qty, m.price(t.contract.symbol, i) - t.price) - t.fee - t.commission
  }

  /** The from-scratch valuation: every execution up to `time`, marked at grid index `i`. */
  function MarkToMarket(m: Market, trades: seq<Trade>, time: int, i: nat): real {
    if |trades| == 0 then 0.0
    else
      var t := trades[|trades| - 1];
      MarkToMarket(m, trades[..|trades| - 1], time, i) + if t.timestamp <= time then Worth(m, t, i) else 0.0
  }

  lemma MarkSnoc(m: Market, a: seq<Trade>, t: Trade, time: int, i: nat)
    ensures MarkToMarket(m, [], time, i) == 0.0
    ensures MarkToMarket(m, a + [t], time, i)
         == MarkToMarket(m, a, time, i) + if t.timestamp <= time then Worth(m, t, i) else 0.0
  {
    hide Worth;
    assert (a + [t])[..|a|] == a;
  }

  lemma {:induction false} MarkAppend(m: Market, a: seq<Trade>, b: seq<Trade>, time: int, i: nat)
    ensures MarkToMarket(m, a + b, time, i) == MarkToMarket(m, a, time, i) + MarkToMarket(m, b, time, i)
  {
    hide Worth;
    if |b| == 0 {
      assert a + b == a;
    } else {
      MarkAppend(m, a, b[..|b| - 1], time, i);
      assert (a + b)[..|a + b| - 1] == a + b[..|b| - 1];
    }
  }

  lemma {:induction false} MarkBefore(m: Market, trades: seq<Trade>, time: int, i: nat)
    requires forall k :: 0 <= k < |trades| ==> trades[k].timestamp > time
    ensures MarkToMarket(m, trades, time, i) == 0.0
  {
    if |trades| > 0 {
      MarkBefore(m, trades[..|trades| - 1], time, i);
    }
  }

  // ---- Selections ----

  function BySymbol(trades: seq<Trade>, symbol: string): (r: seq<Trade>)
    ensures forall k :: 0 <= k < |r| ==> r[k] in trades && r[k].contract.symbol == symbol
  {
    if |trades| == 0 then []
    else
      var t := trades[|trades| - 1];
      BySymbol(trades[..|trades| - 1], symbol) + if t.contract.symbol == symbol then [t] else []
  }

  function UpToTime(trades: seq<Trade>, time: int): (r: seq<Trade>)
    ensures forall k :: 0 <= k < |r| ==> r[k] in trades && r[k].timestamp <= time
  {
    if |trades| == 0 then []
    else
      var t := trades[|trades| - 1];
      UpToTime(trades[..|trades| - 1], time) + if t.timestamp <= time then [t] else []
  }

  function AtTime(trades: seq<Trade>, time: int): (r: seq<Trade>)
    ensures forall k :: 0 <= k < |r| ==> r[k] in trades && r[k].timestamp == time
  {
    if |trades| == 0 then []
    else
      var t := trades[|trades| - 1];
      AtTime(trades[..|trades| - 1], time) + if t.timestamp == time then [t] else []
  }

  lemma SelectSnoc(a: seq<Trade>, t: Trade, symbol: string, time: int)
    ensures BySymbol(a + [t], symbol) == BySymbol(a, symbol) + if t.contract.symbol == symbol then [t] else []
    ensures UpToTime(a + [t], time) == UpToTime(a, time) + if t.timestamp <= time then [t] else []
  {
    assert (a + [t])[..|a|] == a;
  }

  lemma {:induction false} SelectAppend(a: seq<Trade>, b: seq<Trade>, symbol: string, time: int)
    ensures BySymbol(a + b, symbol) == BySymbol(a, symbol) + BySymbol(b, symbol)
    ensures UpToTime(a + b, time) == UpToTime(a, time) + UpToTime(b, time)
  {
    hide BySymbol, UpToTime;
    if |b| == 0 {
      assert a + b == a;
      NoTrades(symbol, time);
      assert BySymbol(a, symbol) + [] == BySymbol(a, symbol) && UpToTime(a, time) + [] == UpToTime(a, time);
    } else {
      var rest, t := b[..|b| - 1], b[|b| - 1];
      SelectAppend(a, rest, symbol, time);
      assert b == rest + [t] && a + b == (a + rest) + [t];
      SelectSnoc(rest, t, symbol, time);
      SelectSnoc(a + rest, t, symbol, time);
    }
  }

  lemma {:induction false} AllUpTo(trades: seq<Trade>, time: int)
    requires forall k :: 0 <= k < |trades| ==> trades[k].timestamp <= time
    ensures UpToTime(trades, time) == trades
  {
    hide UpToTime, BySymbol;
    if |trades| == 0 {
      NoTrades("", time);
    } else {
      var rest, t := trades[..|trades| - 1], trades[|trades| - 1];
      AllUpTo(rest, time);
      assert trades == rest + [t];
      SelectSnoc(rest, t, "", time);
    }
  }

  lemma {:induction false} NoneUpTo(trades: seq<Trade>, time: int)
    requires forall k :: 0 <= k < |trades| ==> trades[k].timestamp > time
    ensures UpToTime(trades, time) == []
  {
    if |trades| > 0 {
      NoneUpTo(trades[..|trades| - 1], time);
    }
  }

  /** Two cut-off times with no execution between them select the same executions. */
  lemma {:induction false} UpToSame(trades: seq<Trade>, a: int, b: int)
    requires a <= b && forall k :: 0 <= k < |trades| ==> trades[k].timestamp <= a || trades[k].timestamp > b
    ensures UpToTime(trades, a) == UpToTime(trades, b)
  {
    if |trades| > 0 {
      UpToSame(trades[..|trades| - 1], a, b);
    }
  }

  lemma {:induction false} MarkUpTo(m: Market, trades: seq<Trade>, time: int, i: nat)
    ensures MarkToMarket(m, UpToTime(trades, time), time, i) == MarkToMarket(m, trades, time, i)
  {
    hide Worth;
    if |trades| > 0 {
      var rest, t := trades[..|trades| - 1], trades[|trades| - 1];
      MarkUpTo(m, rest, time, i);
      assert trades == rest + [t];
      SelectSnoc(rest, t, "", time);
      MarkSnoc(m, UpToTime(rest, time), t, time, i);
      assert UpToTime(rest, time) + [] == UpToTime(rest, time);
    }
  }

  // ---- One contract in closed form ----

  predicate Whole(trades: seq<Trade>) {
    forall k :: 0 <= k < |trades| ==> trades[k].qty != 0
  }

  function LotsOf(trades: seq<Trade>): (r: seq<Lot>)
    ensures |r| == |trades| && forall k :: 0 <= k < |r| ==> r[k] == Lot(trades[k].qty, trades[k].price)
  {
    seq(|trades|, k requires 0 <= k < |trades| => Lot(trades[k].qty, trades[k].price))
  }

  function Fees(trades: seq<Trade>): real {
    if |trades| == 0 then 0.0 else Fees(trades[..|trades| - 1]) + trades[|trades| - 1].fee
  }

  function Commissions(trades: seq<Trade>): real {
    if |trades| == 0 then 0.0 else Commissions(trades[..|trades| - 1]) + trades[|trades| - 1].commission
  }

  lemma {:induction false} ChargesAppend(a: seq<Trade>, b: seq<Trade>)
    ensures Fees(a + b) == Fees(a) + Fees(b) && Commissions(a + b) == Commissions(a) + Commissions(b)
  {
    if |b| == 0 {
      assert a + b == a;
    } else {
      ChargesAppend(a, b[..|b| - 1]);
      assert (a + b)[..|a + b| - 1] == a + b[..|b| - 1];
    }
  }

  /** multiplier x (position x price - signed cost) - fees - commissions. */
  function ContractValue(m: Market, symbol: string, trades: seq<Trade>, i: nat): real {
    var lots := LotsOf(trades);
    m.multiplier(symbol) * (Times(Qty(lots), m.price(symbol, i)) - Cost(lots)) - Fees(trades) - Commissions(trades)
  }

  lemma WorthOfOne(m: Market, t: Trade, i: nat)
    ensures var s := t.contract.symbol;
            Worth(m, t, i)
            == m.multiplier(s) * (Times(t.qty, m.price(s, i)) - Times(t.qty, t.price)) - t.fee - t.commission
  {
    TimesSpreads(t.qty, m.price(t.contract.symbol, i), t.price);
  }

  lemma Distribute(k: real, a: real, b: real)
    ensures k * (a + b) == k * a + k * b
  {}

  lemma {:induction false} ClosedForm(m: Market, symbol: string, trades: seq<Trade>, time: int, i: nat)
    requires forall k :: 0 <= k < |trades| ==> trades[k].contract.symbol == symbol && trades[k].timestamp <= time
    ensures MarkToMarket(m, trades, time, i) == ContractValue(m, symbol, trades, i)
  {
    hide Worth, Times;
    var p, k := m.price(symbol, i), m.multiplier(symbol);
    if |trades| == 0 {
      TimesNone(p);
      assert k * 0.0 == 0.0;
    } else {
      var t, rest := trades[|trades| - 1], trades[..|trades| - 1];
      ClosedForm(m, symbol, rest, time, i);
      var a, b := LotsOf(rest), [Lot(t.qty, t.price)];
      assert LotsOf(trades) == a + b;
      SumsAppend(a, b);
      TimesAdds(Qty(a), t.qty, p);
      WorthOfOne(m, t, i);
      Distribute(k, Times(Qty(a), p) - Cost(a), Times(t.qty, p) - Times(t.qty, t.price));
    }
  }

  // ---- The row the ledger keeps per trade timestamp ----

  datatype TradeRow = TradeRow(
    position: int, realized: real, fee: real, commission: real, openQty: int, averagePrice: real)

  function Books(trades: seq<Trade>): Netting
    requires Whole(trades)
  {
    Net([], LotsOf(trades))
  }

  function AveragePrice(lots: seq<Lot>): real {
    if Qty(lots) == 0 then 0.0 else Cost(lots) / Qty(lots) as real
  }

  function RowOf(m: Market, symbol: string, trades: seq<Trade>): TradeRow
    requires Whole(trades)
  {
    var books := Books(trades);
    TradeRow(Qty(LotsOf(trades)), books.realized * m.multiplier(symbol), Fees(trades), Commissions(trades),
             Qty(books.lots), AveragePrice(books.lots))
  }

  /** What a row's open position has gained at a price; a flat position needs no price. */
  function Unrealized(m: Market, symbol: string, row: TradeRow, price: real): real {
    if row.openQty == 0 then 0.0 else Times(row.openQty, price - row.averagePrice) * m.multiplier(symbol)
  }

  /** Net P&L of a row at a price. */
  function RowPnl(m: Market, symbol: string, row: TradeRow, price: real): real {
    row.realized + Unrealized(m, symbol, row, price) - row.commission - row.fee
  }

  lemma BooksBalance(trades: seq<Trade>)
    requires Whole(trades)
    ensures OneSided(Books(trades).lots)
    ensures Qty(Books(trades).lots) == Qty(LotsOf(trades))
    ensures Cost(Books(trades).lots) == Cost(LotsOf(trades)) + Books(trades).realized
    ensures Qty(Books(trades).lots) == 0 ==> Cost(Books(trades).lots) == 0.0
  {
    NetConserves([], LotsOf(trades));
    NetStaysOneSided([], LotsOf(trades));
    FlatIsEmpty(Books(trades).lots);
  }

  lemma AverageCost(q: int, price: real, cost: real)
    requires q != 0
    ensures Times(q, price - cost / q as real) == Times(q, price) - cost
  {
    var r := q as real;
    assert r * (cost / r) == cost;
  }

  lemma Regroup(k: real, realized: real, spread: real)
    ensures realized * k + spread * k == k * (realized + spread)
  {}

  /** Realized plus unrealized against the average price is the closed form: FIFO netting moves value
      between the two but never creates any. */
  lemma RowIsWorth(m: Market, symbol: string, trades: seq<Trade>, i: nat)
    requires Whole(trades)
    ensures RowPnl(m, symbol, RowOf(m, symbol, trades), m.price(symbol, i)) == ContractValue(m, symbol, trades, i)
  {
    hide Times, Cost, Qty, Net;
    BooksBalance(trades);
    var books, p, k := Books(trades), m.price(symbol, i), m.multiplier(symbol);
    var q := Qty(books.lots);
    if q == 0 {
      TimesNone(p);
      Regroup(k, books.realized, 0.0);
    } else {
      AverageCost(q, p, Cost(books.lots));
      Regroup(k, books.realized, Times(q, p) - Cost(books.lots));
    }
  }

  // ---- Regrouping the account's trades by contract ----

  function SumOver(m: Market, symbols: seq<string>, trades: seq<Trade>, time: int, i: nat): real {
    if |symbols| == 0 then 0.0
    else
      SumOver(m, symbols[..|symbols| - 1], trades, time, i)
      + MarkToMarket(m, BySymbol(trades, symbols[|symbols| - 1]), time, i)
  }

  predicate Distinct(symbols: seq<string>) {
    forall j, k :: 0 <= j < k < |symbols| ==> symbols[j] != symbols[k]
  }

  lemma {:induction false} SumOverAdds(m: Market, symbols: seq<string>, trades: seq<Trade>, t: Trade, time: int, i: nat)
    requires Distinct(symbols)
    ensures SumOver(m, symbols, trades + [t], time, i) == SumOver(m, symbols, trades, time, i)
      + if t.contract.symbol in symbols && t.timestamp <= time then Worth(m, t, i) else 0.0
  {
    hide Worth, MarkToMarket, BySymbol;
    if |symbols| > 0 {
      var rest, s := symbols[..|symbols| - 1], symbols[|symbols| - 1];
      SumOverAdds(m, rest, trades, t, time, i);
      SelectSnoc(trades, t, s, time);
      MarkSnoc(m, BySymbol(trades, s), t, time, i);
      assert BySymbol(trades, s) + [] == BySymbol(trades, s);
    }
  }

  lemma {:induction false} SumOverNothing(m: Market, symbols: seq<string>, time: int, i: nat)
    ensures SumOver(m, symbols, [], time, i) == 0.0
  {
    if |symbols| > 0 {
      SumOverNothing(m, symbols[..|symbols| - 1], time, i);
    }
  }

  /** Valuing contract by contract is valuing execution by execution. */
  lemma {:induction false} SumOverIsMark(m: Market, symbols: seq<string>, trades: seq<Trade>, time: int, i: nat)
    requires Distinct(symbols)
    requires forall k :: 0 <= k < |trades| ==> trades[k].contract.symbol in symbols
    ensures SumOver(m, symbols, trades, time, i) == MarkToMarket(m, trades, time, i)
  {
    hide Worth;
    if |trades| == 0 {
      SumOverNothing(m, symbols, time, i);
    } else {
      var rest, t := trades[..|trades| - 1], trades[|trades| - 1];
      SumOverIsMark(m, symbols, rest, time, i);
      SumOverAdds(m, symbols, rest, t, time, i);
      assert rest + [t] == trades;
    }
  }

  /** The ledger's position is the engine's: the flow of a symbol's executions up to a time. */
  lemma {:induction false} PositionIsFlow(trades: seq<Trade>, symbol: string, time: int)
    ensures Qty(LotsOf(UpToTime(BySymbol(trades, symbol), time))) == Flow(trades, InSymbol(symbol), Signed, UpTo(time))
  {
    hide BySymbol, UpToTime, Qty;
    if |trades| == 0 {
      assert BySymbol([], symbol) == [] && UpToTime([], time) == [] && Qty(LotsOf([])) == 0 by {
        NoTrades(symbol, time);
      }
    } else {
      var rest, t := trades[..|trades| - 1], trades[|trades| - 1];
      PositionIsFlow(rest, symbol, time);
      assert trades == rest + [t];
      SelectSnoc(rest, t, symbol, time);
      var mine := BySymbol(rest, symbol);
      SelectSnoc(mine, t, symbol, time);
      assert mine + [] == mine && UpToTime(mine, time) + [] == UpToTime(mine, time);
      QtySnoc(UpToTime(mine, time), t);
    }
  }

  lemma NoTrades(symbol: string, time: int)
    ensures BySymbol([], symbol) == [] && UpToTime([], time) == [] && Qty(LotsOf([])) == 0
  {}

  lemma QtySnoc(trades: seq<Trade>, t: Trade)
    ensures Qty(LotsOf(trades + [t])) == Qty(LotsOf(trades)) + t.qty
  {
    assert LotsOf(trades + [t]) == LotsOf(trades) + [Lot(t.qty, t.price)];
    SumsAppend(LotsOf(trades), [Lot(t.qty, t.price)]);
  }
}
