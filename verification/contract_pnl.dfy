/** One contract's ledger: rows per trade timestamp, cached net P&L, open lots. */
module ContractLedger {
  import opened Grid
  import opened Orders
  import opened Flows
  import opened Fifo
  import opened SortedDicts
  import opened Valuation
  import opened Options

  /** When the price callback (or the check on its result) raises: never, or after so many good calls. */
  datatype Fuse = Never | After(calls: nat)
  {
    predicate Blown() {
      this == After(0)
    }

    function Burn(): Fuse
      requires !Blown()
    {
      if Never? then Never else After(calls - 1)
    }
  }

  datatype NetRow = NetRow(openQty: int, unrealized: real, net: real)

  /** `ContractPNLState`: everything a snapshot copies. */
  datatype ContractState = ContractState(
    tradePnl: SortedDict<TradeRow>, netPnl: SortedDict<NetRow>, lots: seq<Lot>, first: Option<int>, newTrades: bool)

  ghost predicate InOrder(trades: seq<Trade>) {
    forall j, k :: 0 <= j < k < |trades| ==> trades[j].timestamp <= trades[k].timestamp
  }

  ghost predicate Bookable(symbol: string, grid: seq<int>, trades: seq<Trade>) {
    && InOrder(trades) && Whole(trades)
    && forall k :: 0 <= k < |trades| ==> trades[k].contract.symbol == symbol && trades[k].timestamp in grid
  }

  ghost predicate HasTime(trades: seq<Trade>, t: int) {
    exists k :: 0 <= k < |trades| && trades[k].timestamp == t
  }

  /** The trade rows and open lots are those of the booked executions. */
  ghost predicate TradesAgree(m: Market, symbol: string, s: ContractState, booked: seq<Trade>)
    requires Whole(booked)
  {
    && s.tradePnl.Valid()
    && s.lots == Books(booked).lots
    && (forall t :: t in s.tradePnl.at <==> HasTime(booked, t))
    && (forall t :: t in s.tradePnl.at ==> s.tradePnl.at[t] == RowOf(m, symbol, UpToTime(booked, t)))
  }

  /** Every cached net P&L is the from-scratch valuation at its time. */
  ghost predicate NetAgrees(m: Market, grid: seq<int>, s: ContractState, booked: seq<Trade>)
    requires Increasing(grid)
  {
    && s.netPnl.Valid()
    && forall t :: t in s.netPnl.at ==>
         && t in grid && |booked| > 0 && booked[0].timestamp <= t
         && s.netPnl.at[t].net == MarkToMarket(m, booked, t, SearchSorted(grid, t))
  }

  ghost predicate Agrees(m: Market, symbol: string, grid: seq<int>, s: ContractState, booked: seq<Trade>) {
    && Increasing(grid) && Bookable(symbol, grid, booked)
    && TradesAgree(m, symbol, s, booked) && NetAgrees(m, grid, s, booked)
    && s.first == if booked == [] then None else Some(booked[0].timestamp)
  }

  /** The row in force at a time is the row of the executions up to that time. */
  lemma RowInForce(m: Market, symbol: string, s: ContractState, booked: seq<Trade>, t: int)
    requires Whole(booked) && TradesAgree(m, symbol, s, booked)
    ensures s.tradePnl.Valid() && s.lots == Books(booked).lots
    ensures var i := FindIndexBefore(s.tradePnl, t);
            if i == -1 then UpToTime(booked, t) == []
            else s.tradePnl.keys[i] in s.tradePnl.at
                 && s.tradePnl.at[s.tradePnl.keys[i]] == RowOf(m, symbol, UpToTime(booked, t))
                 && HasTime(booked, s.tradePnl.keys[i]) && s.tradePnl.keys[i] <= t
  {
    hide RowOf;
    var i := FindIndexBefore(s.tradePnl, t);
    InForce(s.tradePnl, t);
    forall k | 0 <= k < |booked| ensures booked[k].timestamp in s.tradePnl.at {
      assert HasTime(booked, booked[k].timestamp);
    }
    if i == -1 {
      NoneUpTo(booked, t);
    } else {
      UpToSame(booked, s.tradePnl.keys[i], t);
    }
  }

  /** Realized plus unrealized from that row is the from-scratch valuation. */
  lemma RowMarks(m: Market, symbol: string, grid: seq<int>, booked: seq<Trade>, t: int, i: nat)
    requires Bookable(symbol, grid, booked)
    ensures Whole(UpToTime(booked, t))
    ensures RowPnl(m, symbol, RowOf(m, symbol, UpToTime(booked, t)), m.price(symbol, i))
      == MarkToMarket(m, booked, t, i)
  {
    hide RowOf, RowPnl, MarkToMarket, UpToTime, ContractValue;
    var upTo := UpToTime(booked, t);
    RowIsWorth(m, symbol, upTo, i);
    ClosedForm(m, symbol, upTo, t, i);
    MarkUpTo(m, booked, t, i);
  }

  /** The distinct timestamps of trades in time order (`np.unique`). */
  function Stamps(trades: seq<Trade>): (r: seq<int>)
    ensures |trades| > 0 ==> |r| > 0 && r[|r| - 1] == trades[|trades| - 1].timestamp
  {
    if |trades| == 0 then []
    else
      var n := |trades| - 1;
      if n > 0 && trades[n - 1].timestamp == trades[n].timestamp then Stamps(trades[..n])
      else Stamps(trades[..n]) + [trades[n].timestamp]
  }

  lemma HasTimeSnoc(trades: seq<Trade>, t: int)
    requires |trades| > 0
    ensures var n := |trades| - 1;
            HasTime(trades, t) <==> HasTime(trades[..n], t) || t == trades[n].timestamp
  {
    var n := |trades| - 1;
    if HasTime(trades[..n], t) {
      var k :| 0 <= k < n && trades[..n][k].timestamp == t;
      assert trades[k].timestamp == t;
    }
    if HasTime(trades, t) && t != trades[n].timestamp {
      var k :| 0 <= k < |trades| && trades[k].timestamp == t;
      assert trades[..n][k].timestamp == t;
    }
  }

  /** A trade at a new time comes after every stamp before it. */
  lemma StampsBefore(rest: seq<Trade>, stamps: seq<int>, last: int)
    requires InOrder(rest) && forall t :: t in stamps ==> HasTime(rest, t)
    requires |rest| > 0 ==> rest[|rest| - 1].timestamp < last
    ensures forall k :: 0 <= k < |stamps| ==> stamps[k] < last
  {
    forall k | 0 <= k < |stamps| ensures stamps[k] < last {
      assert stamps[k] in stamps && HasTime(rest, stamps[k]);
      var j :| 0 <= j < |rest| && rest[j].timestamp == stamps[k];
      assert rest[j].timestamp <= rest[|rest| - 1].timestamp;
    }
  }

  lemma {:induction false} StampsIncrease(trades: seq<Trade>)
    requires InOrder(trades)
    ensures Increasing(Stamps(trades))
    ensures forall t :: t in Stamps(trades) <==> HasTime(trades, t)
    ensures |trades| > 0 ==> Stamps(trades)[0] == trades[0].timestamp
  {
    if |trades| > 0 {
      var n := |trades| - 1;
      var rest, stamps := trades[..n], Stamps(trades[..n]);
      StampsIncrease(rest);
      forall t ensures HasTime(trades, t) <==> HasTime(rest, t) || t == trades[n].timestamp {
        HasTimeSnoc(trades, t);
      }
      if n > 0 && trades[n - 1].timestamp == trades[n].timestamp {
        assert rest[n - 1].timestamp == trades[n].timestamp;
        assert Stamps(trades) == stamps;
      } else {
        assert n > 0 ==> trades[n - 1].timestamp <= trades[n].timestamp;
        StampsBefore(rest, stamps, trades[n].timestamp);
        hide HasTime, InOrder;
        assert Stamps(trades) == stamps + [trades[n].timestamp];
        assert n == 0 ==> stamps == [];
      }
    }
  }

  /** The trades up to the first `i` stamps. */
  function Through(trades: seq<Trade>, i: nat): seq<Trade>
    requires i <= |Stamps(trades)|
  {
    if i == 0 then [] else UpToTime(trades, Stamps(trades)[i - 1])
  }

  /** One more trade, at or before `a` or at or after `b`, keeps the selections in step. */
  lemma CutStep(rest: seq<Trade>, x: Trade, a: int, b: int)
    requires a < b && (x.timestamp <= a || x.timestamp >= b)
    requires UpToTime(rest, b) == UpToTime(rest, a) + AtTime(rest, b)
    requires x.timestamp <= a ==> AtTime(rest, b) == []
    ensures UpToTime(rest + [x], b) == UpToTime(rest + [x], a) + AtTime(rest + [x], b)
  {
    assert (rest + [x])[..|rest|] == rest;
    var u, v := UpToTime(rest, a), AtTime(rest, b);
    if x.timestamp <= a {
      assert UpToTime(rest + [x], b) == u + [] + [x];
    } else if x.timestamp == b {
      assert (u + v) + [x] == u + (v + [x]);
    } else {
      assert (u + v) + [] == u + (v + []);
    }
  }

  lemma {:induction false} CutSplits(trades: seq<Trade>, a: int, b: int)
    requires InOrder(trades) && a < b
    requires forall k :: 0 <= k < |trades| ==> trades[k].timestamp <= a || trades[k].timestamp >= b
    ensures UpToTime(trades, b) == UpToTime(trades, a) + AtTime(trades, b)
  {
    if |trades| > 0 {
      hide UpToTime, AtTime;
      var n := |trades| - 1;
      var rest, x := trades[..n], trades[n];
      CutSplits(rest, a, b);
      if x.timestamp <= a {
        NoneYet(trades, a, b);
      }
      CutStep(rest, x, a, b);
      assert trades == rest + [x];
    }
  }

  /** While the last trade is at or before `a`, none is at `b`. */
  lemma NoneYet(trades: seq<Trade>, a: int, b: int)
    requires InOrder(trades) && a < b && |trades| > 0 && trades[|trades| - 1].timestamp <= a
    ensures AtTime(trades[..|trades| - 1], b) == []
  {
    var n := |trades| - 1;
    forall k | 0 <= k < n ensures trades[..n][k].timestamp != b {
      assert trades[k].timestamp <= trades[n].timestamp;
    }
    NoneAt(trades[..n], b);
  }

  lemma {:induction false} NoneAt(trades: seq<Trade>, t: int)
    requires forall k :: 0 <= k < |trades| ==> trades[k].timestamp != t
    ensures AtTime(trades, t) == []
  {
    if |trades| > 0 {
      NoneAt(trades[..|trades| - 1], t);
    }
  }

  lemma {:induction false} FirstCut(trades: seq<Trade>, b: int)
    requires forall k :: 0 <= k < |trades| ==> trades[k].timestamp >= b
    ensures UpToTime(trades, b) == AtTime(trades, b)
  {
    if |trades| > 0 {
      FirstCut(trades[..|trades| - 1], b);
    }
  }

  lemma {:induction false} SomeAt(trades: seq<Trade>, t: int)
    requires HasTime(trades, t)
    ensures |AtTime(trades, t)| > 0
  {
    var n := |trades| - 1;
    if trades[n].timestamp != t {
      var k :| 0 <= k < |trades| && trades[k].timestamp == t;
      assert trades[..n][k].timestamp == t;
      SomeAt(trades[..n], t);
    }
  }

  /** Going from one stamp to the next adds exactly the trades at that stamp. */
  lemma StampStep(trades: seq<Trade>, i: nat)
    requires InOrder(trades) && i < |Stamps(trades)|
    ensures var t := Stamps(trades)[i];
            && Through(trades, i + 1) == Through(trades, i) + AtTime(trades, t)
            && |AtTime(trades, t)| > 0
            && (forall k :: 0 <= k < |Through(trades, i)| ==> Through(trades, i)[k].timestamp < t)
  {
    hide UpToTime, AtTime, Stamps;
    StampsIncrease(trades);
    var stamps := Stamps(trades);
    var t := stamps[i];
    assert t in stamps;
    SomeAt(trades, t);
    forall k | 0 <= k < |trades|
      ensures trades[k].timestamp in stamps
    {
      assert HasTime(trades, trades[k].timestamp);
    }
    if i == 0 {
      FirstCut(trades, t);
    } else {
      CutSplits(trades, stamps[i - 1], t);
    }
  }

  lemma ThroughAll(trades: seq<Trade>)
    requires InOrder(trades)
    ensures Through(trades, |Stamps(trades)|) == trades
  {
    StampsIncrease(trades);
    if |trades| > 0 {
      AllUpTo(trades, trades[|trades| - 1].timestamp);
    }
  }

  /** Trades may follow the booked ones exactly when the first of them is not before the last row. */
  lemma ChronologyIs(m: Market, symbol: string, s: ContractState, booked: seq<Trade>, trades: seq<Trade>)
    requires Whole(booked) && TradesAgree(m, symbol, s, booked) && InOrder(booked) && InOrder(trades) && |trades| > 0
    ensures var keys := s.tradePnl.keys;
            InOrder(booked + trades) <==> |keys| == 0 || trades[0].timestamp >= keys[|keys| - 1]
  {
    hide RowOf, Books, InOrder;
    KeysListed(s.tradePnl);
    var keys, n := s.tradePnl.keys, |booked|;
    forall k | 0 <= k < n ensures booked[k].timestamp in keys {
      assert HasTime(booked, booked[k].timestamp);
    }
    if n == 0 {
      assert booked + trades == trades;
    } else {
      assert booked[n - 1].timestamp in keys;
      var last := keys[|keys| - 1];
      assert last in keys && HasTime(booked, last);
      LastIsLatest(booked, last);
      OrderJoins(booked, trades);
    }
  }

  lemma LastIsLatest(trades: seq<Trade>, t: int)
    requires InOrder(trades) && HasTime(trades, t)
    ensures |trades| > 0 && t <= trades[|trades| - 1].timestamp
  {}

  lemma OrderJoins(a: seq<Trade>, b: seq<Trade>)
    requires InOrder(a) && InOrder(b) && |a| > 0 && |b| > 0
    ensures InOrder(a + b) <==> a[|a| - 1].timestamp <= b[0].timestamp
  {
    var all := a + b;
    assert all[|a| - 1] == a[|a| - 1] && all[|a|] == b[0];
    if a[|a| - 1].timestamp <= b[0].timestamp {
      forall j, k | 0 <= j < k < |all| ensures all[j].timestamp <= all[k].timestamp {
        if j < |a| <= k {
          assert a[j].timestamp <= a[|a| - 1].timestamp && b[0].timestamp <= b[k - |a|].timestamp;
        }
      }
    }
  }

  /** Dropping cached values and raising the flag leaves the rest in agreement. */
  lemma ResetAgrees(m: Market, symbol: string, grid: seq<int>, s: ContractState, booked: seq<Trade>, s': ContractState)
    requires Agrees(m, symbol, grid, s, booked)
    requires s'.tradePnl == s.tradePnl && s'.lots == s.lots && s'.netPnl.Valid()
    requires forall u :: u in s'.netPnl.at ==> u in s.netPnl.at && s'.netPnl.at[u] == s.netPnl.at[u]
    ensures Whole(booked) && TradesAgree(m, symbol, s', booked) && NetAgrees(m, grid, s', booked)
  {}

  lemma NetOrdered(m: Market, symbol: string, grid: seq<int>, s: ContractState, booked: seq<Trade>)
    requires Agrees(m, symbol, grid, s, booked)
    ensures s.netPnl.Valid()
  {}

  lemma NoneThrough(booked: seq<Trade>, trades: seq<Trade>)
    ensures booked + Through(trades, 0) == booked
  {}

  // ---- Booking the trades of one timestamp, on values ----

  lemma BooksChain(booked: seq<Trade>, group: seq<Trade>)
    requires Whole(booked) && Whole(group)
    ensures Whole(booked + group)
    ensures var r := Net(Books(booked).lots, LotsOf(group));
            Books(booked + group) == Netting(r.lots, Books(booked).realized + r.realized)
    ensures Qty(LotsOf(booked + group)) == Qty(LotsOf(booked)) + Qty(LotsOf(group))
  {
    hide Net, Qty;
    assert LotsOf(booked + group) == LotsOf(booked) + LotsOf(group);
    NetChains([], LotsOf(booked), LotsOf(group));
    SumsAppend(LotsOf(booked), LotsOf(group));
  }

  lemma {:induction false} LiveStays(lots: seq<Lot>)
    requires Live(lots)
    ensures DropZero(lots) == lots
  {
    if |lots| > 0 {
      LiveStays(lots[..|lots| - 1]);
    }
  }

  /** The next row: the previous one plus this timestamp's changes. */
  function NextRow(
    m: Market, symbol: string, prev: Option<TradeRow>, group: seq<Trade>, lots: seq<Lot>, realized: real):
    TradeRow
  {
    var p := if prev.None? then TradeRow(0, 0.0, 0.0, 0.0, 0, 0.0) else prev.value;
    TradeRow(
      p.position + Qty(LotsOf(group)), p.realized + realized * m.multiplier(symbol), p.fee + Fees(group),
      p.commission + Commissions(group), Qty(lots), AveragePrice(lots))
  }

  lemma NextRowIs(m: Market, symbol: string, booked: seq<Trade>, group: seq<Trade>)
    requires Whole(booked) && Whole(group)
    ensures Whole(booked + group)
    ensures var r := Net(Books(booked).lots, LotsOf(group));
            var prev := if booked == [] then None else Some(RowOf(m, symbol, booked));
            NextRow(m, symbol, prev, group, r.lots, r.realized) == RowOf(m, symbol, booked + group)
  {
    hide Net, AveragePrice, Qty, LotsOf, Fees, Commissions;
    BooksChain(booked, group);
    ChargesAppend(booked, group);
    var r := Net(Books(booked).lots, LotsOf(group));
    var k := m.multiplier(symbol);
    Scaled(Books(booked).realized, r.realized, k);
    if booked == [] {
      NothingBooked();
    }
  }

  lemma NothingBooked()
    ensures Books([]) == Netting([], 0.0) && Qty(LotsOf([])) == 0 && Fees([]) == 0.0 && Commissions([]) == 0.0
  {}

  lemma Scaled(a: real, b: real, k: real)
    ensures (a + b) * k == a * k + b * k && 0.0 * k == 0.0
  {}

  function RowBefore(d: SortedDict<TradeRow>, t: int): Option<TradeRow>
    requires d.Valid()
  {
    var i := FindIndexBefore(d, t);
    if i == -1 then None
    else
      KeysListed(d);
      Some(d.at[d.keys[i]])
  }

  /** The row found before a timestamp that no booked trade exceeds is the row of everything booked. */
  lemma LastRow(m: Market, symbol: string, s: ContractState, booked: seq<Trade>, t: int)
    requires Whole(booked) && TradesAgree(m, symbol, s, booked)
    requires forall k :: 0 <= k < |booked| ==> booked[k].timestamp <= t
    ensures s.tradePnl.Valid() && s.lots == Books(booked).lots && Live(s.lots)
    ensures RowBefore(s.tradePnl, t) == if booked == [] then None else Some(RowOf(m, symbol, booked))
  {
    hide RowOf, Net;
    RowInForce(m, symbol, s, booked, t);
    AllUpTo(booked, t);
    if booked != [] {
      assert HasTime(booked, booked[0].timestamp);
      InForce(s.tradePnl, t);
    }
  }

  /** Booking keeps agreement: the new row is right and the older rows are untouched. */
  lemma BookAgrees(m: Market, symbol: string, s: ContractState, booked: seq<Trade>, group: seq<Trade>, t: int,
                   s': ContractState)
    requires Whole(booked) && Whole(group) && TradesAgree(m, symbol, s, booked)
    requires |group| > 0 && forall k :: 0 <= k < |group| ==> group[k].timestamp == t
    requires forall k :: 0 <= k < |booked| ==> booked[k].timestamp <= t
    requires s'.lots == Net(s.lots, LotsOf(group)).lots
    requires s'.tradePnl.Valid()
    requires Whole(booked + group) && s'.tradePnl.at == s.tradePnl.at[t := RowOf(m, symbol, booked + group)]
    ensures TradesAgree(m, symbol, s', booked + group)
  {
    hide RowOf, Net;
    BooksChain(booked, group);
    var all := booked + group;
    forall u ensures u in s'.tradePnl.at <==> HasTime(all, u) {
      if HasTime(booked, u) {
        var k :| 0 <= k < |booked| && booked[k].timestamp == u;
        assert all[k].timestamp == u;
      }
      assert all[|booked|].timestamp == t;
      if HasTime(all, u) && u != t {
        var k :| 0 <= k < |all| && all[k].timestamp == u;
        assert booked[k].timestamp == u;
      }
    }
    forall u | u in s'.tradePnl.at ensures s'.tradePnl.at[u] == RowOf(m, symbol, UpToTime(all, u)) {
      if u == t {
        AllUpTo(all, t);
      } else {
        assert HasTime(booked, u);
        SelectAppend(booked, group, symbol, u);
        NoneUpTo(group, u);
        assert UpToTime(booked, u) + [] == UpToTime(booked, u);
      }
    }
  }

  /** Cached values before the new trades are still right. */
  lemma NetKeeps(m: Market, grid: seq<int>, s: ContractState, booked: seq<Trade>, group: seq<Trade>, t: int,
                 s': ContractState)
    requires Increasing(grid) && NetAgrees(m, grid, s, booked) && s'.netPnl == s.netPnl
    requires forall k :: 0 <= k < |group| ==> group[k].timestamp >= t
    requires forall u :: u in s.netPnl.at ==> u < t
    ensures NetAgrees(m, grid, s', booked + group)
  {
    forall u | u in s.netPnl.at
      ensures MarkToMarket(m, booked + group, u, SearchSorted(grid, u))
        == MarkToMarket(m, booked, u, SearchSorted(grid, u))
    {
      MarkAppend(m, booked, group, u, SearchSorted(grid, u));
      MarkBefore(m, group, u, SearchSorted(grid, u));
    }
  }

  /** What a valuation reads: both dictionaries are in order, and the row in force is the right one. */
  lemma ReadsRow(m: Market, symbol: string, grid: seq<int>, s: ContractState, booked: seq<Trade>, t: int)
    requires Agrees(m, symbol, grid, s, booked) && booked != [] && booked[0].timestamp <= t
    ensures s.netPnl.Valid() && s.tradePnl.Valid() && Whole(UpToTime(booked, t))
    ensures var i := FindIndexBefore(s.tradePnl, t);
            && i >= 0 && s.tradePnl.keys[i] in s.tradePnl.at
            && s.tradePnl.at[s.tradePnl.keys[i]] == RowOf(m, symbol, UpToTime(booked, t))
  {
    hide RowOf, Books, NetAgrees;
    NetOrdered(m, symbol, grid, s, booked);
    RowInForce(m, symbol, s, booked, t);
    InForce(s.tradePnl, t);
    assert HasTime(booked, booked[0].timestamp);
  }

  /** Caching the valuation of the row in force keeps agreement. */
  lemma ValueAgrees(m: Market, symbol: string, grid: seq<int>, s: ContractState, booked: seq<Trade>, t: int,
                    net: NetRow, s': ContractState)
    requires Agrees(m, symbol, grid, s, booked) && booked != [] && booked[0].timestamp <= t && t in grid
    requires Whole(UpToTime(booked, t))
    requires net.net == RowPnl(m, symbol, RowOf(m, symbol, UpToTime(booked, t)), m.price(symbol, SearchSorted(grid, t)))
    requires s'.netPnl.Valid() && s'.netPnl.at == s.netPnl.at[t := net]
    requires s'.tradePnl == s.tradePnl && s'.lots == s.lots && s'.first == s.first
    ensures Agrees(m, symbol, grid, s', booked)
  {
    hide Books, RowOf, RowPnl, MarkToMarket, UpToTime;
    RowMarks(m, symbol, grid, booked, t, SearchSorted(grid, t));
  }

  class ContractPnl {
    const market: Market
    const symbol: string
    const grid: seq<int>
    var tradePnl: SortedDict<TradeRow>
    var netPnl: SortedDict<NetRow>
    var lots: seq<Lot>
    var first: Option<int>
    var newTrades: bool
    ghost var booked: seq<Trade>

    constructor (market: Market, symbol: string, grid: seq<int>)
      requires Increasing(grid)
      ensures this.market == market && this.symbol == symbol && this.grid == grid
      ensures Valid() && booked == []
    {
      this.market, this.symbol, this.grid := market, symbol, grid;
      tradePnl, netPnl := SortedDict([], map[]), SortedDict([], map[]);
      lots, first, newTrades, booked := [], None, false, [];
    }

    function State(): ContractState
      reads this
    {
      ContractState(tradePnl, netPnl, lots, first, newTrades)
    }

    ghost predicate Valid()
      reads this
    {
      Agrees(market, symbol, grid, State(), booked)
    }

    /** `_restore_state`. */
    method Restore(s: ContractState, ghost was: seq<Trade>)
      modifies this
      ensures State() == s && booked == was
    {
      tradePnl, netPnl, lots, first, newTrades := s.tradePnl, s.netPnl, s.lots, s.first, s.newTrades;
      booked := was;
    }

    /** `_validate_trade_chronology`: exactly that no trade precedes one already booked. */
    method ValidateChronology(trades: seq<Trade>) returns (ok: bool)
      requires Valid() && InOrder(trades)
      ensures ok <==> InOrder(booked + trades)
    {
      hide RowOf, Books, UpToTime, NetAgrees;
      if |trades| == 0 {
        assert booked + trades == booked;
        return true;
      }
      ChronologyIs(market, symbol, State(), booked, trades);
      var keys := tradePnl.keys;
      return |keys| == 0 || trades[0].timestamp >= keys[|keys| - 1];
    }

    /** `calc_net_pnl` for finite prices and no expiry. */
    method CalcNetPnl(t: int, fuse: Fuse) returns (ok: bool, left: Fuse)
      requires Valid()
      modifies this`netPnl, this`newTrades
      ensures Valid()
      ensures !ok ==> State() == old(State())
      ensures ok && booked != [] && booked[0].timestamp <= t ==> t in netPnl.at
      ensures forall u :: u in old(netPnl).at ==> u in netPnl.at
      ensures forall u :: u in netPnl.at ==> u in old(netPnl).at || u == t
      ensures fuse.Never? ==> left.Never? && (ok || t !in grid)
    {
      hide Books, RowOf, MarkToMarket, UpToTime, Unrealized, TradesAgree, NetAgrees, Bookable, Whole;
      ghost var s := State();
      left := fuse;
      if t in netPnl.at && !newTrades {
        return true, left;
      }
      if first.None? || t < first.value {
        return true, left;
      }
      var i := SearchSorted(grid, t);
      if i == |grid| || grid[i] != t {
        return false, left;
      }
      assert grid[i] in grid;
      ReadsRow(market, symbol, grid, s, booked, t);
      var index := FindIndexBefore(tradePnl, t);
      var row := tradePnl.at[tradePnl.keys[index]];
      if row.openQty != 0 {
        if left.Blown() {
          return false, left;
        }
        left := left.Burn();
      }
      var unrealized := Unrealized(market, symbol, row, market.price(symbol, i));
      var net := NetRow(row.openQty, unrealized, row.realized + unrealized - row.commission - row.fee);
      netPnl := Put(netPnl, t, net);
      newTrades := false;
      ValueAgrees(market, symbol, grid, s, booked, t, net, State());
      ok := true;
    }

    /** One timestamp's trades: net them, extend the rows, value the contract at that time. */
    method AddAt(t: int, group: seq<Trade>, fuse: Fuse) returns (ok: bool, left: Fuse)
      requires Increasing(grid) && Bookable(symbol, grid, booked + group) && |group| > 0
      requires Whole(booked) && TradesAgree(market, symbol, State(), booked) && NetAgrees(market, grid, State(), booked)
      requires first == Some(if booked == [] then t else booked[0].timestamp)
      requires forall k :: 0 <= k < |group| ==> group[k].timestamp == t
      requires forall u :: u in netPnl.at ==> u < t
      modifies this
      ensures ok ==> Valid() && booked == old(booked) + group && t in netPnl.at && forall u :: u in netPnl.at ==> u <= t
      ensures fuse.Never? ==> ok && left.Never?
    {
      hide Net, RowOf, MarkToMarket, UpToTime, Fees, Commissions, Qty, AveragePrice, DropZero, Books;
      hide TradesAgree, NetAgrees, InOrder, HasTime, RowBefore;
      ghost var s := State();
      AddAtFacts(symbol, grid, booked, group, t);
      LastRow(market, symbol, s, booked, t);
      LiveStays(lots);
      LiveStays(LotsOf(group));
      var lots', realized := CalcTradePnl(lots, LotsOf(group));
      NextRowIs(market, symbol, booked, group);
      var row := NextRow(market, symbol, RowBefore(tradePnl, t), group, lots', realized);
      lots := lots';
      tradePnl := Put(tradePnl, t, row);
      BookAgrees(market, symbol, s, booked, group, t, State());
      NetKeeps(market, grid, s, booked, group, t, State());
      booked := booked + group;
      ok, left := CalcNetPnl(t, fuse);
    }

    /** `_add_trades`: the trades of one contract, in time order. A refusal for chronology changes nothing. */
    method AddTrades(trades: seq<Trade>, fuse: Fuse) returns (ok: bool, left: Fuse)
      requires Valid() && Bookable(symbol, grid, trades)
      modifies this
      ensures ok ==> Valid() && booked == old(booked) + trades
      ensures !InOrder(old(booked) + trades) ==> !ok && State() == old(State()) && booked == old(booked)
      ensures fuse.Never? ==> left.Never? && (ok <==> InOrder(old(booked) + trades))
    {
      hide Books, RowOf, MarkToMarket, UpToTime, AtTime, Whole, TradesAgree, NetAgrees, InOrder, Stamps, Through;
      left := fuse;
      if |trades| == 0 {
        assert booked + trades == booked;
        return true, left;
      }
      ok := ValidateChronology(trades);
      if !ok {
        return false, left;
      }
      ghost var s := State();
      var stamps := Stamps(trades);
      StampsIncrease(trades);
      NetOrdered(market, symbol, grid, s, booked);
      netPnl := DeleteFrom(netPnl, stamps[0]);
      if first.None? {
        first := Some(stamps[0]);
      }
      newTrades := true;
      ResetAgrees(market, symbol, grid, s, booked, State());
      NoneThrough(booked, trades);
      for i := 0 to |stamps|
        invariant booked == old(booked) + Through(trades, i) && (i > 0 ==> |booked| > 0)
        invariant Whole(booked) && TradesAgree(market, symbol, State(), booked)
        invariant NetAgrees(market, grid, State(), booked)
        invariant first == Some(if booked == [] then stamps[0] else booked[0].timestamp)
        invariant forall u :: u in netPnl.at ==> if i == 0 then u < stamps[0] else u <= stamps[i - 1]
        invariant fuse.Never? ==> left.Never?
      {
        var t := stamps[i];
        StampStep(trades, i);
        BatchBookable(symbol, grid, old(booked), trades, i);
        assert booked + AtTime(trades, t) == old(booked) + Through(trades, i + 1);
        ok, left := AddAt(t, AtTime(trades, t), left);
        if !ok {
          return false, left;
        }
      }
      ThroughAll(trades);
      return true, left;
    }

    /** Position at any time: the net quantity booked up to it. */
    method Position(t: int) returns (q: int)
      requires Valid()
      ensures q == Qty(LotsOf(UpToTime(booked, t)))
    {
      RowInForce(market, symbol, State(), booked, t);
      var index := FindIndexBefore(tradePnl, t);
      if index == -1 {
        return 0;
      }
      return tradePnl.at[tradePnl.keys[index]].position;
    }

    /** Net P&L at a time that has been calculated, or that precedes every trade. */
    method NetPnl(t: int) returns (net: real)
      requires Valid()
      ensures t in netPnl.at || booked == [] || t < booked[0].timestamp ==>
        net == MarkToMarket(market, booked, t, SearchSorted(grid, t))
    {
      var index := FindIndexBefore(netPnl, t);
      InForce(netPnl, t);
      if booked == [] || t < booked[0].timestamp {
        MarkBefore(market, booked, t, SearchSorted(grid, t));
      }
      if index == -1 {
        return 0.0;
      }
      return netPnl.at[netPnl.keys[index]].net;
    }
  }

  lemma AddAtFacts(symbol: string, grid: seq<int>, booked: seq<Trade>, group: seq<Trade>, t: int)
    requires Bookable(symbol, grid, booked + group) && |group| > 0
    requires forall k :: 0 <= k < |group| ==> group[k].timestamp == t
    ensures Whole(booked) && Whole(group) && t in grid
    ensures forall k :: 0 <= k < |booked| ==> booked[k].timestamp <= t
  {
    var all := booked + group;
    forall k | 0 <= k < |booked| ensures booked[k].qty != 0 && booked[k].timestamp <= t {
      assert all[k] == booked[k] && all[|booked|] == group[0];
    }
    forall k | 0 <= k < |group| ensures group[k].qty != 0 && t in grid {
      assert all[|booked| + k] == group[k];
    }
    assert group[0].timestamp == t;
  }

  lemma {:induction false} UpToInOrder(trades: seq<Trade>, t: int)
    requires InOrder(trades)
    ensures InOrder(UpToTime(trades, t))
  {
    if |trades| > 0 {
      UpToInOrder(trades[..|trades| - 1], t);
    }
  }

  /** Every prefix of the batch is bookable after what was booked before. */
  lemma BatchBookable(symbol: string, grid: seq<int>, booked: seq<Trade>, trades: seq<Trade>, i: nat)
    requires Bookable(symbol, grid, booked) && Bookable(symbol, grid, trades) && InOrder(booked + trades)
    requires i < |Stamps(trades)|
    ensures Bookable(symbol, grid, booked + Through(trades, i + 1))
  {
    var part := Through(trades, i + 1);
    UpToInOrder(trades, Stamps(trades)[i]);
    forall j, k | 0 <= j < |booked| && 0 <= k < |part| ensures booked[j].timestamp <= part[k].timestamp {
      var h :| 0 <= h < |trades| && trades[h] == part[k];
      assert (booked + trades)[j] == booked[j] && (booked + trades)[|booked| + h] == trades[h];
    }
  }
}
