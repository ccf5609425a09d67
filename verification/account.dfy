/** The account: many contract ledgers, one cache of net P&L, and all-or-nothing booking. */
module Accounts {
  import opened Grid
  import opened Orders
  import opened Flows
  import opened Fifo
  import opened SortedDicts
  import opened Valuation
  import opened ContractLedger
  import opened Options
  import opened Batches
  import opened CalcClock

  /** Every cached total is the from-scratch valuation of the trades at its time. */
  ghost predicate PnlAgrees(m: Market, grid: seq<int>, pnl: SortedDict<real>, trades: seq<Trade>)
    requires Increasing(grid)
  {
    && pnl.Valid()
    && forall t :: t in pnl.at ==> t in grid && pnl.at[t] == MarkToMarket(m, trades, t, SearchSorted(grid, t))
  }

  /** A cached time has every earlier daily calculation time cached as well. */
  ghost predicate ClosedDown(calcTimes: seq<int>, pnl: SortedDict<real>) {
    forall t, c :: t in pnl.at && c in calcTimes && c <= t ==> c in pnl.at
  }

  class Account {
    const market: Market
    const registry: map<string, Contract>
    const groups: set<string>
    const grid: seq<int>
    const calcTimes: seq<int>
    const startingEquity: real
    var symbols: seq<string>
    var pnls: map<string, ContractPnl>
    var trades: seq<Trade>
    var pnl: SortedDict<real>

    constructor (market: Market, registry: map<string, Contract>, groups: set<string>, grid: seq<int>,
                 minute: nat, startingEquity: real)
      requires Increasing(grid) && minute < 1440
      ensures Valid() && trades == [] && this.startingEquity == startingEquity && this.market == market
      ensures this.grid == grid && this.calcTimes == CalcTimes(grid, minute)
    {
      CalcTimesAre(grid, minute);
      this.market, this.registry, this.groups := market, registry, groups;
      this.grid, this.calcTimes, this.startingEquity := grid, CalcTimes(grid, minute), startingEquity;
      symbols, pnls, trades, pnl := [], map[], [], SortedDict([], map[]);
    }

    /** What `add_trades` demands of one execution. */
    predicate Admissible(t: Trade) {
      && t.qty != 0 && t.timestamp in grid
      && t.contract.group in groups
      && t.contract.symbol in registry && registry[t.contract.symbol] == t.contract
    }

    predicate AllAdmissible(batch: seq<Trade>) {
      forall k :: 0 <= k < |batch| ==> Admissible(batch[k])
    }

    /** A contract's ledger is the ledger of the account's executions in it. */
    ghost predicate Linked(s: string, p: ContractPnl, all: seq<Trade>)
      reads p
    {
      && p.symbol == s && p.grid == grid && p.market == market
      && p.Valid() && p.booked == BySymbol(all, s)
    }

    ghost predicate LedgersValid()
      reads this, pnls.Values
    {
      && Increasing(grid) && Increasing(calcTimes) && (forall c :: c in calcTimes ==> c in grid)
      && Distinct(symbols)
      && (forall s :: s in symbols <==> s in pnls)
      && (forall s :: s in pnls ==> Linked(s, pnls[s], trades))
      && AllAdmissible(trades)
      && (forall k :: 0 <= k < |trades| ==> trades[k].contract.symbol in pnls)
    }

    ghost predicate Valid()
      reads this, pnls.Values
    {
      LedgersValid() && PnlAgrees(market, grid, pnl, trades) && ClosedDown(calcTimes, pnl)
    }

    // ---- Valuing ----

    lemma Facts()
      requires LedgersValid()
      ensures Increasing(grid) && Increasing(calcTimes) && (forall c :: c in calcTimes ==> c in grid)
      ensures Distinct(symbols) && forall k :: 0 <= k < |trades| ==> trades[k].contract.symbol in symbols
    {}

    /** One contract valued at `t`. */
    method ValueOne(s: string, t: int, fuse: Fuse) returns (ok: bool, one: real, left: Fuse)
      requires LedgersValid() && t in grid && s in pnls
      modifies pnls[s]
      ensures LedgersValid()
      ensures ok ==> one == MarkToMarket(market, BySymbol(trades, s), t, SearchSorted(grid, t))
      ensures fuse.Never? ==> ok && left.Never?
    {
      hide Agrees, MarkToMarket, BySymbol, AllAdmissible;
      one := 0.0;
      var p := pnls[s];
      assert Linked(s, p, trades);
      ok, left := p.CalcNetPnl(t, fuse);
      if ok {
        one := p.NetPnl(t);
      }
    }

    /** The inner loop of `calc`: every contract valued at `t`, and their sum. */
    method ValueAt(t: int, fuse: Fuse) returns (ok: bool, net: real, left: Fuse)
      requires LedgersValid() && t in grid
      modifies pnls.Values
      ensures LedgersValid()
      ensures ok ==> net == MarkToMarket(market, trades, t, SearchSorted(grid, t))
      ensures fuse.Never? ==> ok && left.Never?
    {
      hide LedgersValid, MarkToMarket, BySymbol, Increasing;
      Facts();
      net, left := 0.0, fuse;
      ghost var i := SearchSorted(grid, t);
      for k := 0 to |symbols|
        invariant LedgersValid()
        invariant net == SumOver(market, symbols[..k], trades, t, i)
        invariant fuse.Never? ==> left.Never?
      {
        assert symbols[k] in pnls by {
          Listed(symbols[k]);
        }
        var one;
        ok, one, left := ValueOne(symbols[k], t, left);
        if !ok {
          return false, 0.0, left;
        }
        net := net + one;
        assert symbols[..k + 1][..k] == symbols[..k];
      }
      assert symbols[..|symbols|] == symbols;
      SumOverIsMark(market, symbols, trades, t, i);
      ok := true;
    }

    lemma Listed(s: string)
      requires LedgersValid()
      ensures s in symbols <==> s in pnls
    {}

    /** One turn of the outer loop of `calc`. */
    method CacheAt(t: int, fuse: Fuse) returns (ok: bool, left: Fuse)
      requires Valid() && t in grid && forall c :: c in calcTimes && c < t ==> c in pnl.at
      modifies this`pnl, pnls.Values
      ensures Valid()
      ensures pnl.at.Keys == old(pnl).at.Keys + if ok then {t} else {}
      ensures fuse.Never? ==> ok && left.Never?
    {
      hide Linked, MarkToMarket, Distinct, AllAdmissible;
      var net;
      ok, net, left := ValueAt(t, fuse);
      if ok {
        pnl := Put(pnl, t, net);
      }
    }

    lemma CacheFacts()
      requires Valid()
      ensures Increasing(grid) && Increasing(calcTimes) && (forall c :: c in calcTimes ==> c in grid)
      ensures pnl.Valid() && ClosedDown(calcTimes, pnl)
    {}

    /** `calc`. A failing price leaves the caches shorter but right. */
    method Calc(t: int, fuse: Fuse) returns (ok: bool, left: Fuse)
      requires Valid()
      modifies this`pnl, pnls.Values
      ensures Valid()
      ensures ok ==> t in pnl.at
      ensures fuse.Never? ==> left.Never? && (ok <==> t in grid)
    {
      hide Valid, MarkToMarket, Increasing, SearchSorted, Due, ClosedDown;
      left := fuse;
      CacheFacts();
      var i := SearchSorted(grid, t);
      if i == |grid| || grid[i] != t {
        return false, left;
      }
      assert grid[i] in grid;
      if t in pnl.at {
        return true, left;
      }
      var index := FindIndexBefore(pnl, t);
      InForce(pnl, t);
      var after := if index == -1 then None else Some(pnl.keys[index]);
      var due := Due(calcTimes, after, t);
      for k := 0 to |due|
        invariant Valid()
        invariant after.Some? ==> after.value in pnl.at
        invariant forall j :: 0 <= j < k ==> due[j] in pnl.at
        invariant fuse.Never? ==> left.Never?
      {
        assert due[k] in due;
        CacheFacts();
        DueIsNext(calcTimes, after, t, k, pnl);
        ok, left := CacheAt(due[k], left);
        if !ok {
          return false, left;
        }
      }
      return true, left;
    }

    /** `equity`: starting equity plus the from-scratch valuation of every execution up to `t`. */
    method Equity(t: int, fuse: Fuse) returns (ok: bool, equity: real, left: Fuse)
      requires Valid()
      modifies this`pnl, pnls.Values
      ensures Valid()
      ensures ok ==> t in grid && equity == startingEquity + MarkToMarket(market, trades, t, SearchSorted(grid, t))
      ensures fuse.Never? ==> left.Never? && (ok <==> t in grid)
    {
      ok, left := true, fuse;
      if t !in pnl.at {
        ok, left := Calc(t, left);
        if !ok {
          return false, 0.0, left;
        }
      }
      equity := startingEquity + pnl.at[t];
    }

    // ---- Booking a batch ----

    /** Everything observable is as before the call. */
    twostate predicate Untouched()
      reads this, pnls.Values
    {
      && symbols == old(symbols) && pnls == old(pnls) && trades == old(trades) && pnl == old(pnl)
      && forall s :: s in pnls ==>
           pnls[s].State() == old(pnls[s].State()) && pnls[s].booked == old(pnls[s].booked)
    }

    method ValidateTrades(batch: seq<Trade>) returns (ok: bool)
      ensures ok <==> AllAdmissible(batch)
    {
      for k := 0 to |batch|
        invariant forall j :: 0 <= j < k ==> Admissible(batch[j])
      {
        if !Admissible(batch[k]) {
          return false;
        }
      }
      return true;
    }

    /** Chronology of every contract of the batch that the account already knows. */
    method CheckChronology(sorted: seq<Trade>, names: seq<string>) returns (ok: bool)
      requires LedgersValid() && InOrder(sorted) && names == NamesOf(sorted)
      ensures ok <==> Chronological(trades, sorted)
    {
      hide Agrees, InOrder, NamesOf, BySymbol, AllAdmissible;
      for k := 0 to |names|
        invariant forall j :: 0 <= j < k ==> InOrder(BySymbol(trades + sorted, names[j]))
      {
        var s := names[k];
        SelectAppend(trades, sorted, s, 0);
        BySymbolInOrder(sorted, s);
        if s in pnls {
          assert Linked(s, pnls[s], trades);
          var fine := pnls[s].ValidateChronology(BySymbol(sorted, s));
          if !fine {
            return false;
          }
        } else {
          UnknownHasNone(s);
          assert [] + BySymbol(sorted, s) == BySymbol(sorted, s);
        }
      }
      OthersStayInOrder(sorted, names);
      return true;
    }

    lemma UnknownHasNone(s: string)
      requires LedgersValid() && s !in pnls
      ensures BySymbol(trades, s) == []
    {
      NoneOf(trades, s);
    }

    lemma OthersStayInOrder(sorted: seq<Trade>, names: seq<string>)
      requires LedgersValid() && names == NamesOf(sorted)
      requires forall j :: 0 <= j < |names| ==> InOrder(BySymbol(trades + sorted, names[j]))
      ensures Chronological(trades, sorted)
    {
      hide Agrees, NamesOf, BySymbol, AllAdmissible;
      NamesFacts(sorted);
      forall s ensures InOrder(BySymbol(trades + sorted, s)) {
        if s !in names {
          SelectAppend(trades, sorted, s, 0);
          NoneOf(sorted, s);
          assert BySymbol(trades, s) + [] == BySymbol(trades, s);
          if s in pnls {
            LinkedInOrder(s, pnls[s], trades);
          } else {
            UnknownHasNone(s);
          }
        }
      }
    }

    /** Trades of one moment, at or after everything booked, keep every contract in time order. */
    lemma LaterIsChronological(batch: seq<Trade>, now: int)
      requires LedgersValid() && forall k :: 0 <= k < |batch| ==> batch[k].timestamp == now
      requires forall k :: 0 <= k < |trades| ==> trades[k].timestamp <= now
      ensures Chronological(trades, batch)
    {
      hide Agrees, BySymbol, AllAdmissible;
      forall s ensures InOrder(BySymbol(trades + batch, s)) {
        SelectAppend(trades, batch, s, 0);
        var a, b := BySymbol(trades, s), BySymbol(batch, s);
        if s in pnls {
          LinkedInOrder(s, pnls[s], trades);
        } else {
          UnknownHasNone(s);
        }
        forall k | 0 <= k < |a| ensures a[k].timestamp <= now {
          assert a[k] in a;
        }
        forall k | 0 <= k < |b| ensures b[k].timestamp == now {
          assert b[k] in b;
        }
      }
    }

    lemma LinkedInOrder(s: string, p: ContractPnl, all: seq<Trade>)
      requires Linked(s, p, all)
      ensures InOrder(BySymbol(all, s))
    {}

    /** `_add_contract`: an empty ledger for a new symbol. */
    method AddContract(s: string)
      requires LedgersValid() && s !in pnls
      modifies this`symbols, this`pnls
      ensures LedgersValid()
      ensures s in pnls && fresh(pnls[s]) && pnls == old(pnls)[s := pnls[s]]
    {
      hide Agrees, BySymbol, AllAdmissible;
      UnknownHasNone(s);
      var p := new ContractPnl(market, s, grid);
      pnls, symbols := pnls[s := p], symbols + [s];
    }

    /** The same for every symbol of the batch seen for the first time. */
    method AddContracts(sorted: seq<Trade>)
      requires LedgersValid()
      modifies this`symbols, this`pnls
      ensures LedgersValid()
      ensures forall s :: s in old(pnls) ==> s in pnls && pnls[s] == old(pnls)[s]
      ensures forall s :: s in pnls && s !in old(pnls) ==> fresh(pnls[s])
      ensures forall k :: 0 <= k < |sorted| ==> sorted[k].contract.symbol in pnls
    {
      hide LedgersValid;
      for k := 0 to |sorted|
        invariant LedgersValid()
        invariant forall s :: s in old(pnls) ==> s in pnls && pnls[s] == old(pnls)[s]
        invariant forall s :: s in pnls && s !in old(pnls) ==> fresh(pnls[s])
        invariant forall j :: 0 <= j < k ==> sorted[j].contract.symbol in pnls
      {
        var s := sorted[k].contract.symbol;
        if s !in pnls {
          AddContract(s);
        }
      }
    }

    /** One contract's share of the batch. */
    method BookOne(s: string, sorted: seq<Trade>, fuse: Fuse) returns (ok: bool, left: Fuse)
      requires s in pnls && Linked(s, pnls[s], trades) && AllAdmissible(sorted) && InOrder(sorted)
      modifies pnls[s]
      ensures ok ==> Linked(s, pnls[s], trades + sorted)
      ensures fuse.Never? ==> left.Never? && (ok <==> InOrder(BySymbol(trades + sorted, s)))
    {
      hide Agrees, InOrder, BySymbol;
      SelectAppend(trades, sorted, s, 0);
      ShareIsBookable(s, sorted);
      ok, left := pnls[s].AddTrades(BySymbol(sorted, s), fuse);
    }

    lemma ShareIsBookable(s: string, sorted: seq<Trade>)
      requires AllAdmissible(sorted) && InOrder(sorted)
      ensures Bookable(s, grid, BySymbol(sorted, s))
    {
      BySymbolInOrder(sorted, s);
    }

    /** Every contract's share, in turn. */
    method BookAll(sorted: seq<Trade>, names: seq<string>, fuse: Fuse) returns (ok: bool, left: Fuse)
      requires LedgersValid() && AllAdmissible(sorted) && InOrder(sorted)
      requires Chronological(trades, sorted) && Distinct(names) && forall k :: 0 <= k < |names| ==> names[k] in pnls
      modifies set k | 0 <= k < |names| :: pnls[names[k]]
      ensures ok ==> forall k :: 0 <= k < |names| ==> Linked(names[k], pnls[names[k]], trades + sorted)
      ensures fuse.Never? ==> ok && left.Never?
    {
      hide Agrees, BySymbol, InOrder, AllAdmissible;
      left := fuse;
      for k := 0 to |names|
        invariant forall j :: 0 <= j < k ==> Linked(names[j], pnls[names[j]], trades + sorted)
        invariant forall j :: k <= j < |names| ==> Linked(names[j], pnls[names[j]], trades)
        invariant fuse.Never? ==> left.Never?
      {
        ok, left := BookOne(names[k], sorted, left);
        if !ok {
          return false, left;
        }
      }
      return true, left;
    }

    /** Record the booked batch and forget the totals it makes stale. */
    method Record(sorted: seq<Trade>)
      requires Increasing(grid) && PnlAgrees(market, grid, pnl, trades) && ClosedDown(calcTimes, pnl) && InOrder(sorted)
      modifies this`trades, this`pnl
      ensures trades == old(trades) + sorted
      ensures PnlAgrees(market, grid, pnl, trades) && ClosedDown(calcTimes, pnl)
    {
      hide MarkToMarket;
      ghost var before := trades;
      trades := trades + sorted;
      if |sorted| > 0 {
        var first := sorted[0].timestamp;
        pnl := DeleteFrom(pnl, first);
        forall t | t in pnl.at
          ensures MarkToMarket(market, trades, t, SearchSorted(grid, t))
            == MarkToMarket(market, before, t, SearchSorted(grid, t))
        {
          MarkAppend(market, before, sorted, t, SearchSorted(grid, t));
          MarkBefore(market, sorted, t, SearchSorted(grid, t));
        }
      } else {
        assert before + sorted == before;
      }
    }

    /** After the batch is booked and recorded, every ledger is linked to the longer list. */
    lemma AllLinked(was: seq<Trade>, sorted: seq<Trade>, names: seq<string>)
      requires names == NamesOf(sorted)
      requires forall s :: s in pnls ==> Linked(s, pnls[s], if s in names then was + sorted else was)
      ensures forall s :: s in pnls ==> Linked(s, pnls[s], was + sorted)
    {
      hide Agrees, BySymbol, NamesOf;
      NamesFacts(sorted);
      forall s | s in pnls && s !in names ensures Linked(s, pnls[s], was + sorted) {
        SelectAppend(was, sorted, s, 0);
        NoneOf(sorted, s);
        assert BySymbol(was, s) + [] == BySymbol(was, s);
      }
    }

    /** `_restore_trade_state`, for the contracts of the batch that existed before it. */
    method Restore(names: seq<string>, states: map<string, ContractState>, symbols: seq<string>,
                   pnls: map<string, ContractPnl>, trades: seq<Trade>, pnl: SortedDict<real>,
                   ghost books: map<string, seq<Trade>>)
      requires states.Keys == books.Keys
      requires forall s :: s in states ==> s in names && s in pnls && pnls[s].symbol == s
      modifies this, set s | s in states :: pnls[s]
      ensures this.symbols == symbols && this.pnls == pnls && this.trades == trades && this.pnl == pnl
      ensures forall s :: s in states ==> pnls[s].State() == states[s] && pnls[s].booked == books[s]
    {
      for k := 0 to |names|
        invariant forall s :: s in states && s in names[..k] ==>
          pnls[s].State() == states[s] && pnls[s].booked == books[s]
      {
        assert names[..k + 1] == names[..k] + [names[k]];
        if names[k] in states {
          pnls[names[k]].Restore(states[names[k]], books[names[k]]);
        }
      }
      assert names[..|names|] == names;
      this.symbols, this.pnls, this.trades, this.pnl := symbols, pnls, trades, pnl;
    }

    /** Consistent but for the batch: its contracts' ledgers hold it already, the trade list not yet. */
    ghost predicate Half(sorted: seq<Trade>, names: seq<string>)
      reads this, pnls.Values
    {
      && Increasing(grid) && Increasing(calcTimes) && (forall c :: c in calcTimes ==> c in grid)
      && Distinct(symbols)
      && (forall s :: s in symbols <==> s in pnls)
      && (forall s :: s in pnls ==> Linked(s, pnls[s], if s in names then trades + sorted else trades))
      && AllAdmissible(trades + sorted)
      && (forall k :: 0 <= k < |trades + sorted| ==> (trades + sorted)[k].contract.symbol in pnls)
      && PnlAgrees(market, grid, pnl, trades) && ClosedDown(calcTimes, pnl)
    }

    /** Recording the batch completes it. */
    method Complete(sorted: seq<Trade>, names: seq<string>)
      requires Half(sorted, names) && InOrder(sorted) && names == NamesOf(sorted)
      modifies this`trades, this`pnl
      ensures Valid() && trades == old(trades) + sorted
    {
      hide Agrees, BySymbol, MarkToMarket, NamesOf, PnlAgrees, ClosedDown, InOrder, Distinct, AllAdmissible;
      ghost var was := trades;
      Record(sorted);
      AllLinked(was, sorted, names);
    }

    /** Everything `add_trades` does between its snapshot and its return. */
    method Commit(sorted: seq<Trade>, names: seq<string>, fuse: Fuse) returns (ok: bool, left: Fuse)
      requires Valid() && AllAdmissible(sorted) && InOrder(sorted) && Chronological(trades, sorted)
      requires names == NamesOf(sorted)
      modifies this, set s | s in names && s in pnls :: pnls[s]
      ensures ok ==> Valid() && trades == old(trades) + sorted
      ensures ok ==> forall s :: s in pnls && s !in old(pnls) ==> fresh(pnls[s])
      ensures ok ==> forall s :: s in old(pnls) ==> s in pnls && pnls[s] == old(pnls)[s]
      ensures fuse.Never? ==> ok && left.Never?
    {
      hide Agrees, BySymbol, MarkToMarket, NamesOf, PnlAgrees, ClosedDown;
      NamesFacts(sorted);
      AddContracts(sorted);
      forall k | 0 <= k < |names| ensures names[k] in pnls {
        assert HasSymbol(sorted, names[k]);
      }
      label Booking:
      ok, left := BookAll(sorted, names, fuse);
      if !ok {
        return false, left;
      }
      forall s | s in pnls ensures Linked(s, pnls[s], if s in names then trades + sorted else trades) {
        if s !in names {
          assert unchanged@Booking(pnls[s]);
        }
      }
      Complete(sorted, names);
    }

    /** Snapshot, commit, and roll back on any failure. */
    method Attempt(sorted: seq<Trade>, fuse: Fuse) returns (ok: bool, left: Fuse)
      requires Valid() && AllAdmissible(sorted) && InOrder(sorted) && Chronological(trades, sorted)
      modifies this, pnls.Values
      ensures Valid()
      ensures ok ==> trades == old(trades) + sorted
      ensures !ok ==> Untouched()
      ensures forall s :: s in pnls && s !in old(pnls) ==> fresh(pnls[s])
      ensures forall s :: s in old(pnls) ==> s in pnls && pnls[s] == old(pnls)[s]
      ensures fuse.Never? ==> ok && left.Never?
    {
      hide Valid, LedgersValid, Linked, PnlAgrees, ClosedDown;
      hide NamesOf, HasSymbol, InOrder, Chronological, AllAdmissible;
      SymbolsMatch();
      var names := NamesOf(sorted);
      NamesFacts(sorted);
      var states := map s | s in names && s in pnls :: pnls[s].State();
      ghost var books := map s | s in names && s in pnls :: pnls[s].booked;
      var symbols0, pnls0, trades0, pnl0 := symbols, pnls, trades, pnl;
      ok, left := Commit(sorted, names, fuse);
      if !ok {
        Restore(names, states, symbols0, pnls0, trades0, pnl0, books);
        forall s | s in pnls0
          ensures pnls0[s].State() == old(pnls[s].State()) && pnls0[s].booked == old(pnls[s].booked)
        {
          if s !in names {
            assert unchanged(pnls0[s]);
          }
        }
        UntouchedIsValid();
      }
    }

    lemma SymbolsMatch()
      requires Valid()
      ensures forall s :: s in pnls ==> pnls[s].symbol == s
    {
      forall s | s in pnls ensures pnls[s].symbol == s {
        assert Linked(s, pnls[s], trades);
      }
    }

    /** `add_trades`: all of the batch is booked, or nothing observable changes. */
    method AddTrades(batch: seq<Trade>, fuse: Fuse) returns (ok: bool, left: Fuse)
      requires Valid()
      modifies this, pnls.Values
      ensures Valid()
      ensures ok ==> trades == old(trades) + SortByTime(batch)
      ensures !ok ==> Untouched()
      ensures forall s :: s in pnls && s !in old(pnls) ==> fresh(pnls[s])
      ensures forall s :: s in old(pnls) ==> s in pnls && pnls[s] == old(pnls)[s]
      ensures !(AllAdmissible(batch) && Chronological(old(trades), SortByTime(batch))) ==> !ok
      ensures fuse.Never? ==>
        left.Never? && (ok <==> AllAdmissible(batch) && Chronological(old(trades), SortByTime(batch)))
    {
      hide LedgersValid, NamesOf, PnlAgrees, ClosedDown, SortByTime, InOrder, Chronological, AllAdmissible;
      left := fuse;
      ok := ValidateTrades(batch);
      if !ok {
        return false, left;
      }
      var sorted := SortByTime(batch);
      SortSorts(batch, 0);
      SortedAdmissible(batch);
      ok := CheckChronology(sorted, NamesOf(sorted));
      if !ok {
        return false, left;
      }
      ok, left := Attempt(sorted, left);
    }

    lemma SortedAdmissible(batch: seq<Trade>)
      requires AllAdmissible(batch)
      ensures AllAdmissible(SortByTime(batch))
    {
      SortSorts(batch, 0);
      var sorted := SortByTime(batch);
      forall k | 0 <= k < |sorted| ensures Admissible(sorted[k]) {
        assert sorted[k] in multiset(sorted);
        assert sorted[k] in multiset(batch);
      }
    }

    twostate lemma UntouchedIsValid()
      requires old(Valid()) && Untouched()
      ensures Valid()
    {
      forall s | s in pnls ensures Linked(s, pnls[s], trades) {
        assert old(Linked(s, pnls[s], trades));
      }
    }

    // ---- Positions ----

    method SymbolPosition(s: string, t: int) returns (q: int)
      requires LedgersValid()
      ensures q == Flow(trades, InSymbol(s), Signed, UpTo(t))
    {
      hide Agrees, BySymbol, AllAdmissible;
      PositionIsFlow(trades, s, t);
      if s in pnls {
        assert Linked(s, pnls[s], trades);
        q := pnls[s].Position(t);
      } else {
        UnknownHasNone(s);
        NoTrades(s, t);
        q := 0;
      }
    }

    /** `position`: net quantity of a configured group, as the engine reads it. */
    method Position(group: string, t: int) returns (q: Option<int>)
      requires LedgersValid()
      ensures q == if group in groups then Some(Flow(trades, InGroup(group), Signed, UpTo(t))) else None
    {
      hide Linked, Flow;
      if group !in groups {
        return None;
      }
      var total := 0;
      for k := 0 to |symbols|
        invariant total == GroupFlow(registry, symbols[..k], trades, group, t)
      {
        assert symbols[..k + 1][..k] == symbols[..k];
        if symbols[k] in registry && registry[symbols[k]].group == group {
          var one := SymbolPosition(symbols[k], t);
          total := total + one;
        }
      }
      assert symbols[..|symbols|] == symbols;
      GroupFlowIsFlow(registry, symbols, trades, group, t);
      return Some(total);
    }

    /** `positions`: exactly the nonzero positions among a group's contracts. */
    method Positions(listed: seq<string>, t: int) returns (r: seq<(string, int)>)
      requires LedgersValid()
      ensures forall p :: p in r <==> p.0 in listed && p.1 == Flow(trades, InSymbol(p.0), Signed, UpTo(t)) && p.1 != 0
    {
      hide LedgersValid, Flow;
      r := [];
      for k := 0 to |listed|
        invariant forall p :: p in r <==>
          p.0 in listed[..k] && p.1 == Flow(trades, InSymbol(p.0), Signed, UpTo(t)) && p.1 != 0
      {
        assert listed[..k + 1] == listed[..k] + [listed[k]];
        var q := SymbolPosition(listed[k], t);
        if q != 0 {
          r := r + [(listed[k], q)];
        }
      }
      assert listed[..|listed|] == listed;
    }
  }

  /** Positions of a group's known contracts, added up. */
  function GroupFlow(
    registry: map<string, Contract>, symbols: seq<string>, trades: seq<Trade>, group: string, t: int): int
  {
    if |symbols| == 0 then 0
    else
      var s := symbols[|symbols| - 1];
      GroupFlow(registry, symbols[..|symbols| - 1], trades, group, t)
      + if s in registry && registry[s].group == group then Flow(trades, InSymbol(s), Signed, UpTo(t)) else 0
  }

  lemma FlowSnoc(trades: seq<Trade>, x: Trade, s: Scope, t: int)
    ensures Flow([], s, Signed, UpTo(t)) == 0
    ensures Flow(trades + [x], s, Signed, UpTo(t))
         == Flow(trades, s, Signed, UpTo(t)) + if s.Has(x.contract) && x.timestamp <= t then x.qty else 0
  {
    assert (trades + [x])[..|trades|] == trades;
  }

  lemma {:induction false} GroupFlowAdds(
    registry: map<string, Contract>, symbols: seq<string>, trades: seq<Trade>, x: Trade, group: string, t: int)
    requires Distinct(symbols)
    ensures var s := x.contract.symbol;
            GroupFlow(registry, symbols, trades + [x], group, t) == GroupFlow(registry, symbols, trades, group, t)
            + if s in symbols && s in registry && registry[s].group == group && x.timestamp <= t then x.qty else 0
  {
    hide Flow;
    if |symbols| > 0 {
      var rest := symbols[..|symbols| - 1];
      assert symbols == rest + [symbols[|symbols| - 1]];
      GroupFlowAdds(registry, rest, trades, x, group, t);
      FlowSnoc(trades, x, InSymbol(symbols[|symbols| - 1]), t);
    }
  }

  lemma {:induction false} GroupFlowNothing(
    registry: map<string, Contract>, symbols: seq<string>, group: string, t: int)
    ensures GroupFlow(registry, symbols, [], group, t) == 0
  {
    if |symbols| > 0 {
      GroupFlowNothing(registry, symbols[..|symbols| - 1], group, t);
    }
  }

  lemma {:induction false} GroupFlowIsFlow(
    registry: map<string, Contract>, symbols: seq<string>, trades: seq<Trade>, group: string, t: int)
    requires Distinct(symbols)
    requires forall k :: 0 <= k < |trades| ==>
      var c := trades[k].contract; c.symbol in symbols && c.symbol in registry && registry[c.symbol] == c
    ensures GroupFlow(registry, symbols, trades, group, t) == Flow(trades, InGroup(group), Signed, UpTo(t))
  {
    hide Flow;
    if |trades| == 0 {
      GroupFlowNothing(registry, symbols, group, t);
      FlowNothing(group, t);
    } else {
      var rest, x := trades[..|trades| - 1], trades[|trades| - 1];
      assert trades == rest + [x];
      GroupFlowIsFlow(registry, symbols, rest, group, t);
      GroupFlowAdds(registry, symbols, rest, x, group, t);
      FlowSnoc(rest, x, InGroup(group), t);
    }
  }

  lemma FlowNothing(group: string, t: int)
    ensures Flow([], InGroup(group), Signed, UpTo(t)) == 0
  {}

  /** Each contract's executions stay in time order; different contracts need not wait for each other. */
  ghost predicate Chronological(trades: seq<Trade>, sorted: seq<Trade>) {
    forall s: string :: InOrder(BySymbol(trades + sorted, s))
  }

  /** When a time is due, every earlier daily calculation time is cached already. */
  lemma DueIsNext(calcTimes: seq<int>, after: Option<int>, t: int, k: nat, pnl: SortedDict<real>)
    requires Increasing(calcTimes) && (after.Some? ==> after.value < t && after.value in pnl.at)
    requires k < |Due(calcTimes, after, t)|
    requires forall j :: 0 <= j < k ==> Due(calcTimes, after, t)[j] in pnl.at
    requires ClosedDown(calcTimes, pnl)
    ensures forall c :: c in calcTimes && c < Due(calcTimes, after, t)[k] ==> c in pnl.at
  {
    var due := Due(calcTimes, after, t);
    assert due[k] in due;
    forall c | c in calcTimes && c < due[k] ensures c in pnl.at {
      if !(after.Some? && c <= after.value) {
        assert c in due;
        var j :| 0 <= j < |due| && due[j] == c;
        assert j < k;
      }
    }
  }
}
