# Gambit verification

A Dafny model of the parts of Gambit that keep state over long runs, with proofs of what they promise.
`dafny verify dfyconfig.toml` checks all of it.

Code that changes objects step by step is modelled as classes and loops (the strategy and its orders, the
account and its contract ledgers, the eviction loop, the DAG executor, the HDF5 writer, the depth-first
search); code made of expressions is modelled as functions. Where a property ranges over runs or
interleavings, the stateful code is proved equal to a specification function on values, and the property is
proved of that function by induction over steps.

## What is modelled

**Order engine** (`orders`, `flows`, `callback_contracts`, `risk`, `engine`, `engine_steps`, `engine_safety`,
`engine_exactness`, `engine_theorems`, `fill_or_kill`, `filled_orders`, `booking`, `strategy`). Rules, simulators
and user policies are arbitrary: a simulator writes anything to the pending orders, may raise, and returns any
trades; a rule likewise; a user policy may accept, reject or raise. A run is any forward sequence of iterations
from a fresh strategy over an account that may already hold trades, resumed after failures as the caller likes.
The strategy object runs over the ledger's own `Account`: what `add_trades` answers is what the specification is
told, and it refuses a validated batch only when pricing raises.
Main results: the position cap, the trade budget, conservation of quantity with exactly-once booking, timing,
and that nothing fails except for a callback's own fault.

**Ledger** (`fifo`, `sorted_dict`, `valuation`, `contract_pnl`, `batches`, `calc_times`, `account`). The FIFO
kernel is shown equal to matching single units first in, first out; both layers of P&L caches are proved equal
to a from-scratch valuation after any interleaving of adding trades, computing and asking for equity, with
faults of the price callback at any call; `add_trades` is atomic.

**Factor store** (`store_protocol`, `store_safety`, `store_cleanup`, `store_theorems`, `store_effects`,
`eviction`, `factor_dag`). Processes share one directory tree; one step is one atomic filesystem operation;
publish, open, lease close, collect, evict and migrate are split at each of them; a process may raise or die
between any two, and locks go with it. The invariant holds in every reachable state. The DAG executor runs on
a cache that other processes change, coherently, at any moment.

**Validation and arithmetic**: the bounded Arrow IPC preflight (`ipc_metadata`, `ipc_validation`; Apache Arrow
Columnar Format, "IPC File Format", "Encapsulated message format", "Variable-size Binary Layout",
"Variable-size Binary View Layout"), business-day arithmetic (`calendars`), the HDF5 commit protocol
(`hdf5_commit`), stage ordering (`stages`), exposure clipping (`exposure_limits`), adverse correlation stress
and the risk overlay (`covariance`), and the portfolio's merged schedule (`portfolio`).

## Findings

- The position cap holds throughout every run if and only if it holds at the start
  (`EngineTheorems.CapHoldsExactlyFromInside`); from a start outside, positions stay within the range spanned by the
  cap and the start (`EngineTheorems.PositionStaysCapped`), as the policy's own documentation allows
  ("permitting breach reduction", src/gambit/risk.py:181-187).
- A quota that is not triggered still runs the ordinary byte limit of 2^63 - 1, so it evicts nothing if and only if
  stored bytes are within that or every node is protected (`Eviction.UntriggeredQuotaEvictsNothing`; the failing
  input is `Eviction.OversizedQuotaEvicts`; src/gambit/factor_store.py:1064-1087 and 1163-1170).
- A fill-or-kill order (src/gambit/pq_types.py:386-389) may be filled in part at its one index, because the market
  pass checks its age and never its completeness (src/gambit/strategy.py:1049-1079): such an order is all-or-nothing
  in every run if and only if it is for one unit (`FillOrKill.OnlySingleUnitsAreAllOrNothing`; the partial run for
  every larger quantity is `FillOrKill.PartialRun`). What the code does guarantee is that it never trades at another
  index (`EngineTheorems.TradesAreTimely`).
- A rule may hand in an order already marked filled: the validator checks only that its status is one
  (src/gambit/callback_contracts.py:58-96). Such an order is recorded as filled without a trade
  (`FilledOrders.MarkedRun`); filled orders have traded their whole quantity in every run whose rules hand in none
  (`FilledOrders.FilledMeansTraded`), and a completed rule step from such a state keeps this if and only if none of
  the orders it proposed came so (`FilledOrders.RuleFillsExactly`).
- When the DAG executor reuses a value it opens the lease before it clears the node's rejection hint and lists the
  lease afterwards (src/gambit/factor_dag.py:217-267), so an exception in between leaves that one lease to its
  finalizer; nothing else is ever left open (`FactorDag.Executor.RunNode`, `FactorDag.Executor.Execute`; the input is
  `FactorDag.ClearingFaultLeavesLease`).

## Model

| member | source | states |
|---|---|---|
| Orders.FillConserves | src/gambit/pq_types.py:473-487 | A fill succeeds exactly when the order is open or partly filled and the fill is nonzero, on its side and no larger than it; then remainder plus fill is the old quantity, and the order stays open exactly while something remains |
| Orders.Order.Fill | src/gambit/pq_types.py:473-487 | The object filled in place moves to the state of the fill, or raises and is untouched |
| Orders.Order.Cancel | src/gambit/pq_types.py:489-492 | In place: cancelled unless already filled or cancelled; nothing else changes |
| Orders.Order.RequestCancel | src/gambit/pq_types.py:468-471 | In place: cancellation requested only from an open or partly filled order; nothing else changes |
| Orders.Order.Assign | src/gambit/order_callback_state.py:51-56 | Restoring writes every captured field back |
| CallbackContracts.ValidateMarketTrades | src/gambit/callback_contracts.py:100-146 | Accepts exactly the batches whose trades are admissible against the captured quantities and whose orders reconcile with them, and returns each order's net fill |
| CallbackContracts.AcceptedFillsFit | src/gambit/callback_contracts.py:111-146 | In an accepted batch an order's net fill lies within its captured remainder, all fills are on its side, and orders outside the view have none |
| CallbackContracts.FillsStayWithin | src/gambit/callback_contracts.py:128-130 | The same holds after every prefix of the batch |
| CallbackContracts.ValidateRuleOrders | src/gambit/callback_contracts.py:41-97 | A rule's result becomes the expanded list of all its submissions, or is refused as a whole |
| CallbackContracts.ExpandedAreFresh | src/gambit/callback_contracts.py:67-96 | Every order taken from a rule, roll legs included, is nonzero, in the rule's group, registered and submitted now; its status is whatever the rule left it at |
| Risk.PositionBounds | src/gambit/risk.py:40-54 | The loop returns the least and greatest reachable position, defined as current position plus what pending orders and the proposal can add on each side |
| Risk.FillsStayInside | src/gambit/risk.py:40-54 | No partial filling of the pending orders leaves the bounds |
| Risk.FillsReach | src/gambit/risk.py:40-54 | Every total within the bounds is reached by some partial filling (constructed) |
| Risk.BoundsAreExact | src/gambit/risk.py:40-54 | A position lies within the bounds if and only if some partial filling of everything open, the proposal included, produces it |
| Risk.DecideOrder | src/gambit/risk.py:262-299 | The decision loop: whole-unit checks, then policies in order until one objects |
| Risk.AcceptedByAll | src/gambit/risk.py:269-291 | Acceptance means every registered policy accepted |
| EngineExactness.FirstObjectionDecides | src/gambit/risk.py:269-299 | Accepted if and only if all accept; rejected or failed by the first policy that does not, every earlier one having accepted |
| EngineExactness.CapRefusesOnlyReachableBreaches | src/gambit/risk.py:195-204 | The position policy accepts if and only if no partial filling takes the position past the cap on the order's own side |
| EngineExactness.EligibleIsExact | src/gambit/strategy.py:1049-1069 | After expiry the eligible orders are exactly the pending ones that are open, not being cancelled, past their lag, fill-or-kill exactly at it, DAY on their own date; orders left open are left untouched |
| EngineExactness.BothReportingStylesAgree | src/gambit/strategy.py:1106-1109 | A reported fill has the same effect whether the simulator applied it or left it to the engine |
| EngineExactness.SimulatorFailsOnlyForCause | src/gambit/strategy.py:1073-1128 | One simulator call fails if and only if it raises, breaks its contract or the account refuses its trades; the engine's own fills never fail |
| EngineExactness.SimulatorsFailOnlyForCause | src/gambit/strategy.py:1071-1128 | The same for a list of simulators, each judged in the state its predecessors leave |
| EngineExactness.MarketPassFailsOnlyForCause | src/gambit/strategy.py:1045-1130 | From any reachable state a market pass completes if and only if every simulator keeps its contract |
| StrategyObject.Strategy.UpdateCurrentOrders | src/gambit/strategy.py:824-831 | In place: the pending list becomes its open members in order |
| StrategyObject.Strategy.ExpireOrder | src/gambit/strategy.py:1056-1069 | One order: requested cancellations, DAY and fill-or-kill expiry, then its eligibility |
| StrategyObject.Strategy.ExpireAt | src/gambit/strategy.py:1050-1069 | One pending order, with the chronology assertion; no other object changes |
| StrategyObject.Strategy.ExpireCurrent | src/gambit/strategy.py:1049-1069 | The expiry loop over live order objects equals the specified expiry and returns exactly the eligible identities |
| StrategyObject.Strategy.Restore | src/gambit/order_callback_state.py:51-56 | After a failed callback every pending order has its captured fields again, and the abstract state is the captured one |
| StrategyObject.Strategy.CheckSimGuards | src/gambit/strategy.py:1090-1094 | Accepts exactly when eligible orders kept their identity and waiting orders kept everything |
| StrategyObject.Strategy.CheckRuleGuards | src/gambit/strategy.py:1024-1025 | Accepts exactly when a rule did no more to pending orders than move them towards cancellation |
| StrategyObject.Strategy.EligibleView | src/gambit/strategy.py:1077-1079 | The view given to a simulator is the pending orders, in order, that are still eligible |
| StrategyObject.Strategy.ApplyFill | src/gambit/strategy.py:1108-1109 | The engine fills one order in place exactly when the simulator left it unchanged and reported something |
| StrategyObject.Strategy.ApplyFills | src/gambit/strategy.py:1101-1109 | Settling the whole view in place equals the specified settlement |
| StrategyObject.Strategy.TakenIsBookable | src/gambit/account.py:205-227 | A batch of now in registered contracts, with nothing booked later, passes both checks the account makes |
| StrategyObject.Strategy.Handed | src/gambit/strategy.py:1090-1118 | A batch that passes the engine's validation is of now; in an up-to-date state it is such a batch |
| StrategyObject.Strategy.Book | src/gambit/strategy.py:1117-1118 | The account books the whole batch or nothing; while prices come back it refuses no such batch |
| StrategyObject.Strategy.Settle | src/gambit/strategy.py:1090-1109 | Guards, validation and settlement in order accept exactly what the specified judgement accepts and leave the orders it settles |
| StrategyObject.Strategy.JudgeCall | src/gambit/strategy.py:1090-1118 | Guards, validation, settlement and booking by `Accounts.Account.AddTrades` in order: the account's trades grow by the whole batch or not at all, exactly as the specified judgement says, and in an up-to-date state it refuses only when pricing raises |
| StrategyObject.Strategy.Simulate | src/gambit/strategy.py:1074-1128 | View, call, judgement and rollback: the orders and the account move exactly as the specified judgement says, or not at all |
| StrategyObject.Strategy.CallSimulator | src/gambit/strategy.py:1071-1128 | One simulator call on live objects and a live account, rollback included, equals the specified step |
| StrategyObject.Strategy.RunSims | src/gambit/strategy.py:1071-1128 | The loop over simulators equals the specified one, stopping at the first failure |
| StrategyObject.Strategy.SimMarket | src/gambit/strategy.py:1045-1130 | The market pass on live objects equals the specified one, whether it completes or raises |
| StrategyObject.Strategy.GetOrders | src/gambit/strategy.py:990-1043 | Position filter, rule call, guards, validation and rollback equal the specified proposal |
| StrategyObject.Strategy.DecideBatch | src/gambit/strategy.py:798-811 | Orders are decided one by one, each seeing those accepted before it; rejected ones are cancelled |
| StrategyObject.Strategy.Enlist | src/gambit/strategy.py:813-814 | Every decided order is recorded and the accepted ones become pending, as specified, with identities and order kept |
| StrategyObject.Strategy.Admit | src/gambit/strategy.py:798-814 | All or nothing: a policy that raises leaves the engine as it was; otherwise every decided order is recorded and the accepted ones become pending |
| StrategyObject.Strategy.RunRule | src/gambit/strategy.py:789-822 | One rule on live objects equals the specified step |
| StrategyObject.Strategy.RunRules | src/gambit/strategy.py:789-822 | The loop over rules equals the specified one, stopping at the first failure |
| StrategyObject.Strategy.RunIteration | src/gambit/strategy.py:780-822 | One iteration on live objects and a live account equals the specified step, for the same callbacks; from an up-to-date state the account refuses no batch of it unless pricing raises |
| Booking.BookingDecides | src/gambit/strategy.py:1117-1118 | The account's answer matters only when there is something to book, and then a refusal fails the call |
| Booking.SoundIsUpToDate | src/gambit/strategy.py:768-831 | Every state a forward run reaches is up to date: registered contracts, nothing booked after now |
| Booking.SimStepUpToDate | src/gambit/strategy.py:1071-1128 | A simulator call, failed or not, leaves an up-to-date state up to date |
| Booking.RuleStepUpToDate | src/gambit/strategy.py:789-822 | So does a rule with its decisions and the pass after it |
| Booking.AcceptedIsRegistered | src/gambit/callback_contracts.py:113-124 | An accepted batch names registered contracts, whatever the simulator wrote to the orders |
| EngineSteps.ExpiryAdvances | src/gambit/strategy.py:1049-1069 | The expiry loop is an admissible step: it completes, books nothing, and leaves only tradable orders eligible |
| EngineSteps.ExpirySettles | src/gambit/strategy.py:1056-1069 | An order still eligible after expiry is never overdue |
| EngineSteps.SettledPointwise | src/gambit/strategy.py:1106-1109 | Settlement touches each viewed order once and nothing else |
| EngineSteps.SettledProgress | src/gambit/strategy.py:1101-1109 | After an accepted call every order has moved by exactly its reported fill, applied once |
| EngineSteps.AcceptedBatchFits | src/gambit/callback_contracts.py:113-130 | Accepted trades are for open, tradable orders, now, on their own side and contract |
| EngineSteps.SimStepAdvances | src/gambit/strategy.py:1071-1128 | A simulator call, failed or not, is an admissible step that books its trades or nothing |
| EngineSteps.RuleAdvances | src/gambit/strategy.py:990-1043 | A rule call, failed or not, only moves pending orders towards cancellation |
| EngineSteps.AdvanceNarrows | src/gambit/risk.py:40-54 | An admissible step never widens the reachable position range or the budget in use |
| EngineSafety.AdmitKeeps | src/gambit/strategy.py:798-811 | Deciding a batch keeps a registered policy's promise over pending plus accepted orders |
| EngineSafety.SubmitKeeps | src/gambit/strategy.py:813-814 | Recording a decided batch keeps soundness and the promise |
| EngineSafety.SimStepKeeps | src/gambit/strategy.py:1071-1128 | So does a simulator call, failed or not |
| EngineSafety.SimMarketKeeps | src/gambit/strategy.py:1045-1130 | So does a market pass, whose expiry loop always completes |
| EngineSafety.RuleStepKeeps | src/gambit/strategy.py:789-822 | So does a rule with its decisions and the pass or prune after it |
| EngineSafety.IterationKeeps | src/gambit/strategy.py:780-822 | So does an iteration |
| EngineSafety.ClockKeeps | src/gambit/control_plane.py:316-335 | So does the advance of the clock: the trailing window only loses trades, and timing facts stay true |
| EngineSafety.RunKeeps | src/gambit/strategy.py:768-773 | So does every run |
| EngineTheorems.PositionStaysCapped | src/gambit/risk.py:195-204 | In every run with the cap registered, whichever pending orders fill and how far, no symbol leaves the range spanned by the cap and its starting position; a start inside the cap stays inside |
| EngineTheorems.CapHoldsExactlyFromInside | src/gambit/risk.py:181-204 | Positions stay within a registered cap in every run, whichever pending orders fill, if and only if they are within it at the start |
| EngineTheorems.BudgetIsNeverExceeded | src/gambit/control_plane.py:316-335 | In every run, executed quantity in the trailing window plus everything open never exceeds a registered budget |
| EngineTheorems.BooksStaySound | src/gambit/strategy.py:768-831 | Every run leaves sound books and only extends the history |
| EngineTheorems.QuantityIsConserved | src/gambit/strategy.py:1071-1130 | For every order ever recorded, decided quantity = remainder + its trades in the account, all on its side and contract, also after any failure; a filled order has traded all of it or nothing |
| EngineTheorems.TradesAreTimely | src/gambit/strategy.py:1049-1079 | Every trade of an order submitted at index s is at an index at least s plus the lag, exactly that for fill-or-kill, on the submission date for DAY |
| EngineTheorems.ClosedOrdersRest | src/gambit/callback_contracts.py:116-120 | An order found filled or cancelled at any point of a run keeps its state and never trades again |
| EngineTheorems.ChronologyAssertionHolds | src/gambit/strategy.py:1051-1055 | The engine's chronology assertion never fires in a forward run |
| FillOrKill.OnlySingleUnitsAreAllOrNothing | src/gambit/strategy.py:1049-1079 | A fill-or-kill order of a given quantity trades all of it or nothing in every run if and only if the quantity is one unit |
| FillOrKill.PartialRun | src/gambit/strategy.py:1049-1130 | For every larger quantity, the constructed run in which one unit is filled and the rest is left |
| FilledOrders.FilledMeansTraded | src/gambit/callback_contracts.py:58-96 | In every run whose rules hand in no order already marked filled, a filled order has traded its whole quantity |
| FilledOrders.RuleFillsExactly | src/gambit/callback_contracts.py:58-96 | From a state whose filled orders are empty, a completed rule step leaves them so if and only if no order it proposed came marked filled |
| FilledOrders.MarkedRun | src/gambit/callback_contracts.py:58-96 | The failing input: a run whose rule hands in a filled order, recorded as filled without a trade |
| EngineTheorems.RunSplits | src/gambit/strategy.py:768-773 | A run is its prefix followed by the rest from the state reached |
| Flows.FlowSlides | src/gambit/control_plane.py:317-322 | Sliding the window forward past all trades never increases the executed quantity |
| Flows.BatchByOrder | src/gambit/strategy.py:1101-1105 | Summing a batch by trades or by orders gives the same quantity |
| Flows.OneSidedFlow | src/gambit/callback_contracts.py:126-130 | One-sided fills add up without cancelling: absolute total is the absolute value of the net |
| Grid.SearchSorted | src/gambit/strategy.py:1051 | The index splits the grid into strictly earlier times and the rest |
| Fifo.CalcTradePnl | src/gambit/compute_pnl.pyx:69-126 | The kernel's loop over two queues equals FIFO netting of the nonzero lots |
| Fifo.NetConserves | src/gambit/compute_pnl.pyx:83-126 | Open quantity is what was open plus what traded; open cost is what was paid plus what was realized |
| Fifo.NetStaysOneSided | src/gambit/compute_pnl.pyx:101-114 | Open lots are always all long or all short |
| Fifo.FlatIsEmpty | src/gambit/contract_pnl.py:175-179 | One-sided lots net to zero exactly when there are none |
| Fifo.NetChains | src/gambit/compute_pnl.pyx:83-126 | Netting in two batches equals netting at once, lots and realized P&L |
| Fifo.NetIsFifo | src/gambit/pnl_calculation.py:18 | Netting lots equals matching single units first in, first out |
| SortedDicts.FindIndexBefore | src/gambit/contract_pnl.py:44-57 | The index of the last key at or before the one asked for, or -1 |
| SortedDicts.InForce | src/gambit/contract_pnl.py:44-57 | That key is in the dictionary and no key of it lies between |
| SortedDicts.Put | src/gambit/contract_pnl.py:188-195 | Insertion keeps keys sorted and changes one entry |
| SortedDicts.DeleteFrom | src/gambit/contract_pnl.py:156-158 | The deletion loop removes exactly the keys at or after a time |
| Valuation.ClosedForm | src/gambit/contract_pnl.py:183-207 | From-scratch valuation is multiplier times (position at price minus signed cost) minus fees and commissions |
| Valuation.BooksBalance | src/gambit/contract_pnl.py:167-179 | After any trades the open lots are one-sided, hold the net quantity, and balance cost against realized P&L |
| Valuation.RowIsWorth | src/gambit/contract_pnl.py:231-254 | A cached trade row, valued at a price with its average cost, is worth exactly the from-scratch value of its trades |
| Valuation.SumOverIsMark | src/gambit/account.py:278-283 | Summing contract by contract values every trade exactly once |
| Valuation.PositionIsFlow | src/gambit/contract_pnl.py:261-266 | The row's position is the signed sum of the trades up to its time |
| ContractLedger.RowInForce | src/gambit/contract_pnl.py:224-229 | The row found for a time is the row of exactly the executions up to it |
| ContractLedger.StampStep | src/gambit/contract_pnl.py:154-166 | Distinct timestamps cut a batch into consecutive nonempty groups |
| ContractLedger.NextRowIs | src/gambit/contract_pnl.py:183-207 | The incrementally built row equals the row built from scratch |
| ContractLedger.BookAgrees | src/gambit/contract_pnl.py:165-207 | Booking one group keeps rows and lots in agreement with all booked trades |
| ContractLedger.ChronologyIs | src/gambit/contract_pnl.py:134-144 | The check against the last row accepts exactly the batches that keep the trades in time order |
| ContractLedger.ContractPnl.ValidateChronology | src/gambit/contract_pnl.py:134-144 | Accepts exactly when booked plus new trades stay in time order |
| ContractLedger.ContractPnl.CalcNetPnl | src/gambit/contract_pnl.py:210-259 | Caches one more agreeing value or raises with nothing changed; without price faults it raises only off the grid |
| ContractLedger.ContractPnl.AddAt | src/gambit/contract_pnl.py:165-208 | Books one timestamp's group and revalues there |
| ContractLedger.ContractPnl.AddTrades | src/gambit/contract_pnl.py:146-208 | Books a batch with both caches still agreeing; out of order it raises with nothing changed |
| ContractLedger.ContractPnl.Restore | src/gambit/contract_pnl.py:125-132 | Puts every field of a snapshot back |
| ContractLedger.ContractPnl.Position | src/gambit/contract_pnl.py:261-266 | The net quantity of the executions up to a time |
| ContractLedger.ContractPnl.NetPnl | src/gambit/contract_pnl.py:268-275 | At a computed time, or before the first trade, the from-scratch valuation |
| Batches.SortSorts | src/gambit/account.py:219 | The batch sort orders by time, keeps the multiset, and is stable at every timestamp |
| Batches.SortMarks | src/gambit/account.py:219 | Sorting a batch does not change its valuation |
| Batches.Due | src/gambit/account.py:265-276 | Times to compute: the daily times since the last computed one, then the time asked for, increasing |
| CalcClock.CalcTimesAre | src/gambit/account.py:61-70 | The daily calculation times are exactly the grid times that are the last of their day at or before the cut-off |
| Accounts.Account.constructor | src/gambit/account.py:101-146 | An empty account is consistent and has those calculation times |
| Accounts.Account.ValueAt | src/gambit/account.py:278-283 | Summing contracts gives the from-scratch valuation of the whole account |
| Accounts.Account.Calc | src/gambit/account.py:252-283 | Caches the time asked for and every daily time before it, all agreeing with recomputation; without price faults fails exactly off the grid |
| Accounts.Account.Equity | src/gambit/account.py:307-314 | Starting equity plus the from-scratch valuation, whatever was added, computed or asked before |
| Accounts.Account.ValidateTrades | src/gambit/account.py:205-217 | Accepts exactly the admissible batches |
| Accounts.Account.CheckChronology | src/gambit/account.py:225-227 | Accepts exactly the batches that keep every contract in time order |
| Accounts.Account.AddContract | src/gambit/account.py:232-234 | A new symbol gets an empty consistent ledger |
| Accounts.Account.AddContracts | src/gambit/account.py:232-234 | Every traded symbol gets an empty consistent ledger; existing ones are untouched |
| Accounts.Account.BookAll | src/gambit/account.py:236-237 | Every contract of the batch is linked to the trades including the batch |
| Accounts.Account.Record | src/gambit/account.py:242-247 | Trades appended and outdated totals dropped; the rest still agree and stay closed downward |
| Accounts.Account.Complete | src/gambit/account.py:242-247 | Recording a batch whose contracts hold it already leaves the account consistent |
| Accounts.Account.Restore | src/gambit/account.py:190-202 | Lists, dictionaries and every named contract ledger return to the snapshot |
| Accounts.Account.Commit | src/gambit/account.py:231-247 | The whole booking keeps the account consistent |
| Accounts.Account.Attempt | src/gambit/account.py:229-250 | A fault anywhere inside restores everything |
| Accounts.Account.AddTrades | src/gambit/account.py:204-250 | Atomic: appends the sorted batch with every cache consistent, or leaves the account untouched; without faults it succeeds exactly for admissible chronological batches |
| Accounts.Account.Position | src/gambit/account.py:285-291 | The signed sum of the group's trades up to a time; an unconfigured group is refused |
| Accounts.Account.Positions | src/gambit/account.py:293-305 | Exactly the listed symbols with a nonzero position, with it |
| Accounts.GroupFlowIsFlow | src/gambit/account.py:285-291 | Summing contract positions of a group equals summing its trades |
| Accounts.DueIsNext | src/gambit/account.py:270-276 | Computing due times in order keeps the cache closed downward at every step |
| StoreSafety.EmptyIsSafe | src/gambit/factor_store.py:123-145 | The empty store satisfies the invariant |
| StoreSafety.OpenKeeps | src/gambit/factor_store.py:720-734 | So does every step of an open under the shared lock |
| StoreSafety.LeaseKeeps | src/gambit/factor_store.py:795-809 | Writing a lease file protects the generation it names |
| StoreSafety.ReuseKeeps | src/gambit/factor_store.py:176-193 | Reusing an indexed generation keeps it |
| StoreSafety.PublishMoves | src/gambit/factor_store.py:169-200 | The publisher's look at the index and lock changes keep it |
| StoreSafety.StageKeeps | src/gambit/factor_store.py:196-239 | Creating and abandoning a staging directory keeps it |
| StoreSafety.RenameKeeps | src/gambit/factor_store.py:241 | The rename into place keeps it |
| StoreSafety.PointKeeps | src/gambit/factor_store.py:247 | Replacing CURRENT keeps it |
| StoreSafety.IndexKeeps | src/gambit/factor_store.py:257 | Replacing a node pointer keeps it |
| StoreCleanup.CollectKeeps | src/gambit/factor_store.py:841-916 | Collection keeps it |
| StoreCleanup.DeleteKeeps | src/gambit/factor_store.py:911-914 | Deleting an unreferenced, unleased generation, seen half deleted by a crash, keeps it |
| StoreCleanup.DropLeaseKeeps | src/gambit/factor_store.py:902-905 | Dropping a lease whose local process is dead keeps it |
| StoreCleanup.EvictMoves | src/gambit/factor_store.py:999-1053 | The eviction scan keeps it |
| StoreCleanup.UnlinkKeeps | src/gambit/factor_store.py:1096 | Unlinking an unprotected node keeps it |
| StoreCleanup.UnlinkIsSane | src/gambit/factor_store.py:1096-1097 | Unlinking one node leaves every other pointer naming its own complete generation |
| StoreCleanup.EvictDeletes | src/gambit/factor_store.py:1097 | Deleting the unlinked generation keeps it |
| StoreCleanup.CloseBeginKeeps | src/gambit/factor_store.py:96 | A lease close, which takes no lock, keeps it when the mapping goes |
| StoreCleanup.CloseEndKeeps | src/gambit/factor_store.py:97 | and when the file goes |
| StoreCleanup.MigrateKeeps | src/gambit/factor_store.py:462-473 | Starting a migration keeps it |
| StoreCleanup.FailKeeps | src/gambit/factor_store.py:261-264 | An exception at any point keeps it |
| StoreCleanup.DieKeeps | src/gambit/factor_store.py:240-260 | Process death at any point keeps it and changes no file |
| StoreCleanup.StepKeeps | src/gambit/factor_store.py:147-1140 | Every step of every process keeps it |
| StoreTheorems.RunIsSafe | src/gambit/factor_store.py:123-145 | Every schedule keeps it |
| StoreTheorems.PointersNameComplete | src/gambit/factor_store.py:240-260 | After any schedule CURRENT, once set, and every node pointer name a complete generation, each pointer's manifest carrying its own key |
| StoreTheorems.LeasedIsNeverDeleted | src/gambit/factor_store.py:841-916 | A generation a live process has mapped is on disk, whole and unchanged |
| StoreTheorems.StepKeepsValue | src/gambit/factor_store.py:169-193 | No step but its own eviction changes the value under a key |
| StoreTheorems.ValueIsStable | src/gambit/factor_store.py:169-193 | From publication to eviction a key keeps its value under any schedule |
| StoreTheorems.OpensAgree | src/gambit/factor_store.py:720-734 | Every open by that key maps that value |
| StoreTheorems.FoundIsReadable | src/gambit/factor_store.py:737-772 | A pointer found under the lock always passes the manifest checks |
| StoreTheorems.CommitCarries | src/gambit/factor_store.py:465-473 | A committing migration replaces exactly the indexed generation and carries its columns |
| StoreTheorems.MigrationReplacesOnce | src/gambit/factor_store.py:170-175 | At most one migration ever replaces a given generation |
| StoreTheorems.LosingMigrationChangesNothing | src/gambit/factor_store.py:170-175 | A migration goes ahead exactly when its generation is still the indexed one; otherwise no file changes |
| StoreTheorems.LosingMigrationChangesNoFile | src/gambit/factor_store.py:170-175 | Over any schedule: from its check on, a migration whose generation is no longer indexed changes no file until its operation is over, whatever the others do |
| StoreTheorems.MigrationCommitsOverItsOwn | src/gambit/factor_store.py:465-473 | After any schedule, a migration past its check still finds its own generation under its key at every step up to its commit |
| StoreTheorems.SomebodyCanAdvance | src/gambit/factor_store.py:123-145 | The two locks cannot deadlock |
| StoreEffects.CommitInstalls | src/gambit/factor_store.py:194-260 | An undisturbed commit adds one complete generation under a new name, makes it current, and indexes it when strict; everything else stays |
| StoreEffects.PublishTakesEffect | src/gambit/factor_store.py:176-260 | An undisturbed publication installs its columns, unless the strict key is indexed already: then the first publisher wins |
| StoreEffects.MigrateTakesEffect | src/gambit/factor_store.py:462-473 | An undisturbed migration installs the same columns under a new name if its generation is still indexed, otherwise changes nothing |
| StoreEffects.OpenTakesEffect | src/gambit/factor_store.py:720-809 | An undisturbed open ends holding a lease file on the indexed generation, with the key's columns |
| StoreEffects.PublishThenOpen | src/gambit/factor_store.py:147-260 | Round trip: opening after a strict publication gives the columns of the key's first publisher |
| Eviction.Cache.Scan | src/gambit/factor_store.py:1011-1053 | The scan lists every node once, with its size, age and protection, in least-recently-used order |
| Eviction.Cache.EvictInOrder | src/gambit/factor_store.py:1082-1107 | The loop stops at the shortest prefix that meets the limits, removes exactly its unprotected nodes, and its running totals are the totals of that prefix |
| Eviction.Cache.Evict | src/gambit/factor_store.py:967-1130 | The whole operation: its report, exactly what is gone and what stays, nothing current or leased removed; a dry run or inconsistent limits change nothing |
| Eviction.AfterIsRemaining | src/gambit/factor_store.py:1055-1094 | The after-totals are the sums over what remains, and space freed is what the removed nodes took |
| Eviction.StopsOnce | src/gambit/factor_store.py:1082-1084 | The stopping point is unique |
| Eviction.LruIsUnique | src/gambit/factor_store.py:1082 | So is the least-recently-used order |
| Eviction.DryRunReportsRealRun | src/gambit/factor_store.py:1082-1130 | A dry run reports exactly what the real run from the same state does |
| Eviction.LimitsAreMet | src/gambit/factor_store.py:1082-1128 | If any prefix meets the limits the eviction does, and no later than that |
| Eviction.RemoveOne | src/gambit/factor_store.py:1095-1097 | Removing one node breaks no other pointer |
| Eviction.EnforceQuota | src/gambit/factor_store.py:1143-1170 | The quota is an eviction with the watermark limits; bad watermarks are refused with nothing changed |
| Eviction.EvictsNothingExactly | src/gambit/factor_store.py:1064-1087 | An untriggered eviction with only a byte limit evicts nothing if and only if stored bytes are within the limit or every node is protected |
| Eviction.UntriggeredQuotaEvictsNothing | src/gambit/factor_store.py:1064-1087 | An untriggered quota evicts nothing if and only if stored bytes are within 2^63 - 1 or every node is protected; a triggered one that is satisfied ends at or below the low watermark with the reserve free |
| Eviction.OversizedQuotaEvicts | src/gambit/factor_store.py:1163-1165 | Above that ceiling, with an unprotected node, an untriggered quota does evict (the concrete failing input) |
| Eviction.WatermarksOrder | src/gambit/factor_store.py:1161-1162 | Truncation keeps low at or below high, so the limits are always consistent |
| FactorDag.StoreLoads | src/gambit/factor_dag.py:243-244 | Publishing a frame and loading it by its schema returns it |
| FactorDag.PublishIsCoherent | src/gambit/factor_dag.py:243-244 | Storing a node's own value keeps the cache coherent |
| FactorDag.Executor.HitIsValue | src/gambit/factor_dag.py:261-265 | In a coherent cache a hit is the value plain evaluation computes |
| FactorDag.Executor.Keep | src/gambit/factor_dag.py:238-256 | After a miss: publish and clear the hint, or record the rejection; an exception may come before or after either |
| FactorDag.Executor.Reopen | src/gambit/factor_dag.py:217-267 | A miss opens nothing; a hit is the node's value with its lease open and its hint cleared; an exception while clearing the hint leaves the lease open |
| FactorDag.Executor.RunNode | src/gambit/factor_dag.py:202-267 | Hit or miss, the frame is the node's value; alone on the cache it hits exactly when the value is there, and only a write changes it; a lease is left open without being handed over exactly when opening succeeds and clearing the hint raises |
| FactorDag.Executor.Execute | src/gambit/factor_dag.py:190-288 | The outputs equal evaluation without a cache; the cache stays coherent; nodes split into hits and misses, misses into writes and declines as admitted; every lease taken is held, or on failure closed, but for the one its last node may have opened and not handed over; without store faults there is none, and it fails exactly when plain evaluation does |
| FactorDag.ClearingFaultLeavesLease | src/gambit/factor_dag.py:260-271 | The concrete input: the value is cached, opening succeeds, clearing the hint raises, and the lease stays open |
| FactorDag.RecordNode | src/gambit/factor_dag.py:229-267 | The telemetry lists keep splitting the nodes done so far |
| FactorDag.Execution.Close | src/gambit/factor_dag.py:160-167 | Closing releases every lease once and leaves no output to get; closing again does nothing |
| IpcMetadata.Span | src/gambit/ipc_validation.py:30-32 | Refused exactly when any byte lies outside |
| IpcMetadata.Number | src/gambit/ipc_validation.py:34-35 | Refused exactly when its bytes are not all inside |
| IpcMetadata.NumberRoundTrip | src/gambit/ipc_validation.py:34-35 | Every number of a format survives two's complement little-endian writing and reading |
| IpcMetadata.Indirect | src/gambit/ipc_validation.py:37-41 | References go strictly forward and stay inside |
| IpcMetadata.OpenTable | src/gambit/ipc_validation.py:51-58 | A table accepted lies inside the metadata with its vtable |
| IpcMetadata.Field | src/gambit/ipc_validation.py:60-66 | A present field lies wholly inside its table |
| IpcMetadata.Child | src/gambit/ipc_validation.py:72-76 | A child table is itself a valid table of the same metadata |
| IpcMetadata.Vector | src/gambit/ipc_validation.py:78-86 | Every element lies inside and the count is within its maximum |
| IpcValidation.ColumnOf | src/gambit/ipc_validation.py:110-153 | A recognised column has an offset width its layout can have |
| IpcValidation.Schema | src/gambit/ipc_validation.py:156-163 | Returns the columns the metadata describes, refuses exactly when it describes none |
| IpcValidation.MessageAt | src/gambit/ipc_validation.py:166-177 | An accepted message ends, body included, within the boundary |
| IpcValidation.CheckOffsets | src/gambit/ipc_validation.py:216-221 | Accepts exactly nondecreasing offsets that stay inside the payload |
| IpcValidation.CheckViews | src/gambit/ipc_validation.py:222-232 | Accepts exactly views that are inline or inside the column's own buffers, within budget, and sums their sizes |
| IpcValidation.CheckColumn | src/gambit/ipc_validation.py:211-235 | Accepts exactly when the column's buffers are present, long enough and sound within what is left of the budget |
| IpcValidation.ReadBuffers | src/gambit/ipc_validation.py:189-197 | Returns the described buffers, refuses exactly when one is not inside the body |
| IpcValidation.CheckColumns | src/gambit/ipc_validation.py:199-236 | Accepts exactly when the columns can be laid out soundly within the budget |
| IpcValidation.CheckBatch | src/gambit/ipc_validation.py:180-238 | Accepts exactly the sound batches and returns their rows and cost |
| IpcValidation.BatchedOnce | src/gambit/ipc_validation.py:180-238 | The metadata determines the batch: buffers, owners and costs |
| IpcValidation.CheckSchemaMessage | src/gambit/ipc_validation.py:262-275 | Accepts exactly when the message before the first batch, framed or bare, repeats the schema |
| IpcValidation.CheckBlock | src/gambit/ipc_validation.py:280-289 | Accepts exactly when a sound block stands where the previous one ended, as indexed |
| IpcValidation.CheckBlocks | src/gambit/ipc_validation.py:276-294 | Accepts exactly when sound blocks, as indexed, tile the bytes from the schema on within every budget |
| IpcValidation.BlocksAgree | src/gambit/ipc_validation.py:279-294 | The tiling is unique |
| IpcValidation.InspectIpc | src/gambit/ipc_validation.py:241-299 | Accepts if and only if the bytes are a sound file with the expected schema and row count: batches tile the body, columns are in bounds and long enough, offsets and views stay inside, cost and metadata within budget; it returns the exact cost |
| IpcValidation.EveryByteHasOneOwner | src/gambit/ipc_validation.py:283-296 | Every byte of the tiled range belongs to exactly one block |
| Calendars.NextOrdinal | src/gambit/holiday_calendars.py:105-113 | The closed form grows by one exactly across open days, before 1970 as well |
| Calendars.OrdinalCounts | src/gambit/holiday_calendars.py:105-113 | Differences of the closed form count the open days between |
| Calendars.OpenDayIsUnique | src/gambit/holiday_calendars.py:346-348 | An ordinal belongs to one open day |
| Calendars.OpenDayIsNear | src/gambit/holiday_calendars.py:352-356 | Any stretch of seven days per holiday, plus seven, has an open day |
| Calendars.RollsAreNear | src/gambit/holiday_calendars.py:352-356 | Rolling either way stays within that distance |
| Calendars.ShiftExists | src/gambit/holiday_calendars.py:342-343 | Every offset from an open day has a destination (constructed) |
| Calendars.ShiftIsUnique | src/gambit/holiday_calendars.py:346-348 | and only one |
| Calendars.OrdinalsShift | src/gambit/holiday_calendars.py:346-348 | From an open day, the day reached by counting n open days is the one whose ordinal differs by n |
| Calendars.ShiftComposes | src/gambit/holiday_calendars.py:342-348 | Adding m then n days is adding m + n |
| Calendars.GuardsAreExact | src/gambit/holiday_calendars.py:344-356 | The two guards accept an open day if and only if counting n open days from the rolled day reaches it, and then no other day is reached |
| Calendars.AllowCounts | src/gambit/holiday_calendars.py:336-341 | With roll "allow" the n-th day after or before any day has exactly n open days in between |
| Calendars.NormalizeMeans | src/gambit/holiday_calendars.py:116-166 | The half-open interval holds exactly the days the flags include; reversed endpoints are refused |
| Calendars.CountMatchesEnumeration | src/gambit/holiday_calendars.py:219-278 | Counting equals the length of the enumeration, equals the ordinal difference; the enumeration is exactly the open days included, in order |
| Calendars.CountInvertsAdd | src/gambit/holiday_calendars.py:219-366 | Counting to the day n trading days on gives n |
| Calendars.SplitRecombines | src/gambit/holiday_calendars.py:85-98 | Splitting a timestamp into day and time and recombining is exact for every unit step, negative times included |
| Hdf5Commit.File.Read | src/gambit/pq_io.py:238-252 | Finds the group, else its backup, committed; never a pending one |
| Hdf5Commit.File.Recover | src/gambit/pq_io.py:86-96 | Changes nothing a reader sees, wherever it stops; completed, it leaves no pending group and no backup |
| Hdf5Commit.File.WritePending | src/gambit/pq_io.py:149-177 | Builds the whole committed pending group; readers see no change |
| Hdf5Commit.File.Publish | src/gambit/pq_io.py:179-188 | Readers see the old version up to one moment and the new one from then on |
| Hdf5Commit.File.Abandon | src/gambit/pq_io.py:189-192 | Drops the pending group; readers see no change |
| Hdf5Commit.File.Write | src/gambit/pq_io.py:147-193 | A write crashed or failed anywhere shows the old version, then possibly the new, never back; undisturbed it completes |
| Hdf5Commit.File.WriteAll | src/gambit/pq_io.py:147-193 | Over any sequence of such writes, on a file left by earlier ones, readers only move forward from the version found through versions actually written, and undisturbed end at the last |
| Stages.StageGraph.Visit | src/gambit/stages.py:111-122 | Depth-first search: either the node is finished with the path restored, or a genuine simple cycle is reported; it terminates |
| Stages.StageGraph.TopologicalOrder | src/gambit/stages.py:100-126 | Missing dependencies are reported exactly; otherwise either every node once after its dependencies or a simple cycle, the latter exactly when the graph has a cycle |
| Stages.OrderedIsAcyclic | src/gambit/stages.py:100-126 | A topologically ordered graph has no cycle |
| Stages.FailsExactlyWhenCyclic | src/gambit/stages.py:114-116 | Ordering fails exactly when the graph is cyclic |
| ExposureLimits.ClipMeets | src/gambit/control_plane.py:110-121 | A clipped node ends at its limit, or untouched: no more is taken than needed |
| ExposureLimits.OthersStayShrunk | src/gambit/control_plane.py:105-121 | Applying limits never raises any node's gross exposure |
| ExposureLimits.AllHold | src/gambit/control_plane.py:105-121 | After all limits every one of them holds at once |
| ExposureLimits.AllRecorded | src/gambit/control_plane.py:112-121 | Each exposure is its original times its recorded multiplier, in (0, 1] |
| ExposureLimits.ClipsCommute | src/gambit/control_plane.py:105-121 | Limits of one level commute |
| ExposureLimits.OrderDoesNotMatter | src/gambit/control_plane.py:99-105 | Any two level-sorted arrangements of the same limits give the same result |
| ExposureLimits.SupplyOrderDoesNotMatter | src/gambit/control_plane.py:99-105 | So the result does not depend on the order limits were supplied in |
| ExposureLimits.MetChangesNothing | src/gambit/control_plane.py:111-121 | Limits already met change nothing |
| ExposureLimits.ApplyIsIdempotent | src/gambit/control_plane.py:78-134 | Applying again changes nothing |
| ExposureLimits.Apply | src/gambit/control_plane.py:78-134 | The loop computes that result with every limit holding and each diagnostic row describing its own step; it raises exactly when a limit matches no position |
| Covariance.CovarianceBound | src/gambit/covariance_risk.py:66-78 | In a positive semidefinite matrix no covariance exceeds the product of its volatilities |
| Covariance.ZeroCovariance | src/gambit/covariance_risk.py:70-76 | A holding of zero volatility has zero covariances, so the guarded division loses nothing |
| Covariance.CorrelationRescales | src/gambit/covariance_risk.py:66-78 | Correlations rescaled by volatilities give the matrix back |
| Covariance.StressedVariance | src/gambit/covariance_risk.py:106-123 | Stressed variance is a mixture of variance and squared absolute risk |
| Covariance.VarianceIsBounded | src/gambit/covariance_risk.py:136-139 | Variance never exceeds squared absolute risk |
| Covariance.StressIsAdverse | src/gambit/covariance_risk.py:106-139 | Stress never lowers variance, is monotone in severity, and reaches squared absolute risk at one |
| Covariance.StressedIsCovariance | src/gambit/covariance_risk.py:106-123 | The stressed matrix is positive semidefinite with the same volatilities |
| Covariance.OwnVolatility | src/gambit/covariance_risk.py:115-116 | Each diagonal entry is kept |
| Covariance.ScaledVariance | src/gambit/covariance_risk.py:136-139 | Scaling exposures by k scales variance by its square |
| Covariance.ScaledVolatility | src/gambit/covariance_risk.py:136-139 | and volatility by k |
| Covariance.OverlayMultiplier | src/gambit/covariance_risk.py:385-391 | The overlay's multiplier is the largest in [0, 1] under which every measure meets its limit |
| PortfolioSchedule.OwnIndicesAre | src/gambit/strategy.py:768-773 | A strategy's own run visits exactly the indices whose times lie within the dates |
| PortfolioSchedule.RunOwnRules | src/gambit/strategy.py:768-773 | Its loop with continue and break visits those indices in order |
| PortfolioSchedule.UnionAllMerges | src/gambit/portfolio.py:109-116 | The merged grid is sorted and holds exactly the strategies' times |
| PortfolioSchedule.NextReached | src/gambit/portfolio.py:146-151 | Passing one merged moment advances a strategy by one index exactly when it has that moment |
| PortfolioSchedule.RunMoment | src/gambit/portfolio.py:147-151 | One moment of the merged loop |
| PortfolioSchedule.RunRules | src/gambit/portfolio.py:127-151 | The merged loop calls each strategy on exactly its own indices in its own order, and calls across strategies never go back in time |

## Left out

- Runs that go back in time: a second `run_rules` starting before an index already reached trips the chronology assertion on pending orders; the engine theorems are about forward runs.
- EngineTheorems.QuantityIsConserved: callbacks write to pending orders only; the engine captures only those (src/gambit/strategy.py:1013, 1076), so a callback that kept a reference to a closed order can change its quantity or status unguarded, and a rule can return a closed order's object again.
- EngineTheorems.ClosedOrdersRest: the same, for a closed order's state.
- StrategyObject.Strategy.GetOrders: the position a rule's filter sees is computed from the account's trades, which `Accounts.Account.Position` proves is what the account answers for a configured group; unconfigured groups are left out.
- EngineTheorems.PositionStaysCapped: one account used by one strategy; rules and callbacks that call `account.add_trades` themselves are not modelled, nor are user policies that mutate orders (they are restored exactly like ones that raise).
- CallbackContracts.ValidateRuleOrders: limit prices, VWAP windows and stop-limit orders are folded into one malformed case, as are non-integer quantities; roll identifiers are properties and left out.
- Contracts are identified by symbol and group, one contract per symbol in an account; baskets and expiry objects are values the model does not look into.
- Accounts.Account.Equity: prices are deterministic and finite and contracts do not expire; carrying a price forward over NaN and the expiry freeze make values depend on the history of queries.
- ContractLedger.ContractPnl.CalcNetPnl: the same; a price is always finite and the contract never expires.
- ContractLedger.ContractPnl.NetPnl: the same; the final P&L of an expired contract is left out.
- Accounts.Account.Restore: the per-date trade lists and the list of contract groups are not modelled, so not restored either.
- Accounts.Account.AddTrades: the per-date trade lists and the data-frame reports are not modelled.
- Price faults are modelled as "raises after n good calls"; the price callback has no other effect.
- IEEE rounding: prices, exposures, multipliers and matrices are reals; whole-unit quantities are unbounded integers.
- Covariance.CorrelationRescales: volatilities are given as nonnegative square roots of the diagonal of an exactly positive semidefinite symmetric matrix; eigenvalue tolerances are left out.
- Covariance.OverlayMultiplier: measures are given as nonnegative numbers; data-frame checks are left out.
- File bytes, fsync, JSON, hashes, symbolic links, timestamps, access and admission metadata, and pointer staging files of the factor store; unique names come from a counter instead of random identifiers.
- StoreCleanup.CollectKeeps: how old a lease must be is left open, so a collection may drop any lease whose local process is dead.
- StoreEffects.PublishThenOpen: states what operations do when nobody interferes; with interference only the safety results hold.
- Eviction.Cache.Evict: directory sizes and access times are given with the cache; metrics are left out.
- FactorDag.Executor.Execute: admission is an arbitrary flag per node instead of a formula over cost; telemetry keeps no measurements; rejection hints have no expiry.
- IpcValidation.InspectIpc: UTF-8 validity is a parameter, and data type names are a datatype instead of strings.
- Calendars.GuardsAreExact: NumPy's `busday_offset` and `busday_count` are specified by meaning, with the month of a day as a parameter; missing dates and the 64-bit range errors are left out.
- Hdf5Commit.File.Write: resource limits, attribute checks and column encodings are left out; one key per file.
- Stages.StageGraph.TopologicalOrder: missing names are a set, not the sorted list in the message.
- ExposureLimits.Apply: checks on columns, nulls and finiteness are left out.
- PortfolioSchedule.RunRules: sparse iteration storage and the final account computation are left out; selecting strategies by name is a list of grids.
- `run_indicators` and `run_signals`, `TradingOverrideBook`, `MaxVolumeParticipation` and `InstrumentTradabilityPolicy` beyond being arbitrary policies, execution costs, currency translation, the optimizer pool, evaluators, plotting, the command line and the native code other than the FIFO kernel: they add no harder property.
