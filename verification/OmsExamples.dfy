/** Inputs on which order accounting does not do what is said about it: each goes from a start state, step by step. */
module OmsExamples {
  import opened Ordering
  import opened Oms
  import opened OmsFills
  import opened OmsRuns
  import opened OmsHolds
  import Positions
  import Reservations

  /** One instrument, balance-checked and on the books, whose amounts the venue takes as they are. */
  function SpotMarket(): Config {
    Config(map["BTC-USD" := Instrument("USD", "BTC", true, true, false, None, (x: real) => x, (x: real) => x)], {7}, false)
  }

  /** The same, with quantities rounded down to two decimals. */
  function CentMarket(): Config {
    Config(map["BTC-USD" := Instrument("USD", "BTC", true, true, false, None, (x: real) => (x * 100.0).Floor as real / 100.0, (x: real) => x)],
           {7}, false)
  }

  /** An account with `cash` to spend and `qty` to sell. */
  function Account(cash: real, qty: real): OmsState {
    OmsState(map[], {}, map[(7, "BTC") := Positions.Position(qty, 0.0, qty, false)], Reservations.EMPTY_BOOK, {}, map[(7, "USD") := cash])
  }

  function Btc(o: OmsState): Positions.Position { Positions.At(o.positions, (7, "BTC")) }

  const ONE_BUY := Request(1, 7, "BTC-USD", Buy, 1.0, 10.0)

  function SellOne(id: int): Request { Request(id, 7, "BTC-USD", Sell, 1.0, 10.0) }

  function OpenSell(): Order { Order(7, "BTC-USD", Sell, 10.0, 1.0, 0.0, 0.0, Pending) }

  // ---------------------------------------------------------------------
  // One step
  // ---------------------------------------------------------------------

  /** Placing a sell of one freezes one. */
  lemma PlaceSell(o: OmsState, id: int)
    requires 7 !in o.panicked && Btc(o).available >= 1.0
    ensures var o' := Place(o, SpotMarket(), SellOne(id));
            o'.orders == o.orders[id := OpenSell()] && Btc(o') == Positions.Frozen(Btc(o), 1.0) && id in o'.cached && o'.panicked == o.panicked
  {
    assert Accepted(o, SpotMarket(), SellOne(id));
  }

  /** An entry that is no trade is applied as it is. */
  lemma UpdateOne(order: Order, e: Entry)
    requires !e.Trade?
    ensures UpdateOrder(order, [e]) == StepEntry(order, e, true)
  {
    var entries := [e];
    assert entries[..0] == [];
    assert Fold(order, entries[..0], true) == (order, false);
  }

  /** A trade on a closed order is counted. */
  lemma UpdateClosed(order: Order, qty: real, price: real)
    requires Terminal(order.status)
    ensures UpdateOrder(order, [Trade(qty, price)]) == (order.(traded := order.traded + qty), true)
  {
    var entries := [Trade(qty, price)];
    assert entries[..0] == [];
    assert Fold(order, entries[..0], true) == (order, false);
  }

  /** A trade on an open order fills it by so much. */
  lemma UpdateOpen(order: Order, qty: real, price: real)
    requires !Terminal(order.status) && order.filled == order.traded && 0.0 < qty && 0.0 <= order.traded && order.traded + qty <= order.qty
    ensures var total := order.traded + qty;
            UpdateOrder(order, [Trade(qty, price)]).0 ==
            order.(filled := total, traded := total, status := if Near(total, order.qty) then Filled else PartiallyFilled)
  {
    var entries: seq<Entry>, total := [Trade(qty, price)], order.traded + qty;
    assert entries[..0] == [] && entries[0] in entries;
    assert TradedIn(entries) == qty;
    var extra := State(Some(if Near(total, order.qty) then Filled else PartiallyFilled), total, order.qty - total);
    assert Inferred(order, entries) == Some(extra);
    var all := entries + [extra];
    assert all[..1] == entries;
    assert Fold(order, entries[..0], false) == (order, false);
    assert Fold(order, entries, false) == (order.(traded := total), true);
  }

  function SoldOne(p: Positions.Position, e: Entry): Positions.Position {
    if e.Trade? then Positions.Settled(p, Positions.SellDelta(0, "", e.qty)) else p
  }

  /** What a report with one entry does to a sell, and to the position. */
  lemma ReportSell(o: OmsState, id: int, e: Entry, via: Via)
    requires id != 0 && id in o.orders && SameTerms(o.orders[id], OpenSell()) && Tidy(Btc(o), Btc(o).frozen, Btc(o).total) && (e.Trade? ==> e.qty >= 0.0)
    ensures var o' := ProcessReport(o, SpotMarket(), Report(id, None, [e]), via);
            var (after, updated) := UpdateOrder(o.orders[id], [e]);
            o'.orders == o.orders[id := after] && Btc(o') == Positions.Thawed(SoldOne(Btc(o), e), Thaw(after, updated && Terminal(after.status)))
  {
    var cfg, r := SpotMarket(), Report(id, None, [e]);
    var c := ContextFor(o, cfg, r, via).value;
    var (after, updated) := UpdateOrder(o.orders[id], [e]);
    ProcessParts(o, cfg, r, via);
    OwnAfter(o.positions, o.holds, c, r, after, updated && Terminal(after.status));
    assert r.entries[..0] == [] && Sold(Btc(o), r.entries[..0]) == Btc(o);
  }

  // ---------------------------------------------------------------------
  // Positions
  // ---------------------------------------------------------------------

  /** The second of two sells is open, and so much is frozen of two. */
  predicate SecondOpen(o: OmsState, first: Order, frozen: real) {
    && 1 in o.orders && 2 in o.orders && o.orders[1] == first && o.orders[2] == OpenSell()
    && Btc(o) == Positions.Position(2.0, frozen, 2.0 - frozen, false)
  }

  function TwoSells(): OmsState { Place(Place(Account(0.0, 2.0), SpotMarket(), SellOne(1)), SpotMarket(), SellOne(2)) }

  lemma TwoSellsFreezeTwo()
    ensures SecondOpen(TwoSells(), OpenSell(), 2.0)
  {
    PlaceSell(Account(0.0, 2.0), 1);
    SecondSell(Place(Account(0.0, 2.0), SpotMarket(), SellOne(1)));
  }

  lemma SecondSell(o: OmsState)
    requires 7 !in o.panicked && 1 in o.orders && o.orders[1] == OpenSell() && Btc(o) == Positions.Position(2.0, 1.0, 1.0, false)
    ensures SecondOpen(Place(o, SpotMarket(), SellOne(2)), OpenSell(), 2.0)
  {
    PlaceSell(o, 2);
  }

  /** The first of them is cancelled, and one is thawed. */
  function OneCancelled(via: Via): OmsState {
    ProcessReport(TwoSells(), SpotMarket(), Report(1, None, [State(Some(Cancelled), 0.0, 0.0)]), via)
  }

  lemma OneCancelledThawsOne(via: Via)
    ensures SecondOpen(OneCancelled(via), OpenSell().(status := Cancelled), 1.0)
  {
    TwoSellsFreezeTwo();
    CancelThaws(TwoSells(), via);
  }

  lemma CancelThaws(o: OmsState, via: Via)
    requires SecondOpen(o, OpenSell(), 2.0)
    ensures SecondOpen(ProcessReport(o, SpotMarket(), Report(1, None, [State(Some(Cancelled), 0.0, 0.0)]), via), OpenSell().(status := Cancelled), 1.0)
  {
    var e := State(Some(Cancelled), 0.0, 0.0);
    UpdateOne(OpenSell(), e);
    ReportSell(o, 1, e, via);
  }

  /** A fee reported on the cancelled sell thaws a second one: the open sell has nothing frozen any more. */
  lemma ThawedTwice(via: Via)
    ensures SecondOpen(ProcessReport(OneCancelled(via), SpotMarket(), Report(1, None, [Fee]), via), OpenSell().(status := Cancelled), 0.0)
  {
    OneCancelledThawsOne(via);
    FeeThaws(OneCancelled(via), via);
  }

  lemma FeeThaws(o: OmsState, via: Via)
    requires SecondOpen(o, OpenSell().(status := Cancelled), 1.0)
    ensures SecondOpen(ProcessReport(o, SpotMarket(), Report(1, None, [Fee]), via), OpenSell().(status := Cancelled), 0.0)
  {
    UpdateOne(o.orders[1], Fee);
    ReportSell(o, 1, Fee, via);
  }

  /** A trade that comes in late on the cancelled sell uses up what was frozen for the open one. */
  lemma LateTradeTakesOthers(via: Via)
    ensures var o := ProcessReport(OneCancelled(via), SpotMarket(), Report(1, None, [Trade(1.0, 10.0)]), via);
            2 in o.orders && o.orders[2] == OpenSell() && Btc(o) == Positions.Position(1.0, 0.0, 1.0, false)
  {
    OneCancelledThawsOne(via);
    LateTrade(OneCancelled(via), via);
  }

  lemma LateTrade(o: OmsState, via: Via)
    requires SecondOpen(o, OpenSell().(status := Cancelled), 1.0)
    ensures var o' := ProcessReport(o, SpotMarket(), Report(1, None, [Trade(1.0, 10.0)]), via);
            2 in o'.orders && o'.orders[2] == OpenSell() && Btc(o') == Positions.Position(1.0, 0.0, 1.0, false)
  {
    UpdateClosed(o.orders[1], 1.0, 10.0);
    ReportSell(o, 1, Trade(1.0, 10.0), via);
  }

  /** A sell of one, alone. */
  function OneSell(): OmsState { Place(Account(0.0, 1.0), SpotMarket(), SellOne(1)) }

  /** The sell is as `order` says, and so much is frozen of one. */
  predicate Alone(o: OmsState, order: Order, frozen: real) {
    1 in o.orders && o.orders[1] == order && Btc(o) == Positions.Position(1.0, frozen, 1.0 - frozen, false)
  }

  lemma OneSellFreezesOne()
    ensures Alone(OneSell(), OpenSell(), 1.0)
  {
    PlaceSell(Account(0.0, 1.0), 1);
  }

  /** One entry that is no trade, reported on the sell. */
  lemma ReportAlone(o: OmsState, order: Order, frozen: real, e: Entry, via: Via)
    requires Alone(o, order, frozen) && SameTerms(order, OpenSell()) && 0.0 <= frozen <= 1.0 && !e.Trade?
    ensures var (after, updated) := StepEntry(order, e, true);
            Alone(ProcessReport(o, SpotMarket(), Report(1, None, [e]), via), after, Less(frozen, Thaw(after, updated && Terminal(after.status))))
  {
    UpdateOne(order, e);
    ReportSell(o, 1, e, via);
  }

  /** The state of the sell arrives, and not yet its trade. */
  function StateReported(via: Via): OmsState {
    ProcessReport(OneSell(), SpotMarket(), Report(1, None, [State(Some(Filled), 1.0, 0.0)]), via)
  }

  lemma StateCloses(via: Via)
    ensures Alone(StateReported(via), OpenSell().(filled := 1.0, status := Filled), 1.0)
  {
    OneSellFreezesOne();
    ReportAlone(OneSell(), OpenSell(), 1.0, State(Some(Filled), 1.0, 0.0), via);
  }

  lemma TradeFollows(o: OmsState, via: Via)
    requires Alone(o, OpenSell().(filled := 1.0, status := Filled), 1.0)
    ensures Btc(ProcessReport(o, SpotMarket(), Report(1, None, [Trade(1.0, 10.0)]), via)) == Positions.Position(0.0, 0.0, 0.0, false)
  {
    UpdateClosed(o.orders[1], 1.0, 10.0);
    ReportSell(o, 1, Trade(1.0, 10.0), via);
  }

  /** The state arrives first, as the gateways send it: the order is closed, and one stays frozen until its trade arrives too. */
  lemma StateFirst(via: Via)
    ensures Alone(StateReported(via), OpenSell().(filled := 1.0, status := Filled), 1.0)
    ensures Btc(ProcessReport(StateReported(via), SpotMarket(), Report(1, None, [Trade(1.0, 10.0)]), via)) == Positions.Position(0.0, 0.0, 0.0, false)
  {
    StateCloses(via);
    TradeFollows(StateReported(via), via);
  }

  /** The sell is rejected, and thawed. */
  function SellRejected(via: Via): OmsState {
    ProcessReport(OneSell(), SpotMarket(), Report(1, None, [Reject(true)]), via)
  }

  lemma RejectionThaws(via: Via)
    ensures Alone(SellRejected(via), OpenSell().(status := Rejected), 0.0)
  {
    OneSellFreezesOne();
    ReportAlone(OneSell(), OpenSell(), 1.0, Reject(true), via);
  }

  /** A rejected sell that a linkage opens again has nothing frozen. */
  lemma ReopenedUnfrozen(via: Via)
    ensures Alone(ProcessReport(SellRejected(via), SpotMarket(), Report(1, None, [Linkage]), via), OpenSell().(status := Booked), 0.0)
  {
    RejectionThaws(via);
    ReportAlone(SellRejected(via), OpenSell().(status := Rejected), 0.0, Linkage, via);
  }

  /** A sell that is rejected after a timeout stays frozen. */
  lemma TimedOutStaysFrozen()
    ensures var o := Recheck(OneSell(), 1);
            Alone(o, OpenSell().(status := Rejected), 1.0)
  {
    OneSellFreezesOne();
  }

  /** A trade that was buffered fills its order when it is replayed, and the position does not move. */
  lemma ReplayedTradeIsNotBooked()
    ensures var o := Replay(OneSell(), 1, [Trade(1.0, 10.0)]);
            Alone(o, OpenSell().(filled := 1.0, traded := 1.0, status := Filled), 1.0)
  {
    OneSellFreezesOne();
    UpdateOpen(OpenSell(), 1.0, 10.0);
  }

  lemma PlacedAgain(o: OmsState)
    requires 7 !in o.panicked && o.orders == map[1 := OpenSell()] && Btc(o) == Positions.Position(2.0, 1.0, 1.0, false)
    ensures var o' := Place(o, SpotMarket(), SellOne(1)); o'.orders == map[1 := OpenSell()] && Btc(o') == Positions.Position(2.0, 2.0, 0.0, false)
  {
    PlaceSell(o, 1);
  }

  /** A sell placed a second time under the same id: two are frozen for one order. */
  lemma PlacedTwice()
    ensures var o := Place(Place(Account(0.0, 2.0), SpotMarket(), SellOne(1)), SpotMarket(), SellOne(1));
            o.orders == map[1 := OpenSell()] && Btc(o) == Positions.Position(2.0, 2.0, 0.0, false)
  {
    PlaceSell(Account(0.0, 2.0), 1);
    PlacedAgain(Place(Account(0.0, 2.0), SpotMarket(), SellOne(1)));
  }

  /** A sell of 1.234 goes out as 1.23, but 1.234 is frozen for it. */
  lemma RoundedSell()
    ensures var o := Place(Account(0.0, 2.0), CentMarket(), Request(1, 7, "BTC-USD", Sell, 1.234, 10.0));
            1 in o.orders && o.orders[1].qty == 1.23 && Btc(o).frozen == 1.234
  {
    assert Accepted(Account(0.0, 2.0), CentMarket(), Request(1, 7, "BTC-USD", Sell, 1.234, 10.0));
  }

  /**
   Buying one at ten and being filled: through the context cached at placement, which has no order in it,
   the account ends one short; through the order book it ends one long.
   */
  lemma FilledBuy(via: Via)
    ensures var o := ProcessReport(Place(Account(10.0, 0.0), SpotMarket(), ONE_BUY), SpotMarket(), Report(1, None, [Trade(1.0, 10.0)]), via);
            Btc(o) == Positions.Position(1.0, 0.0, 1.0, via.Cached?)
  {
    var cfg, placed, r := SpotMarket(), Place(Account(10.0, 0.0), SpotMarket(), ONE_BUY), Report(1, None, [Trade(1.0, 10.0)]);
    PlaceBuy();
    var c := ContextFor(placed, cfg, r, via).value;
    assert r.entries[..0] == [];
    var d := FillDelta(c, 1.0);
    assert BookFills(placed.positions, placed.holds, c, 1, r.entries).0 == Positions.ApplyDelta(placed.positions, d);
    Positions.ApplyDeltaAt(placed.positions, d, (7, "BTC"));
    assert UpdateOrder(placed.orders[1], r.entries).0.side.Buy? by { UpdateKeeps(placed.orders[1], r.entries); }
  }

  // ---------------------------------------------------------------------
  // Holds
  // ---------------------------------------------------------------------

  function OpenBuy(): Order { Order(7, "BTC-USD", Buy, 10.0, 1.0, 0.0, 0.0, Pending) }

  lemma PlaceBuy()
    ensures var o := Place(Account(10.0, 0.0), SpotMarket(), ONE_BUY);
            && 1 in o.orders && o.orders[1] == OpenBuy() && 1 in o.cached && o.positions == Account(10.0, 0.0).positions
            && Reservations.Held(o.holds, 1) == 10.0
  {
    assert Accepted(Account(10.0, 0.0), SpotMarket(), ONE_BUY);
  }

  /** What a report of half a unit releases, and what is then due. */
  lemma HalfReported(placed: OmsState, r: Report, via: Via)
    requires Target(r) == Some(1) && r.entries == [Trade(0.5, 9.0)] && 1 in placed.orders && placed.orders[1] == OpenBuy()
    ensures var o, c := ProcessReport(placed, SpotMarket(), r, via), ContextFor(placed, SpotMarket(), r, via);
            && 1 in o.orders && Due(SpotMarket(), o.orders[1]) == 5.0 && c.Some?
            && o.holds == Reservations.ReleasePartial(placed.holds, r.orderId, ReleaseAmount(c.value, r.entries[0]))
  {
    var c := ContextFor(placed, SpotMarket(), r, via).value;
    assert r.entries[..0] == [];
    assert BookFills(placed.positions, placed.holds, c, r.orderId, r.entries[..0]) == (placed.positions, placed.holds);
    UpdateOpen(OpenBuy(), 0.5, 9.0);
  }

  /**
   One bought at ten, half of it filled at nine: through the cached context 9.5 stays reserved, through the
   order book the 5.0 that are due.
   */
  lemma HalfFilledBuy(via: Via)
    ensures var o := ProcessReport(Place(Account(10.0, 0.0), SpotMarket(), ONE_BUY), SpotMarket(), Report(1, None, [Trade(0.5, 9.0)]), via);
            Reservations.Held(o.holds, 1) == (if via.Cached? then 9.5 else 5.0) && 1 in o.orders && Due(SpotMarket(), o.orders[1]) == 5.0
  {
    PlaceBuy();
    HalfReported(Place(Account(10.0, 0.0), SpotMarket(), ONE_BUY), Report(1, None, [Trade(0.5, 9.0)]), via);
  }

  /** The same reported by exchange reference: the release goes to id zero, and 10.0 stays reserved. */
  lemma HalfFilledByReference(via: Via)
    ensures var o := ProcessReport(Place(Account(10.0, 0.0), SpotMarket(), ONE_BUY), SpotMarket(), Report(0, Some(1), [Trade(0.5, 9.0)]), via);
            Reservations.Held(o.holds, 1) == 10.0 && 1 in o.orders && Due(SpotMarket(), o.orders[1]) == 5.0
  {
    PlaceBuy();
    HalfReported(Place(Account(10.0, 0.0), SpotMarket(), ONE_BUY), Report(0, Some(1), [Trade(0.5, 9.0)]), via);
  }

  /** A buy of 1.234 at ten goes out as 1.23: 12.34 is reserved and 12.3 due. */
  lemma RoundedBuy()
    ensures var o := Place(Account(20.0, 0.0), CentMarket(), Request(1, 7, "BTC-USD", Buy, 1.234, 10.0));
            Reservations.Held(o.holds, 1) == 12.34 && 1 in o.orders && Due(CentMarket(), o.orders[1]) == 12.3
  {
    assert Accepted(Account(20.0, 0.0), CentMarket(), Request(1, 7, "BTC-USD", Buy, 1.234, 10.0));
  }

  /** An open buy that was restored holds nothing of the 10.0 it is due. */
  lemma RestoredBuy()
    ensures var o := OmsState(map[1 := OpenBuy()], {}, map[], Reservations.EMPTY_BOOK, {}, map[]);
            Reservations.Held(o.holds, 1) == 0.0 && Due(SpotMarket(), o.orders[1]) == 10.0 && !HoldsExact(o, SpotMarket())
  {
    var o := OmsState(map[1 := OpenBuy()], {}, map[], Reservations.EMPTY_BOOK, {}, map[]);
    assert 1 in o.orders && Reservations.Held(o.holds, 1) != Due(SpotMarket(), o.orders[1]);
  }
}
