/** What order accounting keeps over whole runs, and exactly where it does not. */
module OmsRuns {
  import opened Ordering
  import opened Reals
  import opened Oms
  import opened OmsFills
  import Positions
  import Reservations

  // ---------------------------------------------------------------------
  // The invariant
  // ---------------------------------------------------------------------

  /** Every instrument kept under this position symbol is balance-checked, on the books and not on margin. */
  ghost predicate Checked(cfg: Config, symbol: string) {
    forall code :: code in cfg.instruments && cfg.instruments[code].pos == symbol ==>
      cfg.instruments[code].bookkeeping && cfg.instruments[code].balanceCheck && !cfg.instruments[code].useMargin
  }

  predicate OnBook(order: Order, cfg: Config, account: int, symbol: string) {
    order.account == account && order.instrument in cfg.instruments && cfg.instruments[order.instrument].pos == symbol
  }

  /** What of a position is set aside for an order. */
  function Pledged(order: Order): real {
    if order.side.Sell? then SetAside(Terminal(order.status), order.qty, order.filled, order.traded) else 0.0
  }

  /** What the trades of an order did to the position: bought or sold. */
  function Net(order: Order): real {
    match order.side
    case Buy => order.traded
    case Sell => -order.traded
    case OtherSide => 0.0
  }

  ghost function Pledges(orders: map<int, Order>, cfg: Config, account: int, symbol: string): map<int, real> {
    map id | id in orders && OnBook(orders[id], cfg, account, symbol) :: Pledged(orders[id])
  }

  ghost function Nets(orders: map<int, Order>, cfg: Config, account: int, symbol: string): map<int, real> {
    map id | id in orders && OnBook(orders[id], cfg, account, symbol) :: Net(orders[id])
  }

  /** An open order has not traded more than its quantity, and is a buy or a sell if it is accounted for. */
  ghost predicate OrderOk(order: Order, cfg: Config) {
    || Terminal(order.status)
    || (&& order.traded <= order.qty
        && (order.side.OtherSide? && order.instrument in cfg.instruments ==>
              !cfg.instruments[order.instrument].bookkeeping || cfg.instruments[order.instrument].useMargin))
  }

  /**
   The position is long and split without loss, freezes exactly what is set aside for sells, and is what it
   was at the opening plus everything bought less everything sold.
   */
  ghost predicate BooksAt(o: OmsState, cfg: Config, opening: Positions.Book, a: int, s: string) {
    Tidy(Positions.At(o.positions, (a, s)), Sum(Pledges(o.orders, cfg, a, s)),
         Positions.At(opening, (a, s)).total + Sum(Nets(o.orders, cfg, a, s)))
  }

  ghost predicate Books(o: OmsState, cfg: Config, opening: Positions.Book) {
    && (forall id :: id in o.orders ==> OrderOk(o.orders[id], cfg))
    && (forall a, s :: Checked(cfg, s) ==> BooksAt(o, cfg, opening, a, s))
  }

  // ---------------------------------------------------------------------
  // Replacing one order
  // ---------------------------------------------------------------------

  lemma PledgesWith(orders: map<int, Order>, cfg: Config, id: int, order: Order, a: int, s: string)
    ensures Sum(Pledges(orders[id := order], cfg, a, s)) ==
            Sum(Pledges(orders, cfg, a, s) - {id}) + if OnBook(order, cfg, a, s) then Pledged(order) else 0.0
  {
    var m := Pledges(orders, cfg, a, s);
    if OnBook(order, cfg, a, s) {
      assert Pledges(orders[id := order], cfg, a, s) == m[id := Pledged(order)];
      SumUpdate(m, id, Pledged(order));
    } else {
      assert Pledges(orders[id := order], cfg, a, s) == m - {id};
    }
  }

  lemma NetsWith(orders: map<int, Order>, cfg: Config, id: int, order: Order, a: int, s: string)
    ensures Sum(Nets(orders[id := order], cfg, a, s)) ==
            Sum(Nets(orders, cfg, a, s) - {id}) + if OnBook(order, cfg, a, s) then Net(order) else 0.0
  {
    var m := Nets(orders, cfg, a, s);
    if OnBook(order, cfg, a, s) {
      assert Nets(orders[id := order], cfg, a, s) == m[id := Net(order)];
      SumUpdate(m, id, Net(order));
    } else {
      assert Nets(orders[id := order], cfg, a, s) == m - {id};
    }
  }

  lemma PledgesSplit(orders: map<int, Order>, cfg: Config, id: int, a: int, s: string)
    ensures Sum(Pledges(orders, cfg, a, s)) ==
            Sum(Pledges(orders, cfg, a, s) - {id}) + if id in orders && OnBook(orders[id], cfg, a, s) then Pledged(orders[id]) else 0.0
  {
    if id in orders {
      PledgesWith(orders, cfg, id, orders[id], a, s);
      assert orders[id := orders[id]] == orders;
    } else {
      assert Pledges(orders, cfg, a, s) - {id} == Pledges(orders, cfg, a, s);
    }
  }

  lemma NetsSplit(orders: map<int, Order>, cfg: Config, id: int, a: int, s: string)
    ensures Sum(Nets(orders, cfg, a, s)) ==
            Sum(Nets(orders, cfg, a, s) - {id}) + if id in orders && OnBook(orders[id], cfg, a, s) then Net(orders[id]) else 0.0
  {
    if id in orders {
      NetsWith(orders, cfg, id, orders[id], a, s);
      assert orders[id := orders[id]] == orders;
    } else {
      assert Nets(orders, cfg, a, s) - {id} == Nets(orders, cfg, a, s);
    }
  }

  lemma PledgesNonNegative(orders: map<int, Order>, cfg: Config, id: int, a: int, s: string)
    requires forall j :: j in orders ==> OrderOk(orders[j], cfg)
    ensures Sum(Pledges(orders, cfg, a, s) - {id}) >= 0.0
  {
    SumNonNegative(Pledges(orders, cfg, a, s) - {id});
  }

  /** The books at one position, with what belongs to one order set apart. */
  lemma BooksBefore(o: OmsState, cfg: Config, opening: Positions.Book, id: int, a: int, s: string) returns (rest: real, net: real)
    requires Books(o, cfg, opening) && Checked(cfg, s)
    ensures rest >= 0.0
    ensures rest == Sum(Pledges(o.orders, cfg, a, s) - {id}) && net == Positions.At(opening, (a, s)).total + Sum(Nets(o.orders, cfg, a, s) - {id})
    ensures var own := id in o.orders && OnBook(o.orders[id], cfg, a, s);
            Tidy(Positions.At(o.positions, (a, s)), rest + if own then Pledged(o.orders[id]) else 0.0, net + if own then Net(o.orders[id]) else 0.0)
  {
    rest, net := Sum(Pledges(o.orders, cfg, a, s) - {id}), Positions.At(opening, (a, s)).total + Sum(Nets(o.orders, cfg, a, s) - {id});
    assert BooksAt(o, cfg, opening, a, s);
    PledgesNonNegative(o.orders, cfg, id, a, s);
    PledgesSplit(o.orders, cfg, id, a, s);
    NetsSplit(o.orders, cfg, id, a, s);
  }

  /** The books at one position once an order is replaced. */
  lemma BooksAfter(o: OmsState, o': OmsState, cfg: Config, opening: Positions.Book, id: int, order: Order, a: int, s: string, rest: real, net: real)
    requires o'.orders == o.orders[id := order]
    requires rest == Sum(Pledges(o.orders, cfg, a, s) - {id}) && net == Positions.At(opening, (a, s)).total + Sum(Nets(o.orders, cfg, a, s) - {id})
    ensures var own := OnBook(order, cfg, a, s);
            BooksAt(o', cfg, opening, a, s) <==>
            Tidy(Positions.At(o'.positions, (a, s)), rest + if own then Pledged(order) else 0.0, net + if own then Net(order) else 0.0)
  {
    PledgesWith(o.orders, cfg, id, order, a, s);
    NetsWith(o.orders, cfg, id, order, a, s);
  }

  /** An order that is replaced by one with the same terms disturbs no position but its own. */
  lemma ElsewhereKept(o: OmsState, o': OmsState, cfg: Config, opening: Positions.Book, id: int, order: Order, a: int, s: string)
    requires Books(o, cfg, opening) && Checked(cfg, s) && id in o.orders && o'.orders == o.orders[id := order] && SameTerms(o.orders[id], order)
    requires !OnBook(order, cfg, a, s) && Positions.At(o'.positions, (a, s)) == Positions.At(o.positions, (a, s))
    ensures BooksAt(o', cfg, opening, a, s)
  {
    var rest, net := BooksBefore(o, cfg, opening, id, a, s);
    BooksAfter(o, o', cfg, opening, id, order, a, s, rest, net);
  }

  ghost predicate CheckedOrder(cfg: Config, order: Order) {
    order.instrument in cfg.instruments && Checked(cfg, cfg.instruments[order.instrument].pos)
  }

  /** So the books come down to that order and its own position. */
  lemma ReplacedBooks(o: OmsState, o': OmsState, cfg: Config, opening: Positions.Book, id: int, order: Order)
    requires Books(o, cfg, opening) && id in o.orders && o'.orders == o.orders[id := order] && SameTerms(o.orders[id], order)
    requires forall a, s :: !OnBook(order, cfg, a, s) ==> Positions.At(o'.positions, (a, s)) == Positions.At(o.positions, (a, s))
    ensures Books(o', cfg, opening) <==>
            OrderOk(order, cfg) && (CheckedOrder(cfg, order) ==> BooksAt(o', cfg, opening, order.account, cfg.instruments[order.instrument].pos))
  {
    if OrderOk(order, cfg) && (CheckedOrder(cfg, order) ==> BooksAt(o', cfg, opening, order.account, cfg.instruments[order.instrument].pos)) {
      forall a, s | Checked(cfg, s) ensures BooksAt(o', cfg, opening, a, s) {
        if !OnBook(order, cfg, a, s) { ElsewhereKept(o, o', cfg, opening, id, order, a, s); }
      }
    } else {
      assert o'.orders[id] == order;
    }
  }

  /** What an order sets aside at a position. */
  function PledgedAt(order: Order, cfg: Config, account: int, symbol: string): real {
    if OnBook(order, cfg, account, symbol) then Pledged(order) else 0.0
  }

  /** What the order that a new one replaces sets aside at a position, if there is one. */
  function PledgedBefore(o: OmsState, cfg: Config, id: int, account: int, symbol: string): real {
    if id in o.orders then PledgedAt(o.orders[id], cfg, account, symbol) else 0.0
  }

  /** What the order that a new one replaces did to the total at a position. */
  function NetBefore(o: OmsState, cfg: Config, id: int, account: int, symbol: string): real {
    if id in o.orders && OnBook(o.orders[id], cfg, account, symbol) then Net(o.orders[id]) else 0.0
  }

  /** The books at one position before and after an order is put in the book, with what belongs to it set apart. */
  lemma PlacedSums(o: OmsState, o': OmsState, cfg: Config, opening: Positions.Book, id: int, order: Order, a: int, s: string) returns (rest: real, net: real)
    requires Books(o, cfg, opening) && Checked(cfg, s) && o'.orders == o.orders[id := order]
    ensures rest >= 0.0 && Tidy(Positions.At(o.positions, (a, s)), rest + PledgedBefore(o, cfg, id, a, s), net + NetBefore(o, cfg, id, a, s))
    ensures BooksAt(o', cfg, opening, a, s) <==>
            Tidy(Positions.At(o'.positions, (a, s)), rest + PledgedAt(order, cfg, a, s), net + if OnBook(order, cfg, a, s) then Net(order) else 0.0)
  {
    rest, net := BooksBefore(o, cfg, opening, id, a, s);
    BooksAfter(o, o', cfg, opening, id, order, a, s, rest, net);
  }

  lemma OwnUnmoved(o: OmsState, o': OmsState, cfg: Config, opening: Positions.Book, id: int, order: Order, a: int, s: string)
    requires Books(o, cfg, opening) && Checked(cfg, s) && id in o.orders && o'.orders == o.orders[id := order] && o'.positions == o.positions
    requires OnBook(o.orders[id], cfg, a, s) && OnBook(order, cfg, a, s)
    ensures BooksAt(o', cfg, opening, a, s) <==> Pledged(order) == Pledged(o.orders[id]) && Net(order) == Net(o.orders[id])
  {
    var rest, net := PlacedSums(o, o', cfg, opening, id, order, a, s);
  }

  /** If positions stay, what the order leaves to sell and what it traded must stay. */
  lemma UnmovedBooks(o: OmsState, o': OmsState, cfg: Config, opening: Positions.Book, id: int, order: Order)
    requires Books(o, cfg, opening) && id in o.orders && o'.orders == o.orders[id := order] && SameTerms(o.orders[id], order)
    requires o'.positions == o.positions
    ensures Books(o', cfg, opening) <==>
            OrderOk(order, cfg) && (CheckedOrder(cfg, order) ==> Pledged(order) == Pledged(o.orders[id]) && Net(order) == Net(o.orders[id]))
  {
    ReplacedBooks(o, o', cfg, opening, id, order);
    if CheckedOrder(cfg, order) {
      OwnUnmoved(o, o', cfg, opening, id, order, order.account, cfg.instruments[order.instrument].pos);
    }
  }

  // ---------------------------------------------------------------------
  // Reports
  // ---------------------------------------------------------------------

  /** What a report does to the positions, given its context and the updated order. */
  function PositionsAfter(positions: Positions.Book, holds: Reservations.Book, c: Option<Context>, r: Report, after: Order, closing: bool): Positions.Book {
    var p := if c.Some? && c.value.inst.bookkeeping then BookFills(positions, holds, c.value, r.orderId, r.entries).0 else positions;
    if closing then Cleanup(p, c, after) else p
  }

  /** The position a report is about, on a checked instrument: its trades are settled, and closing thaws the rest. */
  lemma OwnAfter(p: Positions.Book, h: Reservations.Book, c: Context, r: Report, after: Order, closing: bool)
    requires c.inst.bookkeeping && c.inst.balanceCheck && Tidy(PositionOf(p, c), PositionOf(p, c).frozen, PositionOf(p, c).total) && NonNegativeTrades(r.entries)
    ensures var q := if IsBuy(c) then Bought(PositionOf(p, c), r.entries) else Sold(PositionOf(p, c), r.entries);
            PositionOf(PositionsAfter(p, h, Some(c), r, after, closing), c) == Positions.Thawed(q, Thaw(after, closing))
  {
    FillsSettle(p, h, c, r.orderId, r.entries);
    SoldBounds(PositionOf(p, c), r.entries);
    BoughtRises(PositionOf(p, c), r.entries);
    CleanupAt(BookFills(p, h, c, r.orderId, r.entries).0, c, after, (c.account, c.inst.pos));
  }

  /** No other position moves. */
  lemma OthersAfter(p: Positions.Book, h: Reservations.Book, c: Option<Context>, r: Report, after: Order, closing: bool, key: (int, string))
    requires c.Some? ==> key != (c.value.account, c.value.inst.pos)
    ensures Positions.At(PositionsAfter(p, h, c, r, after, closing), key) == Positions.At(p, key)
  {
    if c.Some? { FillsTouchOne(p, h, c.value, r.orderId, r.entries); }
  }

  lemma ProcessParts(o: OmsState, cfg: Config, r: Report, via: Via)
    requires Known(o, r)
    ensures var id, o' := Target(r).value, ProcessReport(o, cfg, r, via);
            var (after, updated) := UpdateOrder(o.orders[id], r.entries);
            && o'.orders == o.orders[id := after]
            && o'.positions == PositionsAfter(o.positions, o.holds, ContextFor(o, cfg, r, via), r, after, updated && Terminal(after.status))
  {}

  /** The order of a known report is on a checked instrument. */
  ghost predicate OnChecked(o: OmsState, cfg: Config, r: Report)
    requires Known(o, r)
  {
    CheckedOrder(cfg, o.orders[Target(r).value])
  }

  /** The books after a report come down to the order and its own position. */
  lemma ReportBooks(o: OmsState, cfg: Config, opening: Positions.Book, r: Report, via: Via)
    requires Books(o, cfg, opening) && Known(o, r)
    ensures var id, o' := Target(r).value, ProcessReport(o, cfg, r, via);
            var order := o.orders[id];
            Books(o', cfg, opening) <==>
            && OrderOk(o'.orders[id], cfg)
            && (OnChecked(o, cfg, r) ==> BooksAt(o', cfg, opening, order.account, cfg.instruments[order.instrument].pos))
  {
    var id, o', c := Target(r).value, ProcessReport(o, cfg, r, via), ContextFor(o, cfg, r, via);
    var order := o.orders[id];
    var (after, updated) := UpdateOrder(order, r.entries);
    UpdateKeeps(order, r.entries);
    ProcessParts(o, cfg, r, via);
    forall a, s | !OnBook(after, cfg, a, s) ensures Positions.At(o'.positions, (a, s)) == Positions.At(o.positions, (a, s)) {
      OthersAfter(o.positions, o.holds, c, r, after, updated && Terminal(after.status), (a, s));
    }
    ReplacedBooks(o, o', cfg, opening, id, after);
  }

  /** The own position of a report on a checked instrument, before and after, in terms of what is not its order's. */
  lemma ReportOwn(o: OmsState, cfg: Config, opening: Positions.Book, r: Report, via: Via) returns (rest: real, net: real)
    requires Books(o, cfg, opening) && Known(o, r) && OnChecked(o, cfg, r) && NonNegativeTrades(r.entries)
    ensures rest >= 0.0
    ensures var id, o' := Target(r).value, ProcessReport(o, cfg, r, via);
            var order := o.orders[id];
            var (after, updated) := UpdateOrder(order, r.entries);
            var key := (order.account, cfg.instruments[order.instrument].pos);
            var p := Positions.At(o.positions, key);
            var q := if CarriesOrder(o, r, via) && order.side.Buy? then Bought(p, r.entries) else Sold(p, r.entries);
            && Tidy(p, rest + Pledged(order), net + Net(order))
            && (BooksAt(o', cfg, opening, key.0, key.1) <==>
                Tidy(Positions.Thawed(q, Thaw(after, updated && Terminal(after.status))), rest + Pledged(after), net + Net(after)))
  {
    var id := Target(r).value;
    var order := o.orders[id];
    var c := Context(order.account, cfg.instruments[order.instrument], if CarriesOrder(o, r, via) then Some(order) else None);
    UpdateKeeps(order, r.entries);
    ProcessParts(o, cfg, r, via);
    rest, net := OwnBooks(o, ProcessReport(o, cfg, r, via), cfg, opening, id, UpdateOrder(order, r.entries).0, c, r, UpdateOrder(order, r.entries).1);
  }

  lemma OwnBooks(o: OmsState, o': OmsState, cfg: Config, opening: Positions.Book, id: int, after: Order, c: Context, r: Report, updated: bool)
    returns (rest: real, net: real)
    requires Books(o, cfg, opening) && id in o.orders && o'.orders == o.orders[id := after] && SameTerms(o.orders[id], after)
    requires CheckedOrder(cfg, after) && c.account == after.account && c.inst == cfg.instruments[after.instrument] && NonNegativeTrades(r.entries)
    requires o'.positions == PositionsAfter(o.positions, o.holds, Some(c), r, after, updated && Terminal(after.status))
    ensures rest >= 0.0 && Tidy(PositionOf(o.positions, c), rest + Pledged(o.orders[id]), net + Net(o.orders[id]))
    ensures var q := if IsBuy(c) then Bought(PositionOf(o.positions, c), r.entries) else Sold(PositionOf(o.positions, c), r.entries);
            BooksAt(o', cfg, opening, c.account, c.inst.pos) <==>
            Tidy(Positions.Thawed(q, Thaw(after, updated && Terminal(after.status))), rest + Pledged(after), net + Net(after))
  {
    rest, net := BooksBefore(o, cfg, opening, id, c.account, c.inst.pos);
    OwnAfter(o.positions, o.holds, c, r, after, updated && Terminal(after.status));
    BooksAfter(o, o', cfg, opening, id, after, c.account, c.inst.pos, rest, net);
  }

  /** The position an order is booked against. */
  function PositionFor(o: OmsState, cfg: Config, order: Order): Positions.Position
    requires order.instrument in cfg.instruments
  {
    Positions.At(o.positions, (order.account, cfg.instruments[order.instrument].pos))
  }

  /** What a report takes out of the frozen part is what was set aside for its sell - or nothing should be frozen any more. */
  ghost predicate TakesOwn(o: OmsState, cfg: Config, r: Report)
    requires Known(o, r) && OnChecked(o, cfg, r)
  {
    var order := o.orders[Target(r).value];
    var (after, updated) := UpdateOrder(order, r.entries);
    Takes(PositionFor(o, cfg, order), TradedIn(r.entries), Thaw(after, updated && Terminal(after.status)), Pledged(order), Pledged(after))
  }

  /** The position of a checked order is tidy, and what is set aside for it is frozen. */
  lemma OwnFrozen(o: OmsState, cfg: Config, opening: Positions.Book, id: int)
    requires Books(o, cfg, opening) && id in o.orders && CheckedOrder(cfg, o.orders[id])
    ensures var p := PositionFor(o, cfg, o.orders[id]); Tidy(p, p.frozen, p.total) && Pledged(o.orders[id]) <= p.frozen
  {
    var order := o.orders[id];
    var rest, net := BooksBefore(o, cfg, opening, id, order.account, cfg.instruments[order.instrument].pos);
  }

  /** A report on a sell, live or closed, whatever it says: exactly when the books survive it. */
  lemma SellReport(o: OmsState, cfg: Config, opening: Positions.Book, r: Report, via: Via)
    requires Books(o, cfg, opening) && Known(o, r) && OnChecked(o, cfg, r) && NonNegativeTrades(r.entries) && o.orders[Target(r).value].side.Sell?
    ensures Books(ProcessReport(o, cfg, r, via), cfg, opening) <==>
            OrderOk(UpdateOrder(o.orders[Target(r).value], r.entries).0, cfg) && TakesOwn(o, cfg, r)
  {
    var order := o.orders[Target(r).value];
    var (after, updated) := UpdateOrder(order, r.entries);
    UpdateKeeps(order, r.entries);
    ReportBooks(o, cfg, opening, r, via);
    var rest, net := ReportOwn(o, cfg, opening, r, via);
    if OrderOk(after, cfg) {
      SoldAndThawed(PositionFor(o, cfg, order), r.entries, Thaw(after, updated && Terminal(after.status)), rest, Pledged(order), Pledged(after));
    }
  }

  /** The sell traded no more than the state it closed with says was filled. */
  predicate Covered(order: Order) { order.traded <= Min(order.filled, order.qty) }

  /**
   A report on an open sell, whether or not its state agrees with its trades: if the order stays open, the
   books survive exactly when it has not traded more than its quantity; if it closes, exactly when the state
   it closes with covers its trades - or nothing else is frozen, and the total covers the report.
   */
  lemma LiveSell(o: OmsState, cfg: Config, opening: Positions.Book, r: Report, via: Via)
    requires Books(o, cfg, opening) && Known(o, r) && OnChecked(o, cfg, r) && NonNegativeTrades(r.entries)
    requires o.orders[Target(r).value].side.Sell? && !Terminal(o.orders[Target(r).value].status)
    ensures var order := o.orders[Target(r).value];
            var after := UpdateOrder(order, r.entries).0;
            Books(ProcessReport(o, cfg, r, via), cfg, opening) <==>
            if !Terminal(after.status) then after.traded <= after.qty
            else Covered(after) || (PositionFor(o, cfg, order).frozen == Pledged(order) && TradedIn(r.entries) <= PositionFor(o, cfg, order).total)
  {
    var order := o.orders[Target(r).value];
    UpdateKeeps(order, r.entries);
    TradedNonNegative(r.entries);
    SellReport(o, cfg, opening, r, via);
    OwnFrozen(o, cfg, opening, Target(r).value);
    var after := UpdateOrder(order, r.entries).0;
    if OrderOk(after, cfg) {
      LiveTakes(PositionFor(o, cfg, order), order.qty, order.traded, TradedIn(r.entries), after.filled, Terminal(after.status));
    }
  }

  /**
   A report on a sell that was closed before and stays closed: it thaws the unfilled quantity a second time.
   The books survive exactly when it is no update, or the order is completely filled and its trades come out
   of what was set aside for it, or nothing else is frozen, nothing stays set aside and the total covers it.
   */
  lemma LateReport(o: OmsState, cfg: Config, opening: Positions.Book, r: Report, via: Via)
    requires Books(o, cfg, opening) && Known(o, r) && OnChecked(o, cfg, r) && NonNegativeTrades(r.entries)
    requires o.orders[Target(r).value].side.Sell? && Terminal(o.orders[Target(r).value].status)
    requires Terminal(UpdateOrder(o.orders[Target(r).value], r.entries).0.status)
    ensures var order := o.orders[Target(r).value];
            var (after, updated) := UpdateOrder(order, r.entries);
            Books(ProcessReport(o, cfg, r, via), cfg, opening) <==>
            || !updated
            || (after.qty <= after.filled && Pledged(after) == Pledged(order) - TradedIn(r.entries))
            || (PositionFor(o, cfg, order).frozen == Pledged(order) && Pledged(after) == 0.0 && TradedIn(r.entries) <= PositionFor(o, cfg, order).total)
  {
    var order := o.orders[Target(r).value];
    UpdateKeeps(order, r.entries);
    UpdateFills(order, r.entries);
    TradedNonNegative(r.entries);
    SellReport(o, cfg, opening, r, via);
    OwnFrozen(o, cfg, opening, Target(r).value);
    var (after, updated) := UpdateOrder(order, r.entries);
    if updated { LateTakes(PositionFor(o, cfg, order), order.qty, order.traded, TradedIn(r.entries), order.filled, after.filled); }
  }

  /**
   A report that opens a closed sell again, as a linkage that comes alone does to a rejected one. What it has
   left is set aside again without being frozen, so the books survive exactly when all of it was set aside
   still, or it has nothing left - and any volume is covered.
   */
  lemma Reopened(o: OmsState, cfg: Config, opening: Positions.Book, r: Report, via: Via)
    requires Books(o, cfg, opening) && Known(o, r) && OnChecked(o, cfg, r) && NonNegativeTrades(r.entries)
    requires o.orders[Target(r).value].side.Sell? && Terminal(o.orders[Target(r).value].status)
    requires !Terminal(UpdateOrder(o.orders[Target(r).value], r.entries).0.status)
    ensures var order := o.orders[Target(r).value];
            var after := UpdateOrder(order, r.entries).0;
            Books(ProcessReport(o, cfg, r, via), cfg, opening) <==>
            && after.traded <= after.qty
            && (|| Pledged(order) == order.qty - order.traded
                || (after.traded == after.qty &&
                    (TradedIn(r.entries) == 0.0 ||
                     (PositionFor(o, cfg, order).frozen == Pledged(order) && TradedIn(r.entries) <= PositionFor(o, cfg, order).total))))
  {
    var order := o.orders[Target(r).value];
    UpdateKeeps(order, r.entries);
    TradedNonNegative(r.entries);
    SellReport(o, cfg, opening, r, via);
    OwnFrozen(o, cfg, opening, Target(r).value);
    if order.traded + TradedIn(r.entries) <= order.qty {
      ReopenTakes(PositionFor(o, cfg, order), order.qty, order.traded, TradedIn(r.entries), order.filled);
    }
  }

  /**
   A report on a buy, live or closed, has nothing to unfreeze: the books survive exactly when it leaves the
   order sound and its trades, if any, are booked as buys.
   */
  lemma BuyReport(o: OmsState, cfg: Config, opening: Positions.Book, r: Report, via: Via)
    requires Books(o, cfg, opening) && Known(o, r) && OnChecked(o, cfg, r) && NonNegativeTrades(r.entries) && o.orders[Target(r).value].side.Buy?
    ensures Books(ProcessReport(o, cfg, r, via), cfg, opening) <==>
            && OrderOk(UpdateOrder(o.orders[Target(r).value], r.entries).0, cfg)
            && (TradedIn(r.entries) == 0.0 || CarriesOrder(o, r, via))
  {
    var order := o.orders[Target(r).value];
    var p := PositionFor(o, cfg, order);
    UpdateKeeps(order, r.entries);
    TradedNonNegative(r.entries);
    ReportBooks(o, cfg, opening, r, via);
    var rest, net := ReportOwn(o, cfg, opening, r, via);
    if CarriesOrder(o, r, via) {
      BoughtRises(p, r.entries);
    } else if TradedIn(r.entries) == 0.0 {
      NothingSold(p, r.entries);
    } else {
      SoldBounds(p, r.entries);
      SoldIsNotBought(p, r.entries, rest);
    }
  }

  /** What a report must bring: no negative trade, and no trade at all of an order that was never sent. */
  ghost predicate ProperReport(o: OmsState, cfg: Config, r: Report) {
    Known(o, r) ==>
      && NonNegativeTrades(r.entries)
      && (o.orders[Target(r).value].side.OtherSide? && OnChecked(o, cfg, r) ==> TradedIn(r.entries) == 0.0)
  }

  /** The report leaves its order sound, books a buy as a buy, and takes out of the frozen part what is its own. */
  ghost predicate SoundReport(o: OmsState, cfg: Config, r: Report, via: Via) {
    Known(o, r) ==>
      && OrderOk(UpdateOrder(o.orders[Target(r).value], r.entries).0, cfg)
      && (OnChecked(o, cfg, r) ==>
            match o.orders[Target(r).value].side
            case Buy => TradedIn(r.entries) == 0.0 || CarriesOrder(o, r, via)
            case Sell => TakesOwn(o, cfg, r)
            case OtherSide => true)
  }

  lemma OtherReport(o: OmsState, cfg: Config, opening: Positions.Book, r: Report, via: Via)
    requires Books(o, cfg, opening) && Known(o, r) && OnChecked(o, cfg, r) && o.orders[Target(r).value].side.OtherSide? && ProperReport(o, cfg, r)
    ensures Books(ProcessReport(o, cfg, r, via), cfg, opening) <==> OrderOk(UpdateOrder(o.orders[Target(r).value], r.entries).0, cfg)
  {
    UpdateKeeps(o.orders[Target(r).value], r.entries);
    ReportBooks(o, cfg, opening, r, via);
    var rest, net := ReportOwn(o, cfg, opening, r, via);
    NothingSold(PositionFor(o, cfg, o.orders[Target(r).value]), r.entries);
  }

  /** Any proper report, on any order, live or closed, keeps the books exactly when it is sound. */
  lemma ReportKeepsBooks(o: OmsState, cfg: Config, opening: Positions.Book, r: Report, via: Via)
    requires Books(o, cfg, opening) && ProperReport(o, cfg, r)
    ensures Books(ProcessReport(o, cfg, r, via), cfg, opening) <==> SoundReport(o, cfg, r, via)
  {
    if Known(o, r) {
      if OnChecked(o, cfg, r) {
        match o.orders[Target(r).value].side
        case Buy => BuyReport(o, cfg, opening, r, via);
        case Sell => SellReport(o, cfg, opening, r, via);
        case OtherSide => OtherReport(o, cfg, opening, r, via);
      } else {
        ReportBooks(o, cfg, opening, r, via);
      }
    }
  }

  /** A linkage that comes alone opens a rejected order again. */
  lemma LinkageReopens(order: Order)
    requires order.status.Rejected?
    ensures UpdateOrder(order, [Linkage]) == (order.(status := Booked), true)
  {
    var entries := [Linkage];
    assert entries[..0] == [];
    assert Fold(order, entries[..0], true) == (order, false);
  }

  /** A replayed report leaves positions alone, so the books survive exactly when it moves no volume and no open quantity. */
  lemma ReplayKeepsBooks(o: OmsState, cfg: Config, opening: Positions.Book, id: int, entries: seq<Entry>)
    requires Books(o, cfg, opening) && id in o.orders
    ensures var order, after := o.orders[id], UpdateOrder(o.orders[id], entries).0;
            Books(Replay(o, id, entries), cfg, opening) <==>
            && OrderOk(after, cfg)
            && (CheckedOrder(cfg, order) ==>
                  Pledged(after) == Pledged(order) && (TradedIn(entries) == 0.0 || order.side.OtherSide?))
  {
    var order, after, o' := o.orders[id], UpdateOrder(o.orders[id], entries).0, Replay(o, id, entries);
    UpdateKeeps(order, entries);
    UnmovedBooks(o, o', cfg, opening, id, after);
  }

  // ---------------------------------------------------------------------
  // Placing and re-checking
  // ---------------------------------------------------------------------

  predicate Freezes(cfg: Config, req: Request)
    requires req.instrument in cfg.instruments
  {
    var inst := cfg.instruments[req.instrument];
    req.side.Sell? && inst.bookkeeping && !inst.useMargin && inst.balanceCheck
  }

  /** `b'` is `b` after a sell of `qty` was placed, if `frozen`; otherwise it is `b`. */
  ghost predicate FrozenFrom(b: Positions.Book, b': Positions.Book, frozen: bool, account: int, symbol: string, qty: real) {
    if frozen then Positions.CheckAndFreeze(b, account, symbol, qty) == Some(b') else b' == b
  }

  /** Only a balance-checked sell touches positions when it is placed, and then only by freezing. */
  lemma PlacedPositions(o: OmsState, cfg: Config, req: Request)
    requires Accepted(o, cfg, req)
    ensures FrozenFrom(o.positions, Place(o, cfg, req).positions, Freezes(cfg, req), req.account, cfg.instruments[req.instrument].pos, req.qty)
  {}

  lemma FrozenMoves(b: Positions.Book, b': Positions.Book, frozen: bool, order: Order, cfg: Config, symbol: string, qty: real, a: int, s: string)
    requires FrozenFrom(b, b', frozen, order.account, symbol, qty) && (frozen ==> OnBook(order, cfg, order.account, symbol))
    ensures var x := if frozen && OnBook(order, cfg, a, s) then qty else 0.0;
            Positions.At(b', (a, s)) == Positions.Frozen(Positions.At(b, (a, s)), x) && (x == 0.0 || x <= Positions.At(b, (a, s)).available)
  {
    if frozen { Positions.FreezeAt(b, order.account, symbol, qty, (a, s)); }
  }

  /**
   A new order keeps the books at a position exactly when it sets aside what was frozen for it and what the
   order it replaces set aside, and that one had not traded.
   */
  lemma PlacedBooksAt(o: OmsState, o': OmsState, cfg: Config, opening: Positions.Book, id: int, order: Order, frozen: bool, symbol: string, qty: real, a: int, s: string)
    requires Books(o, cfg, opening) && Checked(cfg, s) && o'.orders == o.orders[id := order] && order.traded == 0.0 && OrderOk(order, cfg)
    requires FrozenFrom(o.positions, o'.positions, frozen, order.account, symbol, qty)
    requires frozen ==> OnBook(order, cfg, order.account, symbol)
    ensures BooksAt(o', cfg, opening, a, s) <==>
            && NetBefore(o, cfg, id, a, s) == 0.0
            && PledgedAt(order, cfg, a, s) == PledgedBefore(o, cfg, id, a, s) + if frozen && OnBook(order, cfg, a, s) then qty else 0.0
  {
    var rest, net := PlacedSums(o, o', cfg, opening, id, order, a, s);
    FrozenMoves(o.positions, o'.positions, frozen, order, cfg, symbol, qty, a, s);
    FrozenTidy(Positions.At(o.positions, (a, s)), if frozen && OnBook(order, cfg, a, s) then qty else 0.0, rest,
               PledgedBefore(o, cfg, id, a, s), PledgedAt(order, cfg, a, s), net, NetBefore(o, cfg, id, a, s));
  }

  /** What placing an order freezes. */
  function Freezing(o: OmsState, cfg: Config, req: Request): real {
    if Accepted(o, cfg, req) && Freezes(cfg, req) then req.qty else 0.0
  }

  function SymbolOf(order: Order, cfg: Config): string
    requires order.instrument in cfg.instruments
  {
    cfg.instruments[order.instrument].pos
  }

  /** The new order is sound and sets aside what is frozen for it; one that it replaces had not traded, and what that one set aside is still accounted for. */
  ghost predicate SoundPlace(o: OmsState, cfg: Config, req: Request) {
    req.account in o.panicked ||
    var order := NewOrder(cfg, req, Accepted(o, cfg, req));
    && OrderOk(order, cfg)
    && (CheckedOrder(cfg, order) ==>
          Pledged(order) == PledgedBefore(o, cfg, req.id, order.account, SymbolOf(order, cfg)) + Freezing(o, cfg, req))
    && (req.id in o.orders && CheckedOrder(cfg, o.orders[req.id]) ==>
          var replaced := o.orders[req.id];
          && Net(replaced) == 0.0
          && (OnBook(order, cfg, replaced.account, SymbolOf(replaced, cfg)) || Pledged(replaced) == 0.0))
  }

  /** Placing an order, under a fresh id or not, rounded or not, keeps the books exactly when it is sound. */
  lemma PlaceKeepsBooks(o: OmsState, cfg: Config, opening: Positions.Book, req: Request)
    requires Books(o, cfg, opening)
    ensures Books(Place(o, cfg, req), cfg, opening) <==> SoundPlace(o, cfg, req)
  {
    var o', ok := Place(o, cfg, req), Accepted(o, cfg, req);
    if req.account in o.panicked {
      SameBooks(o, o', cfg, opening);
    } else {
      var order := NewOrder(cfg, req, ok);
      assert o'.orders == o.orders[req.id := order] && o'.orders[req.id] == order;
      if ok { PlacedPositions(o, cfg, req); }
      var symbol := if ok then cfg.instruments[req.instrument].pos else "";
      if OrderOk(order, cfg) { PlacedBooks(o, o', cfg, opening, req, order, ok && Freezes(cfg, req), symbol); }
    }
  }

  lemma PlacedBooks(o: OmsState, o': OmsState, cfg: Config, opening: Positions.Book, req: Request, order: Order, frozen: bool, symbol: string)
    requires Books(o, cfg, opening) && req.account !in o.panicked && order == NewOrder(cfg, req, Accepted(o, cfg, req)) && OrderOk(order, cfg)
    requires o'.orders == o.orders[req.id := order] && frozen == (Accepted(o, cfg, req) && Freezes(cfg, req))
    requires FrozenFrom(o.positions, o'.positions, frozen, order.account, symbol, req.qty)
    requires frozen ==> OnBook(order, cfg, order.account, symbol)
    ensures Books(o', cfg, opening) <==> SoundPlace(o, cfg, req)
  {
    forall a, s | Checked(cfg, s)
      ensures BooksAt(o', cfg, opening, a, s) <==>
              && NetBefore(o, cfg, req.id, a, s) == 0.0
              && PledgedAt(order, cfg, a, s) == PledgedBefore(o, cfg, req.id, a, s) + if OnBook(order, cfg, a, s) then Freezing(o, cfg, req) else 0.0
    {
      PlacedBooksAt(o, o', cfg, opening, req.id, order, frozen, symbol, req.qty, a, s);
    }
    if SoundPlace(o, cfg, req) {
      forall a, s | Checked(cfg, s) ensures BooksAt(o', cfg, opening, a, s) {}
    } else if CheckedOrder(cfg, order) && Pledged(order) != PledgedBefore(o, cfg, req.id, order.account, SymbolOf(order, cfg)) + Freezing(o, cfg, req) {
      assert !BooksAt(o', cfg, opening, order.account, SymbolOf(order, cfg));
    } else {
      assert !BooksAt(o', cfg, opening, o.orders[req.id].account, SymbolOf(o.orders[req.id], cfg));
    }
  }

  /** The venue's precision leaves the quantity of an accepted order alone, as far as it is frozen. */
  ghost predicate ExactQty(o: OmsState, cfg: Config, req: Request) {
    Accepted(o, cfg, req) ==>
      var scaled := cfg.instruments[req.instrument].scaleQty(req.qty);
      0.0 <= scaled && (req.side.Sell? ==> scaled == req.qty)
  }

  /**
   The request's quantity is frozen but the order carries the quantity rounded to the venue's
   precision, so an accepted sell keeps the books exactly when rounding changes nothing.
   */
  lemma SellRoundingLeak(o: OmsState, cfg: Config, opening: Positions.Book, req: Request)
    requires Books(o, cfg, opening) && req.id !in o.orders && Accepted(o, cfg, req) && req.side.Sell?
    requires Checked(cfg, cfg.instruments[req.instrument].pos) && 0.0 <= cfg.instruments[req.instrument].scaleQty(req.qty)
    ensures Books(Place(o, cfg, req), cfg, opening) <==> cfg.instruments[req.instrument].scaleQty(req.qty) == req.qty
  {
    PlaceKeepsBooks(o, cfg, opening, req);
  }

  /**
   An order placed under an id that is already in the book replaces the order there: the books survive
   exactly when that one had not traded and nothing was set aside for it.
   */
  lemma Overwritten(o: OmsState, cfg: Config, opening: Positions.Book, req: Request)
    requires Books(o, cfg, opening) && req.id in o.orders && req.account !in o.panicked && ExactQty(o, cfg, req)
    ensures Books(Place(o, cfg, req), cfg, opening) <==>
            (CheckedOrder(cfg, o.orders[req.id]) ==> Net(o.orders[req.id]) == 0.0 == Pledged(o.orders[req.id]))
  {
    PlaceKeepsBooks(o, cfg, opening, req);
    FrozenIsPledged(o, cfg, req);
  }

  /** An order that rounding leaves alone sets aside what is frozen for it. */
  lemma FrozenIsPledged(o: OmsState, cfg: Config, req: Request)
    requires req.account !in o.panicked && ExactQty(o, cfg, req)
    ensures var order := NewOrder(cfg, req, Accepted(o, cfg, req));
            OrderOk(order, cfg) && (CheckedOrder(cfg, order) ==> Pledged(order) == Freezing(o, cfg, req))
  {}

  /** The timed-out order is a sell for which more is frozen than its rejection leaves set aside. */
  ghost predicate Stranded(o: OmsState, cfg: Config, id: int) {
    && id in o.orders && o.orders[id].status.Pending? && o.orders[id].side.Sell? && CheckedOrder(cfg, o.orders[id])
    && o.orders[id].filled < o.orders[id].qty && o.orders[id].traded < o.orders[id].qty
  }

  /** Rejecting a timed-out order keeps the books exactly when no sell quantity is left frozen behind it. */
  lemma RecheckKeepsBooks(o: OmsState, cfg: Config, opening: Positions.Book, id: int)
    requires Books(o, cfg, opening)
    ensures Books(Recheck(o, id), cfg, opening) <==> !Stranded(o, cfg, id)
  {
    if id in o.orders && o.orders[id].status.Pending? {
      var order, o' := o.orders[id], Recheck(o, id);
      UnmovedBooks(o, o', cfg, opening, id, o'.orders[id]);
    }
  }

  // ---------------------------------------------------------------------
  // Whole runs
  // ---------------------------------------------------------------------

  datatype Step =
    | PlaceStep(req: Request)
    | CancelStep(id: int)
    | ReportStep(r: Report, via: Via)
    | ReplayStep(id: int, entries: seq<Entry>)
    | RecheckStep(id: int)
    | PanicStep(account: int, on: bool)
    | BalanceStep(key: (int, string), available: real)

  ghost function Apply(o: OmsState, cfg: Config, step: Step): OmsState {
    match step
    case PlaceStep(req) => Place(o, cfg, req)
    case CancelStep(id) => Cancel(o, id)
    case ReportStep(r, via) => ProcessReport(o, cfg, r, via)
    case ReplayStep(id, entries) => Replay(o, id, entries)
    case RecheckStep(id) => Recheck(o, id)
    case PanicStep(account, on) => o.(panicked := if on then o.panicked + {account} else o.panicked - {account})
    case BalanceStep(key, available) => o.(balances := o.balances[key := available])
  }

  ghost function Run(o: OmsState, cfg: Config, steps: seq<Step>): OmsState
    decreases |steps|
  {
    if steps == [] then o else Run(Apply(o, cfg, steps[0]), cfg, steps[1..])
  }

  /** Reports bring no negative trade. */
  ghost predicate Proper(o: OmsState, cfg: Config, step: Step) {
    step.ReportStep? ==> ProperReport(o, cfg, step.r)
  }

  /** Exactly what each step needs to keep the books. */
  ghost predicate Sound(o: OmsState, cfg: Config, step: Step) {
    match step
    case PlaceStep(req) => SoundPlace(o, cfg, req)
    case ReportStep(r, via) => SoundReport(o, cfg, r, via)
    case ReplayStep(id, entries) =>
      id in o.orders ==>
        var order, after := o.orders[id], UpdateOrder(o.orders[id], entries).0;
        && OrderOk(after, cfg)
        && (CheckedOrder(cfg, order) ==> Pledged(after) == Pledged(order) && (TradedIn(entries) == 0.0 || order.side.OtherSide?))
    case RecheckStep(id) => !Stranded(o, cfg, id)
    case _ => true
  }

  ghost predicate AllProper(o: OmsState, cfg: Config, steps: seq<Step>)
    decreases |steps|
  {
    steps == [] || (Proper(o, cfg, steps[0]) && AllProper(Apply(o, cfg, steps[0]), cfg, steps[1..]))
  }

  ghost predicate AllSound(o: OmsState, cfg: Config, steps: seq<Step>)
    decreases |steps|
  {
    steps == [] || (Sound(o, cfg, steps[0]) && AllSound(Apply(o, cfg, steps[0]), cfg, steps[1..]))
  }

  /** The books hold before and after every step. */
  ghost predicate BooksThroughout(o: OmsState, cfg: Config, opening: Positions.Book, steps: seq<Step>)
    decreases |steps|
  {
    Books(o, cfg, opening) && (steps == [] || BooksThroughout(Apply(o, cfg, steps[0]), cfg, opening, steps[1..]))
  }

  lemma SameBooks(o: OmsState, o': OmsState, cfg: Config, opening: Positions.Book)
    requires Books(o, cfg, opening) && o'.orders == o.orders && o'.positions == o.positions
    ensures Books(o', cfg, opening)
  {
    forall a, s | Checked(cfg, s) ensures BooksAt(o', cfg, opening, a, s) {
      assert BooksAt(o, cfg, opening, a, s);
    }
  }

  /** A step of any kind keeps the books exactly when it is sound. */
  lemma StepKeepsBooks(o: OmsState, cfg: Config, opening: Positions.Book, step: Step)
    requires Books(o, cfg, opening) && Proper(o, cfg, step)
    ensures Books(Apply(o, cfg, step), cfg, opening) <==> Sound(o, cfg, step)
  {
    match step
    case PlaceStep(req) => PlaceKeepsBooks(o, cfg, opening, req);
    case ReportStep(r, via) => ReportKeepsBooks(o, cfg, opening, r, via);
    case ReplayStep(id, entries) => if id in o.orders { ReplayKeepsBooks(o, cfg, opening, id, entries); }
    case RecheckStep(id) => RecheckKeepsBooks(o, cfg, opening, id);
    case _ => SameBooks(o, Apply(o, cfg, step), cfg, opening);
  }

  /**
   In any run, whatever is placed and reported, on live orders and closed ones: the books hold throughout
   exactly when every step is sound. Then, on every checked symbol, available + frozen is the total, frozen
   is what is set aside for sells, and the total is the opening plus what was bought less what was sold.
   */
  lemma {:induction false} RunKeepsBooks(o: OmsState, cfg: Config, opening: Positions.Book, steps: seq<Step>)
    requires Books(o, cfg, opening) && AllProper(o, cfg, steps)
    ensures BooksThroughout(o, cfg, opening, steps) <==> AllSound(o, cfg, steps)
    ensures AllSound(o, cfg, steps) ==> Books(Run(o, cfg, steps), cfg, opening)
    decreases |steps|
  {
    if steps != [] {
      StepKeepsBooks(o, cfg, opening, steps[0]);
      if Sound(o, cfg, steps[0]) { RunKeepsBooks(Apply(o, cfg, steps[0]), cfg, opening, steps[1..]); }
    }
  }

  // ---------------------------------------------------------------------
  // What the venue and the configuration owe, and what the core owes besides
  // ---------------------------------------------------------------------

  /**
   The venue does not overfill, and closes a sell with a state that covers its trades; a state may well run
   ahead of the trades. After that it reports trades only on sells that were completely filled.
   */
  ghost predicate FairReport(o: OmsState, r: Report) {
    Known(o, r) ==>
      var order := o.orders[Target(r).value];
      var (after, updated) := UpdateOrder(order, r.entries);
      && after.traded <= order.qty
      && (order.side.Sell? ==> if Terminal(order.status) then !updated || order.qty <= order.filled else Terminal(after.status) ==> Covered(after))
      && (order.side.OtherSide? && Terminal(order.status) ==> Terminal(after.status))
  }

  /** Fresh ids, quantities that rounding leaves alone, fair reports, no frozen sell timed out. */
  ghost predicate Fair(o: OmsState, cfg: Config, step: Step) {
    match step
    case PlaceStep(req) => req.id !in o.orders && ExactQty(o, cfg, req)
    case ReportStep(r, _) => FairReport(o, r)
    case RecheckStep(id) => !Stranded(o, cfg, id)
    case _ => true
  }

  ghost predicate AllFair(o: OmsState, cfg: Config, steps: seq<Step>)
    decreases |steps|
  {
    steps == [] || (Fair(o, cfg, steps[0]) && AllFair(Apply(o, cfg, steps[0]), cfg, steps[1..]))
  }

  /** Every context comes from the order book, and nothing was buffered. */
  ghost predicate AllResolved(steps: seq<Step>) {
    forall step :: step in steps ==> !step.ReplayStep? && (step.ReportStep? ==> step.via.Resolved?)
  }

  lemma FairReportKeepsBooks(o: OmsState, cfg: Config, opening: Positions.Book, r: Report, via: Via)
    requires Books(o, cfg, opening) && ProperReport(o, cfg, r) && FairReport(o, r)
    requires Known(o, r) && OnChecked(o, cfg, r) && o.orders[Target(r).value].side.Buy? ==> TradedIn(r.entries) == 0.0 || CarriesOrder(o, r, via)
    ensures Books(ProcessReport(o, cfg, r, via), cfg, opening)
  {
    ReportKeepsBooks(o, cfg, opening, r, via);
    if Known(o, r) {
      var id := Target(r).value;
      var order := o.orders[id];
      UpdateKeeps(order, r.entries);
      assert id in o.orders && OrderOk(o.orders[id], cfg);
      if OnChecked(o, cfg, r) && order.side.Sell? {
        if !Terminal(order.status) {
          LiveSell(o, cfg, opening, r, via);
        } else {
          FairLate(o, cfg, opening, r, via);
        }
      }
    }
  }

  lemma FairLate(o: OmsState, cfg: Config, opening: Positions.Book, r: Report, via: Via)
    requires Books(o, cfg, opening) && ProperReport(o, cfg, r) && FairReport(o, r) && Known(o, r) && OnChecked(o, cfg, r)
    requires o.orders[Target(r).value].side.Sell? && Terminal(o.orders[Target(r).value].status)
    ensures Books(ProcessReport(o, cfg, r, via), cfg, opening)
  {
    var order := o.orders[Target(r).value];
    var after := UpdateOrder(order, r.entries).0;
    UpdateKeeps(order, r.entries);
    UpdateFills(order, r.entries);
    TradedNonNegative(r.entries);
    if Terminal(after.status) { LateReport(o, cfg, opening, r, via); } else { Reopened(o, cfg, opening, r, via); }
  }

  /**
   With contexts taken from the order book, any fair mix of buys, sells, partial fills and closings keeps the
   books - also when states arrive before the trades they count.
   */
  lemma {:induction false} ResolvedRunKeepsBooks(o: OmsState, cfg: Config, opening: Positions.Book, steps: seq<Step>)
    requires Books(o, cfg, opening) && AllProper(o, cfg, steps) && AllFair(o, cfg, steps) && AllResolved(steps)
    ensures AllSound(o, cfg, steps) && Books(Run(o, cfg, steps), cfg, opening)
    decreases |steps|
  {
    if steps != [] {
      assert steps[0] in steps && forall step :: step in steps[1..] ==> step in steps;
      StepKeepsBooks(o, cfg, opening, steps[0]);
      match steps[0] {
        case PlaceStep(req) => FrozenIsPledgedWhere(o, cfg, req);
        case ReportStep(r, via) => FairReportKeepsBooks(o, cfg, opening, r, via);
        case _ =>
      }
      ResolvedRunKeepsBooks(Apply(o, cfg, steps[0]), cfg, opening, steps[1..]);
    }
  }

  lemma FrozenIsPledgedWhere(o: OmsState, cfg: Config, req: Request)
    requires req.id !in o.orders && ExactQty(o, cfg, req)
    ensures SoundPlace(o, cfg, req)
  {
    if req.account !in o.panicked { FrozenIsPledged(o, cfg, req); }
  }

  /** In a sound run no total falls below zero and no position turns short. */
  lemma NeverShort(o: OmsState, cfg: Config, opening: Positions.Book, steps: seq<Step>, account: int, symbol: string)
    requires Books(o, cfg, opening) && AllProper(o, cfg, steps) && AllSound(o, cfg, steps) && Checked(cfg, symbol)
    ensures var o' := Run(o, cfg, steps);
            var p := Positions.At(o'.positions, (account, symbol));
            && p.total == p.available + Sum(Pledges(o'.orders, cfg, account, symbol))
            && p.total == Positions.At(opening, (account, symbol)).total + Sum(Nets(o'.orders, cfg, account, symbol))
            && p.total >= 0.0 && p.available >= 0.0 && !p.isShort
  {
    RunKeepsBooks(o, cfg, opening, steps);
    assert BooksAt(Run(o, cfg, steps), cfg, opening, account, symbol);
  }

  /** A core with no orders starts with its books in order exactly when its positions are long, split and unfrozen. */
  lemma OpeningBooks(initial: Positions.Book, cached: set<int>, holds: Reservations.Book, panicked: set<int>, balances: map<(int, string), real>, cfg: Config)
    ensures Books(OmsState(map[], cached, initial, holds, panicked, balances), cfg, initial) <==>
            forall a, s :: Checked(cfg, s) ==> Tidy(Positions.At(initial, (a, s)), 0.0, Positions.At(initial, (a, s)).total)
  {
    var o := OmsState(map[], cached, initial, holds, panicked, balances);
    forall a, s ensures BooksAt(o, cfg, initial, a, s) <==> Tidy(Positions.At(initial, (a, s)), 0.0, Positions.At(initial, (a, s)).total) {
      assert Pledges(o.orders, cfg, a, s) == map[] && Nets(o.orders, cfg, a, s) == map[];
    }
  }

  // ---------------------------------------------------------------------
  // Where states agree with trades
  // ---------------------------------------------------------------------

  /** The unfilled quantity of an open sell. */
  function Unfilled(order: Order): real {
    if !Terminal(order.status) && order.side.Sell? then order.qty - order.filled else 0.0
  }

  ghost function Unfilleds(orders: map<int, Order>, cfg: Config, account: int, symbol: string): map<int, real> {
    map id | id in orders && OnBook(orders[id], cfg, account, symbol) :: Unfilled(orders[id])
  }

  /** Every order is filled by its trades. */
  ghost predicate Settled(o: OmsState) {
    forall id :: id in o.orders ==> o.orders[id].filled == o.orders[id].traded
  }

  /** Then what is set aside is what open sells have left. */
  lemma FrozenIsUnfilled(o: OmsState, cfg: Config, opening: Positions.Book, account: int, symbol: string)
    requires Books(o, cfg, opening) && Settled(o) && Checked(cfg, symbol)
    ensures Positions.At(o.positions, (account, symbol)).frozen == Sum(Unfilleds(o.orders, cfg, account, symbol))
  {
    assert BooksAt(o, cfg, opening, account, symbol);
    forall id | id in o.orders ensures Unfilled(o.orders[id]) == Pledged(o.orders[id]) {}
    assert Unfilleds(o.orders, cfg, account, symbol) == Pledges(o.orders, cfg, account, symbol);
  }

  /** Reports are on live orders, and their states agree with their trades. */
  ghost predicate Agreeing(o: OmsState, step: Step) {
    match step
    case ReportStep(r, _) => Known(o, r) ==> !Terminal(o.orders[Target(r).value].status) && Agrees(o.orders[Target(r).value], r.entries)
    case ReplayStep(id, entries) => id in o.orders ==> !Terminal(o.orders[id].status) && Agrees(o.orders[id], entries)
    case _ => true
  }

  ghost predicate AllAgreeing(o: OmsState, cfg: Config, steps: seq<Step>)
    decreases |steps|
  {
    steps == [] || (Agreeing(o, steps[0]) && AllAgreeing(Apply(o, cfg, steps[0]), cfg, steps[1..]))
  }

  lemma StepStaysSettled(o: OmsState, cfg: Config, step: Step)
    requires Settled(o) && Agreeing(o, step)
    ensures Settled(Apply(o, cfg, step))
  {
    match step
    case ReportStep(r, via) => if Known(o, r) { UpdateAgrees(o.orders[Target(r).value], r.entries); ProcessParts(o, cfg, r, via); }
    case ReplayStep(id, entries) => if id in o.orders { UpdateAgrees(o.orders[id], entries); }
    case _ =>
  }

  /** In a sound run of such reports the frozen part is the unfilled quantity of the open sells. */
  lemma {:induction false} AgreeingRun(o: OmsState, cfg: Config, opening: Positions.Book, steps: seq<Step>, account: int, symbol: string)
    requires Books(o, cfg, opening) && Settled(o) && AllProper(o, cfg, steps) && AllSound(o, cfg, steps) && AllAgreeing(o, cfg, steps) && Checked(cfg, symbol)
    ensures var o' := Run(o, cfg, steps);
            Positions.At(o'.positions, (account, symbol)).frozen == Sum(Unfilleds(o'.orders, cfg, account, symbol))
    decreases |steps|
  {
    if steps == [] {
      FrozenIsUnfilled(o, cfg, opening, account, symbol);
    } else {
      StepKeepsBooks(o, cfg, opening, steps[0]);
      StepStaysSettled(o, cfg, steps[0]);
      AgreeingRun(Apply(o, cfg, steps[0]), cfg, opening, steps[1..], account, symbol);
    }
  }
}
