/**
 Order accounting: placing an order freezes or reserves, a gateway report books
 its fills and then updates the order, and a terminal order gives back what it
 still holds. Functions describe one message; lemmas describe whole runs.
 */
module Oms {
  import opened Ordering
  import Positions
  import Reservations

  datatype Side = Buy | Sell | OtherSide

  datatype Status = Pending | Booked | PartiallyFilled | Filled | Cancelled | Rejected

  datatype Instrument = Instrument(fund: string, pos: string, bookkeeping: bool, balanceCheck: bool, useMargin: bool,
                                   maxOrderSize: Option<real>, scaleQty: real -> real, scalePrice: real -> real)

  /** `accounts` are the accounts routed to a configured gateway. */
  datatype Config = Config(instruments: map<string, Instrument>, accounts: set<int>, riskCheck: bool)

  /** `qty` and `price` are the scaled values sent to the gateway; `traded` sums the trade reports. */
  datatype Order = Order(account: int, instrument: string, side: Side, price: real, qty: real, filled: real, traded: real, status: Status)

  datatype Request = Request(id: int, account: int, instrument: string, side: Side, qty: real, price: real)

  datatype Entry =
    | Linkage
    | State(status: Option<Status>, filled: real, unfilled: real)
    | Trade(qty: real, price: real)
    | Reject(hasError: bool)
    | CancelReject(hasError: bool)
    | Fee

  /** A report names its order by id, or (id zero) by an exchange reference that the order book resolves to `byRef`. */
  datatype Report = Report(orderId: int, byRef: Option<int>, entries: seq<Entry>)

  /** `cached` are the orders whose context was cached when they were placed or cancelled. */
  datatype OmsState = OmsState(orders: map<int, Order>, cached: set<int>, positions: Positions.Book, holds: Reservations.Book,
                             panicked: set<int>, balances: map<(int, string), real>)

  predicate Terminal(s: Status) { s in {Filled, Cancelled, Rejected} }

  // ---------------------------------------------------------------------
  // Placing an order
  // ---------------------------------------------------------------------

  /** The order is refused before any balance is looked at. */
  predicate Refused(cfg: Config, req: Request) {
    || req.instrument !in cfg.instruments
    || req.account !in cfg.accounts
    || (cfg.riskCheck && cfg.instruments[req.instrument].maxOrderSize.Some? &&
        req.qty > cfg.instruments[req.instrument].maxOrderSize.value)
  }

  function Value(req: Request): real { req.qty * req.price }

  /** What the pre-trade checks do to positions and holds; None when they refuse the order. */
  function PreTrade(o: OmsState, cfg: Config, req: Request): Option<(Positions.Book, Reservations.Book)>
    requires !Refused(cfg, req) && req.side != OtherSide
  {
    var inst := cfg.instruments[req.instrument];
    if !inst.bookkeeping || inst.useMargin then Some((o.positions, o.holds))
    else if req.side.Buy? then
      var value := Value(req);
      var avail := if (req.account, inst.fund) in o.balances then o.balances[(req.account, inst.fund)] else 0.0;
      if inst.balanceCheck && !Reservations.Fits(o.holds, req.account, inst.fund, value, avail) then None
      else Some((o.positions, Reservations.Reserve(o.holds, req.id, Reservations.Reservation(req.account, inst.fund, value, false))))
    else
      var frozen := if inst.balanceCheck then Positions.CheckAndFreeze(o.positions, req.account, inst.pos, req.qty) else Some(o.positions);
      if frozen.None? then None
      else Some((frozen.value, Reservations.Reserve(o.holds, req.id, Reservations.Reservation(req.account, inst.pos, req.qty, true))))
  }

  predicate Unsupported(cfg: Config, req: Request) {
    req.side.OtherSide? && !Refused(cfg, req) &&
    cfg.instruments[req.instrument].bookkeeping && !cfg.instruments[req.instrument].useMargin
  }

  function NewOrder(cfg: Config, req: Request, accepted: bool): Order
    requires accepted ==> req.instrument in cfg.instruments
  {
    if accepted then
      var inst := cfg.instruments[req.instrument];
      Order(req.account, req.instrument, req.side, inst.scalePrice(req.price), inst.scaleQty(req.qty), 0.0, 0.0, Pending)
    else Order(req.account, req.instrument, req.side, req.price, req.qty, 0.0, 0.0, Rejected)
  }

  /** The order goes to the gateway and is kept as pending. */
  predicate Accepted(o: OmsState, cfg: Config, req: Request) {
    && req.account !in o.panicked && !Refused(cfg, req) && !Unsupported(cfg, req)
    && (req.side.OtherSide? || PreTrade(o, cfg, req).Some?)
  }

  /** Place an order. An account in panic places nothing. A refused order is recorded as rejected and gives up any hold under its id. */
  function Place(o: OmsState, cfg: Config, req: Request): OmsState {
    if req.account in o.panicked then o
    else if Unsupported(cfg, req) then o.(orders := o.orders[req.id := NewOrder(cfg, req, false)])
    else
      var checked := if Refused(cfg, req) then None
                     else if req.side.OtherSide? then Some((o.positions, o.holds))
                     else PreTrade(o, cfg, req);
      if checked.None? then
        o.(orders := o.orders[req.id := NewOrder(cfg, req, false)], cached := o.cached + {req.id},
           holds := Reservations.Release(o.holds, req.id))
      else
        o.(orders := o.orders[req.id := NewOrder(cfg, req, true)], cached := o.cached + {req.id},
           positions := checked.value.0, holds := checked.value.1)
  }

  // ---------------------------------------------------------------------
  // Booking the fills of a report
  // ---------------------------------------------------------------------

  /** What fill booking knows about an order. The order itself is absent from a cached context. */
  datatype Context = Context(account: int, inst: Instrument, order: Option<Order>)

  function Target(r: Report): Option<int> {
    if r.orderId != 0 then Some(r.orderId) else r.byRef
  }

  /** The report is on a known order. */
  predicate Known(o: OmsState, r: Report) { Target(r).Some? && Target(r).value in o.orders }

  /** Where a report's context comes from: the cache first, as the core does it, or always from the order book. */
  datatype Via = Cached | Resolved

  /** The context has the order in it, unless it is a cached one. */
  predicate CarriesOrder(o: OmsState, r: Report, via: Via) {
    via.Resolved? || r.orderId == 0 || r.orderId !in o.cached
  }

  function ContextFor(o: OmsState, cfg: Config, r: Report, via: Via): Option<Context> {
    var id := Target(r);
    if id.None? || id.value !in o.orders || o.orders[id.value].instrument !in cfg.instruments then None
    else
      var order := o.orders[id.value];
      Some(Context(order.account, cfg.instruments[order.instrument], if CarriesOrder(o, r, via) then Some(order) else None))
  }

  predicate IsBuy(c: Context) { c.order.Some? && c.order.value.side.Buy? }

  function FillDelta(c: Context, qty: real): Positions.Delta {
    var frozenSell := !IsBuy(c) && c.inst.balanceCheck;
    Positions.Delta(c.account, c.inst.pos, false, if IsBuy(c) then qty else 0.0, if frozenSell then -qty else 0.0,
                    if IsBuy(c) then qty else -qty)
  }

  /** Holds are released at the order price for a buy, by quantity otherwise. */
  function ReleaseAmount(c: Context, t: Entry): real
    requires t.Trade?
  {
    if IsBuy(c) then t.qty * c.order.value.price else t.qty
  }

  function BookFills(positions: Positions.Book, holds: Reservations.Book, c: Context, id: int, entries: seq<Entry>): (Positions.Book, Reservations.Book) {
    if entries == [] then (positions, holds)
    else
      var (p, h) := BookFills(positions, holds, c, id, entries[..|entries| - 1]);
      var e := entries[|entries| - 1];
      if e.Trade? then (Positions.ApplyDelta(p, FillDelta(c, e.qty)), Reservations.ReleasePartial(h, id, ReleaseAmount(c, e)))
      else (p, h)
  }

  // ---------------------------------------------------------------------
  // Updating the order
  // ---------------------------------------------------------------------

  function TradedIn(entries: seq<Entry>): real {
    if entries == [] then 0.0
    else TradedIn(entries[..|entries| - 1]) + if entries[|entries| - 1].Trade? then entries[|entries| - 1].qty else 0.0
  }

  predicate Near(x: real, y: real) { -0.00000001 < x - y < 0.00000001 }

  /** A state synthesised from trades when the report brings none. */
  function Inferred(order: Order, entries: seq<Entry>): Option<Entry> {
    var total := order.traded + TradedIn(entries);
    if Terminal(order.status) || (exists e :: e in entries && e.State?) || !(exists e :: e in entries && e.Trade?) || total > order.qty then None
    else Some(State(Some(if Near(total, order.qty) then Filled else PartiallyFilled), total, order.qty - total))
  }

  function NewFilled(order: Order, e: Entry): real
    requires e.State?
  {
    var reported := if e.filled != 0.0 then e.filled else if e.unfilled != 0.0 then order.qty - e.unfilled else order.filled;
    if reported < order.filled then order.filled else reported
  }

  /** One entry: the order after it, and whether it counts as an update. A sole linkage books the order. */
  function StepEntry(order: Order, e: Entry, alone: bool): (Order, bool) {
    match e
    case Linkage => if alone && order.status in {Pending, Rejected} then (order.(status := Booked), true) else (order, false)
    case State(status, _, _) =>
      (order.(filled := NewFilled(order, e),
              status := if status.Some? && order.status !in {Cancelled, Filled} then status.value else order.status), true)
    case Trade(qty, _) => (order.(traded := order.traded + qty), true)
    case Reject(hasError) => if hasError then (order.(status := Rejected), true) else (order, false)
    case CancelReject(hasError) => (order, hasError)
    case Fee => (order, true)
  }

  function Fold(order: Order, entries: seq<Entry>, alone: bool): (Order, bool) {
    if entries == [] then (order, false)
    else
      var (before, updated) := Fold(order, entries[..|entries| - 1], alone);
      var (after, more) := StepEntry(before, entries[|entries| - 1], alone);
      (after, updated || more)
  }

  function UpdateOrder(order: Order, entries: seq<Entry>): (Order, bool) {
    var extra := Inferred(order, entries);
    Fold(order, if extra.Some? then entries + [extra.value] else entries, |entries| == 1 && extra.None?)
  }

  // ---------------------------------------------------------------------
  // A whole report
  // ---------------------------------------------------------------------

  /** A terminal sell gives back what it froze and did not fill. */
  function Cleanup(positions: Positions.Book, c: Option<Context>, order: Order): Positions.Book {
    if c.Some? && c.value.inst.bookkeeping && c.value.inst.balanceCheck && order.side.Sell? && order.qty - order.filled > 0.0
    then Positions.Unfreeze(positions, c.value.account, c.value.inst.pos, order.qty - order.filled)
    else positions
  }

  /** Book the fills, update the order, and if it is now terminal give back what it holds. */
  function ProcessReport(o: OmsState, cfg: Config, r: Report, via: Via): OmsState {
    var id := Target(r);
    if id.None? || id.value !in o.orders then o
    else
      var c := ContextFor(o, cfg, r, via);
      var (p, h) := if c.Some? && c.value.inst.bookkeeping then BookFills(o.positions, o.holds, c.value, r.orderId, r.entries)
                    else (o.positions, o.holds);
      var (order, updated) := UpdateOrder(o.orders[id.value], r.entries);
      var closing := updated && Terminal(order.status);
      o.(orders := o.orders[id.value := order],
         positions := if closing then Cleanup(p, c, order) else p,
         holds := if closing then Reservations.Release(h, id.value) else h)
  }

  /** A report that was buffered until its order was known updates the order; its fills are not booked and nothing is given back. */
  function Replay(o: OmsState, id: int, entries: seq<Entry>): OmsState {
    if id in o.orders then o.(orders := o.orders[id := UpdateOrder(o.orders[id], entries).0]) else o
  }

  function ReplayAll(o: OmsState, id: int, buffered: seq<seq<Entry>>): OmsState {
    if buffered == [] then o else Replay(ReplayAll(o, id, buffered[..|buffered| - 1]), id, buffered[|buffered| - 1])
  }

  /** An order still pending after a timeout is rejected; its hold is released, but nothing is unfrozen. */
  function Recheck(o: OmsState, id: int): OmsState {
    if id in o.orders && o.orders[id].status.Pending?
    then o.(orders := o.orders[id := o.orders[id].(status := Rejected)], holds := Reservations.Release(o.holds, id))
    else o
  }

  /** A cancel request only caches the order's context; nothing is given back before the venue confirms. */
  function Cancel(o: OmsState, id: int): OmsState {
    if id in o.orders then o.(cached := o.cached + {id}) else o
  }
}
