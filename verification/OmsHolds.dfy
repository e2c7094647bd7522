/** What an order still has reserved, over whole runs. */
module OmsHolds {
  import opened Ordering
  import opened Reals
  import opened Oms
  import opened OmsFills
  import opened OmsRuns
  import Positions
  import Reservations

  /** What should still be held for an order: the quantity a sell has not traded, its value at the order price for a buy. */
  function Due(cfg: Config, order: Order): real {
    if Terminal(order.status) || order.instrument !in cfg.instruments then 0.0
    else if !cfg.instruments[order.instrument].bookkeeping || cfg.instruments[order.instrument].useMargin then 0.0
    else DueOn(order)
  }

  function DueOn(order: Order): real {
    match order.side
    case Buy => (order.qty - order.traded) * order.price
    case Sell => order.qty - order.traded
    case OtherSide => 0.0
  }

  /** Every order (ids are never zero) holds what it is due, nothing else is held, and the totals index is the sum of the holds. */
  ghost predicate HoldsExact(o: OmsState, cfg: Config) {
    && Reservations.Balanced(o.holds)
    && (forall id :: id in o.holds.holds ==> id in o.orders) && 0 !in o.orders
    && (forall id :: id in o.orders ==> OrderOk(o.orders[id], cfg) && Reservations.Held(o.holds, id) == Due(cfg, o.orders[id]))
  }

  /** The amount the trades of a report release. */
  function Released(c: Context, entries: seq<Entry>): real {
    if IsBuy(c) then TradedIn(entries) * c.order.value.price else TradedIn(entries)
  }

  lemma LessTwice(x: real, y: real, z: real)
    requires y >= 0.0 && z >= 0.0 && x >= 0.0
    ensures Less(Less(x, y), z) == Less(x, y + z)
  {}

  lemma ReleasedStep(c: Context, entries: seq<Entry>)
    requires entries != [] && forall e :: e in entries && e.Trade? ==> e.qty >= 0.0
    requires IsBuy(c) ==> c.order.value.price >= 0.0
    ensures var init, last := entries[..|entries| - 1], entries[|entries| - 1];
            && Released(c, init) >= 0.0
            && (last.Trade? ==> ReleaseAmount(c, last) >= 0.0)
            && Released(c, entries) == Released(c, init) + if last.Trade? then ReleaseAmount(c, last) else 0.0
  {
    var init, last := entries[..|entries| - 1], entries[|entries| - 1];
    assert entries == init + [last];
    TradedNonNegative(init);
    if IsBuy(c) {
      ProductSign(TradedIn(init), c.order.value.price);
      if last.Trade? {
        ProductSign(last.qty, c.order.value.price);
        Distribute(TradedIn(init), last.qty, c.order.value.price);
      }
    }
  }

  /** The fills of a report release their amount, at most what is held, and keep the index exact. */
  lemma {:induction false} HeldAfterFills(p: Positions.Book, h: Reservations.Book, c: Context, id: int, entries: seq<Entry>)
    requires Reservations.Balanced(h) && forall e :: e in entries && e.Trade? ==> e.qty >= 0.0
    requires IsBuy(c) ==> c.order.value.price >= 0.0
    ensures var h' := BookFills(p, h, c, id, entries).1;
            && Reservations.Balanced(h')
            && Reservations.Held(h', id) == Less(Reservations.Held(h, id), Released(c, entries))
            && h'.holds.Keys <= h.holds.Keys
  {
    if entries == [] {
      assert Reservations.Held(h, id) >= 0.0;
    } else {
      var init, last := entries[..|entries| - 1], entries[|entries| - 1];
      assert entries == init + [last];
      HeldAfterFills(p, h, c, id, init);
      ReleasedStep(c, entries);
      if last.Trade? {
        var h1 := BookFills(p, h, c, id, init).1;
        Reservations.ReleasePartialKeepsBalance(h1, id, ReleaseAmount(c, last));
        Reservations.HeldAfterPartial(h1, id, ReleaseAmount(c, last));
        LessTwice(Reservations.Held(h, id), Released(c, init), ReleaseAmount(c, last));
      }
    }
  }

  /** Releasing an order's hold leaves the others and the index as they should be. */
  lemma ReleaseHeld(h: Reservations.Book, id: int)
    requires Reservations.Balanced(h)
    ensures var h' := Reservations.Release(h, id);
            && Reservations.Balanced(h') && h'.holds.Keys <= h.holds.Keys
            && Reservations.Held(h', id) == 0.0
            && forall j :: j != id ==> Reservations.Held(h', j) == Reservations.Held(h, j)
  {
    Reservations.ReleaseKeepsBalance(h, id);
  }

  /** Replacing one order and its hold keeps all holds exact. */
  lemma HoldsWith(o: OmsState, cfg: Config, id: int, order: Order, o': OmsState)
    requires HoldsExact(o, cfg) && o'.orders == o.orders[id := order]
    requires OrderOk(order, cfg) && id != 0 && Reservations.Held(o'.holds, id) == Due(cfg, order)
    requires Reservations.Balanced(o'.holds) && o'.holds.holds.Keys <= o.holds.holds.Keys + {id}
    requires forall j :: j != id ==> Reservations.Held(o'.holds, j) == Reservations.Held(o.holds, j)
    ensures HoldsExact(o', cfg)
  {}

  /** The order has something reserved while it is open. */
  predicate Reserved(cfg: Config, order: Order) {
    && order.instrument in cfg.instruments && !order.side.OtherSide?
    && cfg.instruments[order.instrument].bookkeeping && !cfg.instruments[order.instrument].useMargin
  }

  /**
   The trades of a report release what they should: none, or those of a sell named by its id, or those of
   such a buy whose context carries the order - or the price makes quantity and value coincide.
   */
  predicate ReleasesRightly(order: Order, carried: bool, orderId: int, traded: real) {
    || traded == 0.0
    || (if orderId == 0 then order.side.Buy? && order.price == 0.0
        else
          || order.side.Sell? || carried || order.price == 1.0 || order.price == 0.0
          || (traded == order.qty - order.traded && order.price < 1.0))
  }

  /**
   On an open order the report closes it, or releases what it should; a closed one, for which nothing is
   held, is due nothing after it.
   */
  predicate EndsRight(o: OmsState, cfg: Config, r: Report, via: Via) {
    Known(o, r) ==>
      var order := o.orders[Target(r).value];
      var after := UpdateOrder(order, r.entries).0;
      if Terminal(order.status) then Due(cfg, after) == 0.0
      else
        || !Reserved(cfg, order) || Terminal(after.status)
        || ReleasesRightly(order, CarriesOrder(o, r, via), r.orderId, TradedIn(r.entries))
  }

  /** Releasing a traded quantity as if it were a value. */
  lemma HoldArithmetic(open: real, traded: real, price: real)
    requires 0.0 < traded <= open && price >= 0.0
    ensures Less(open * price, traded) == (open - traded) * price <==>
            price == 1.0 || price == 0.0 || (traded == open && price < 1.0)
  {
    Distribute(open, traded, price);
    Distribute(price, 1.0, traded);
    ProductZero(price - 1.0, traded);
    ProductZero(open - traded, price);
    ProductSign(open - traded, price);
  }

  /** What is left of a hold after its trades. */
  function LeftHeld(order: Order, c: Context, orderId: int, entries: seq<Entry>): real {
    if orderId == 0 then DueOn(order) else Less(DueOn(order), Released(c, entries))
  }

  lemma SellHold(order: Order, after: Order, c: Context, orderId: int, entries: seq<Entry>)
    requires SameTerms(order, after) && after.traded == order.traded + TradedIn(entries) <= order.qty
    requires TradedIn(entries) >= 0.0 && order.side.Sell? && !IsBuy(c)
    ensures LeftHeld(order, c, orderId, entries) == DueOn(after) <==> TradedIn(entries) == 0.0 || orderId != 0
  {}

  lemma UnnamedBuyHold(order: Order, after: Order, c: Context, entries: seq<Entry>)
    requires SameTerms(order, after) && after.traded == order.traded + TradedIn(entries) <= order.qty
    requires TradedIn(entries) > 0.0 && order.price >= 0.0 && order.side.Buy?
    ensures LeftHeld(order, c, 0, entries) == DueOn(after) <==> order.price == 0.0
  {
    var open, traded, left, price := order.qty - order.traded, TradedIn(entries), after.qty - after.traded, order.price;
    assert open * price - left * price == traded * price by { Distribute(open, left, price); assert open - left == traded; }
    ProductZero(traded, price);
  }

  lemma CarriedBuyHold(order: Order, after: Order, c: Context, orderId: int, entries: seq<Entry>)
    requires SameTerms(order, after) && after.traded == order.traded + TradedIn(entries) <= order.qty
    requires TradedIn(entries) > 0.0 && order.price >= 0.0 && order.side.Buy? && c.order == Some(order) && orderId != 0
    ensures LeftHeld(order, c, orderId, entries) == DueOn(after)
  {
    var open, traded, left, price := order.qty - order.traded, TradedIn(entries), after.qty - after.traded, order.price;
    assert open * price - left * price == traded * price by { Distribute(open, left, price); assert open - left == traded; }
    ProductSign(left, price);
  }

  lemma UncarriedBuyHold(order: Order, after: Order, c: Context, orderId: int, entries: seq<Entry>)
    requires SameTerms(order, after) && after.traded == order.traded + TradedIn(entries) <= order.qty
    requires TradedIn(entries) > 0.0 && order.price >= 0.0 && order.side.Buy? && c.order.None? && orderId != 0
    ensures LeftHeld(order, c, orderId, entries) == DueOn(after) <==>
            order.price == 1.0 || order.price == 0.0 || (TradedIn(entries) == order.qty - order.traded && order.price < 1.0)
  {
    HoldArithmetic(order.qty - order.traded, TradedIn(entries), order.price);
    assert after.qty - after.traded == order.qty - order.traded - TradedIn(entries);
  }

  lemma IdleBuyHold(order: Order, after: Order, c: Context, orderId: int, entries: seq<Entry>)
    requires SameTerms(order, after) && after.traded == order.traded <= order.qty && TradedIn(entries) == 0.0
    requires order.price >= 0.0 && order.side.Buy? && (c.order.Some? ==> c.order.value == order)
    ensures LeftHeld(order, c, orderId, entries) == DueOn(after)
  {
    ProductSign(order.qty - order.traded, order.price);
  }

  /** What is left of a hold after its trades, against what is then due. */
  lemma RightHold(order: Order, after: Order, c: Context, orderId: int, entries: seq<Entry>)
    requires SameTerms(order, after) && after.traded == order.traded + TradedIn(entries) <= order.qty
    requires TradedIn(entries) >= 0.0 && order.price >= 0.0 && !order.side.OtherSide?
    requires c.order.Some? ==> c.order.value == order
    ensures LeftHeld(order, c, orderId, entries) == DueOn(after) <==>
            ReleasesRightly(order, c.order.Some?, orderId, TradedIn(entries))
  {
    if order.side.Sell? {
      SellHold(order, after, c, orderId, entries);
    } else if TradedIn(entries) == 0.0 {
      IdleBuyHold(order, after, c, orderId, entries);
    } else if orderId == 0 {
      UnnamedBuyHold(order, after, c, entries);
    } else if c.order.Some? {
      CarriedBuyHold(order, after, c, orderId, entries);
    } else {
      UncarriedBuyHold(order, after, c, orderId, entries);
    }
  }

  /** The holds after the fills of a report: only that of the order named by id moves. */
  lemma FilledHolds(o: OmsState, cfg: Config, c: Context, id: int, orderId: int, entries: seq<Entry>)
    requires HoldsExact(o, cfg) && id in o.orders && (orderId == 0 || orderId == id)
    requires NonNegativeTrades(entries) && (IsBuy(c) ==> c.order.value.price >= 0.0)
    ensures var h := BookFills(o.positions, o.holds, c, orderId, entries).1;
            && Reservations.Balanced(h) && h.holds.Keys <= o.holds.holds.Keys
            && (forall j :: j != id ==> Reservations.Held(h, j) == Reservations.Held(o.holds, j))
            && Reservations.Held(h, id) == if orderId == 0 then Due(cfg, o.orders[id]) else Less(Due(cfg, o.orders[id]), Released(c, entries))
  {
    var h := BookFills(o.positions, o.holds, c, orderId, entries).1;
    assert Reservations.Held(o.holds, id) == Due(cfg, o.orders[id]);
    FillsTouchOne(o.positions, o.holds, c, orderId, entries);
    HeldAfterFills(o.positions, o.holds, c, orderId, entries);
    assert orderId == 0 ==> orderId !in h.holds && orderId !in o.holds.holds;
  }

  /** Nothing to release where nothing is due. */
  lemma UnreservedHold(c: Context, entries: seq<Entry>)
    requires NonNegativeTrades(entries) && (IsBuy(c) ==> c.order.value.price >= 0.0)
    ensures Less(0.0, Released(c, entries)) == 0.0
  {
    TradedNonNegative(entries);
    if IsBuy(c) { ProductSign(TradedIn(entries), c.order.value.price); }
  }

  /** What a report must bring: no negative trade, on an order with no negative price. */
  ghost predicate Priced(o: OmsState, r: Report) {
    Known(o, r) ==> NonNegativeTrades(r.entries) && o.orders[Target(r).value].price >= 0.0
  }

  /** The holds a report leaves before any terminal cleanup. */
  lemma ReportedHold(o: OmsState, cfg: Config, r: Report, via: Via)
    requires HoldsExact(o, cfg) && Priced(o, r) && Known(o, r) && ContextFor(o, cfg, r, via).Some? && ContextFor(o, cfg, r, via).value.inst.bookkeeping
    ensures var id, c := Target(r).value, ContextFor(o, cfg, r, via).value;
            var h := BookFills(o.positions, o.holds, c, r.orderId, r.entries).1;
            var order, after := o.orders[id], UpdateOrder(o.orders[id], r.entries).0;
            && Reservations.Balanced(h) && h.holds.Keys <= o.holds.holds.Keys
            && (forall j :: j != id ==> Reservations.Held(h, j) == Reservations.Held(o.holds, j))
            && (if Reserved(cfg, order) && !Terminal(order.status)
                then after.traded <= order.qty ==>
                     (Reservations.Held(h, id) == DueOn(after) <==> ReleasesRightly(order, CarriesOrder(o, r, via), r.orderId, TradedIn(r.entries)))
                else Reservations.Held(h, id) == 0.0)
  {
    var id, c := Target(r).value, ContextFor(o, cfg, r, via).value;
    var order := o.orders[id];
    UpdateKeeps(order, r.entries);
    TradedNonNegative(r.entries);
    FilledHolds(o, cfg, c, id, r.orderId, r.entries);
    if Reserved(cfg, order) && !Terminal(order.status) {
      if order.traded + TradedIn(r.entries) <= order.qty { RightHold(order, UpdateOrder(order, r.entries).0, c, r.orderId, r.entries); }
    } else {
      assert id in o.orders && OrderOk(o.orders[id], cfg);
      UnreservedHold(c, r.entries);
    }
  }

  /** What a report does to the holds. */
  lemma ClosedHolds(o: OmsState, cfg: Config, r: Report, via: Via)
    requires HoldsExact(o, cfg) && Priced(o, r) && Known(o, r) && OrderOk(UpdateOrder(o.orders[Target(r).value], r.entries).0, cfg)
    ensures var id, o' := Target(r).value, ProcessReport(o, cfg, r, via);
            && Reservations.Balanced(o'.holds) && o'.holds.holds.Keys <= o.holds.holds.Keys
            && (forall j :: j != id ==> Reservations.Held(o'.holds, j) == Reservations.Held(o.holds, j))
            && (Reservations.Held(o'.holds, id) == Due(cfg, o'.orders[id]) <==> EndsRight(o, cfg, r, via))
  {
    var id, order, c := Target(r).value, o.orders[Target(r).value], ContextFor(o, cfg, r, via);
    assert Reservations.Held(o.holds, id) == Due(cfg, order);
    UpdateKeeps(order, r.entries);
    var h := o.holds;
    if c.Some? && c.value.inst.bookkeeping {
      ReportedHold(o, cfg, r, via);
      h := BookFills(o.positions, o.holds, c.value, r.orderId, r.entries).1;
    }
    ReleaseHeld(h, id);
  }

  /**
   After a report that leaves its order sound, whatever its states say, the hold is what is due exactly when
   the report closes the order or its trades release what they should; on a closed order, exactly when
   nothing is due. A placed buy that is part-filled by a report with its id is where the core fails.
   */
  lemma HoldAfterReport(o: OmsState, cfg: Config, r: Report, via: Via)
    requires HoldsExact(o, cfg) && Priced(o, r) && Known(o, r) && OrderOk(UpdateOrder(o.orders[Target(r).value], r.entries).0, cfg)
    ensures var id, o' := Target(r).value, ProcessReport(o, cfg, r, via);
            Reservations.Held(o'.holds, id) == Due(cfg, o'.orders[id]) <==> EndsRight(o, cfg, r, via)
  {
    ClosedHolds(o, cfg, r, via);
  }

  /** The report leaves its order sound, and its hold as it is due. */
  ghost predicate SoundReportHold(o: OmsState, cfg: Config, r: Report, via: Via) {
    (Known(o, r) ==> OrderOk(UpdateOrder(o.orders[Target(r).value], r.entries).0, cfg)) && EndsRight(o, cfg, r, via)
  }

  /** Any report, on an open order or a closed one, keeps the holds exact exactly when it is sound. */
  lemma ReportKeepsHolds(o: OmsState, cfg: Config, r: Report, via: Via)
    requires HoldsExact(o, cfg) && Priced(o, r)
    ensures HoldsExact(ProcessReport(o, cfg, r, via), cfg) <==> SoundReportHold(o, cfg, r, via)
  {
    if Known(o, r) {
      var id, o' := Target(r).value, ProcessReport(o, cfg, r, via);
      ProcessParts(o, cfg, r, via);
      assert id in o'.orders && o'.orders[id] == UpdateOrder(o.orders[id], r.entries).0;
      if OrderOk(o'.orders[id], cfg) {
        ClosedHolds(o, cfg, r, via);
        if EndsRight(o, cfg, r, via) { HoldsWith(o, cfg, id, o'.orders[id], o'); }
      }
    }
  }

  /** A late report on a closed order: nothing is held for it, so the holds stay exact exactly when nothing becomes due. */
  lemma LateHold(o: OmsState, cfg: Config, r: Report, via: Via)
    requires HoldsExact(o, cfg) && Priced(o, r) && Known(o, r) && Terminal(o.orders[Target(r).value].status)
    ensures var after := UpdateOrder(o.orders[Target(r).value], r.entries).0;
            HoldsExact(ProcessReport(o, cfg, r, via), cfg) <==> OrderOk(after, cfg) && Due(cfg, after) == 0.0
  {
    ReportKeepsHolds(o, cfg, r, via);
  }

  /** What placing an accepted order reserves, if anything. */
  function Reserving(cfg: Config, req: Request): Option<Reservations.Reservation>
    requires req.instrument in cfg.instruments
  {
    var inst := cfg.instruments[req.instrument];
    if !inst.bookkeeping || inst.useMargin || req.side.OtherSide? then None
    else if req.side.Buy? then Some(Reservations.Reservation(req.account, inst.fund, Value(req), false))
    else Some(Reservations.Reservation(req.account, inst.pos, req.qty, true))
  }

  lemma PlacedReserves(o: OmsState, cfg: Config, req: Request)
    requires Accepted(o, cfg, req)
    ensures var r := Reserving(cfg, req);
            Place(o, cfg, req).holds == if r.Some? then Reservations.Reserve(o.holds, req.id, r.value) else o.holds
  {}

  lemma ReserveHeld(h: Reservations.Book, id: int, r: Reservations.Reservation)
    requires Reservations.Balanced(h) && id !in h.holds && r.qty >= 0.0
    ensures var h' := Reservations.Reserve(h, id, r);
            && Reservations.Balanced(h') && h'.holds.Keys <= h.holds.Keys + {id}
            && Reservations.Held(h', id) == r.qty
            && forall j :: j != id ==> Reservations.Held(h', j) == Reservations.Held(h, j)
  {
    Reservations.ReserveKeepsBalance(h, id, r);
  }

  /** An accepted order reserves its quantity (sell) or value (buy) as requested. */
  lemma PlacedHold(o: OmsState, cfg: Config, req: Request)
    requires HoldsExact(o, cfg) && req.id !in o.orders && Accepted(o, cfg, req) && req.qty >= 0.0 && req.price >= 0.0
    ensures var h, r := Place(o, cfg, req).holds, Reserving(cfg, req);
            && Reservations.Balanced(h) && h.holds.Keys <= o.holds.holds.Keys + {req.id}
            && (forall j :: j != req.id ==> Reservations.Held(h, j) == Reservations.Held(o.holds, j))
            && Reservations.Held(h, req.id) == if r.Some? then r.value.qty else 0.0
  {
    PlacedReserves(o, cfg, req);
    if Reserving(cfg, req).Some? {
      ProductSign(req.qty, req.price);
      ReserveHeld(o.holds, req.id, Reserving(cfg, req).value);
    }
  }

  /** What is held under an id after an order was placed under it; a second reservation is refused. */
  function HeldAfterPlace(o: OmsState, cfg: Config, req: Request): real {
    if Unsupported(cfg, req) then Reservations.Held(o.holds, req.id)
    else if !Accepted(o, cfg, req) then 0.0
    else if req.id !in o.holds.holds && Reserving(cfg, req).Some? then Reserving(cfg, req).value.qty
    else Reservations.Held(o.holds, req.id)
  }

  lemma PlaceHeld(o: OmsState, cfg: Config, req: Request)
    requires Reservations.Balanced(o.holds) && req.account !in o.panicked && req.qty >= 0.0 && req.price >= 0.0
    ensures var h := Place(o, cfg, req).holds;
            && Reservations.Balanced(h) && h.holds.Keys <= o.holds.holds.Keys + {req.id}
            && (forall j :: j != req.id ==> Reservations.Held(h, j) == Reservations.Held(o.holds, j))
            && Reservations.Held(h, req.id) == HeldAfterPlace(o, cfg, req)
  {
    if Accepted(o, cfg, req) {
      PlacedReserves(o, cfg, req);
      ProductSign(req.qty, req.price);
      if req.id !in o.holds.holds && Reserving(cfg, req).Some? { ReserveHeld(o.holds, req.id, Reserving(cfg, req).value); }
    } else {
      ReleaseHeld(o.holds, req.id);
    }
  }

  /** The new order is sound and due what is then held under its id. */
  ghost predicate SoundPlaceHold(o: OmsState, cfg: Config, req: Request) {
    req.account in o.panicked ||
    var order := NewOrder(cfg, req, Accepted(o, cfg, req));
    OrderOk(order, cfg) && HeldAfterPlace(o, cfg, req) == Due(cfg, order)
  }

  /** Placing an order, under a fresh id or not, rounded or not, keeps the holds exact exactly when it is sound. */
  lemma PlaceKeepsHolds(o: OmsState, cfg: Config, req: Request)
    requires HoldsExact(o, cfg) && req.id != 0 && req.qty >= 0.0 && req.price >= 0.0
    ensures HoldsExact(Place(o, cfg, req), cfg) <==> SoundPlaceHold(o, cfg, req)
  {
    if req.account !in o.panicked {
      var order, o' := NewOrder(cfg, req, Accepted(o, cfg, req)), Place(o, cfg, req);
      PlaceHeld(o, cfg, req);
      assert o'.orders == o.orders[req.id := order] && o'.orders[req.id] == order;
      if SoundPlaceHold(o, cfg, req) { HoldsWith(o, cfg, req.id, order, o'); }
    }
  }

  /**
   What is reserved is the value or quantity requested, what is due that of the order as it is sent, rounded
   to the venue's precision: an accepted fresh order keeps the holds exact exactly when the two are equal.
   */
  lemma RoundedHold(o: OmsState, cfg: Config, req: Request)
    requires HoldsExact(o, cfg) && req.id != 0 && req.id !in o.orders && req.qty >= 0.0 && req.price >= 0.0 && Accepted(o, cfg, req)
    requires NewOrder(cfg, req, true).qty >= 0.0
    ensures HoldsExact(Place(o, cfg, req), cfg) <==>
            (Reserving(cfg, req).Some? ==> DueOn(NewOrder(cfg, req, true)) == Reserving(cfg, req).value.qty)
  {
    PlaceKeepsHolds(o, cfg, req);
  }

  /** Amounts and prices are not negative, and ids not zero. */
  ghost predicate ProperHold(o: OmsState, step: Step) {
    match step
    case PlaceStep(req) => req.id != 0 && req.qty >= 0.0 && req.price >= 0.0
    case ReportStep(r, _) => Priced(o, r)
    case _ => true
  }

  /** Exactly what each step needs to keep the holds exact. */
  ghost predicate SoundHold(o: OmsState, cfg: Config, step: Step) {
    match step
    case PlaceStep(req) => SoundPlaceHold(o, cfg, req)
    case ReportStep(r, via) => SoundReportHold(o, cfg, r, via)
    case ReplayStep(id, entries) =>
      id in o.orders ==> OrderOk(UpdateOrder(o.orders[id], entries).0, cfg) && Due(cfg, UpdateOrder(o.orders[id], entries).0) == Due(cfg, o.orders[id])
    case _ => true
  }

  ghost predicate AllProperHold(o: OmsState, cfg: Config, steps: seq<Step>)
    decreases |steps|
  {
    steps == [] || (ProperHold(o, steps[0]) && AllProperHold(Apply(o, cfg, steps[0]), cfg, steps[1..]))
  }

  ghost predicate AllSoundHold(o: OmsState, cfg: Config, steps: seq<Step>)
    decreases |steps|
  {
    steps == [] || (SoundHold(o, cfg, steps[0]) && AllSoundHold(Apply(o, cfg, steps[0]), cfg, steps[1..]))
  }

  /** The holds are exact before and after every step. */
  ghost predicate HoldsThroughout(o: OmsState, cfg: Config, steps: seq<Step>)
    decreases |steps|
  {
    HoldsExact(o, cfg) && (steps == [] || HoldsThroughout(Apply(o, cfg, steps[0]), cfg, steps[1..]))
  }

  /** A replayed report releases nothing, so the holds stay exact exactly when what is due stays. */
  lemma ReplayKeepsHolds(o: OmsState, cfg: Config, id: int, entries: seq<Entry>)
    requires HoldsExact(o, cfg) && id in o.orders
    ensures var after := UpdateOrder(o.orders[id], entries).0;
            HoldsExact(Replay(o, id, entries), cfg) <==> OrderOk(after, cfg) && Due(cfg, after) == Due(cfg, o.orders[id])
  {
    var o' := Replay(o, id, entries);
    assert Reservations.Held(o.holds, id) == Due(cfg, o.orders[id]);
    assert id in o'.orders && o'.orders[id] == UpdateOrder(o.orders[id], entries).0;
    if OrderOk(o'.orders[id], cfg) && Due(cfg, o'.orders[id]) == Due(cfg, o.orders[id]) { HoldsWith(o, cfg, id, o'.orders[id], o'); }
  }

  /** A step of any kind keeps the holds exact exactly when it is sound. */
  lemma StepKeepsHolds(o: OmsState, cfg: Config, step: Step)
    requires HoldsExact(o, cfg) && ProperHold(o, step)
    ensures HoldsExact(Apply(o, cfg, step), cfg) <==> SoundHold(o, cfg, step)
  {
    match step
    case PlaceStep(req) => PlaceKeepsHolds(o, cfg, req);
    case ReportStep(r, via) => ReportKeepsHolds(o, cfg, r, via);
    case ReplayStep(id, entries) => if id in o.orders { ReplayKeepsHolds(o, cfg, id, entries); }
    case RecheckStep(id) => ReleaseHeld(o.holds, id);
    case _ =>
  }

  /**
   In any run, whatever is placed and reported, the holds are exact throughout exactly when every step is
   sound. Then each open order holds exactly what it has not traded - a buy at the order price, whatever the
   fill prices were - a closed order holds nothing, and the totals index is the sum of the holds.
   */
  lemma {:induction false} RunKeepsHolds(o: OmsState, cfg: Config, steps: seq<Step>)
    requires HoldsExact(o, cfg) && AllProperHold(o, cfg, steps)
    ensures HoldsThroughout(o, cfg, steps) <==> AllSoundHold(o, cfg, steps)
    ensures AllSoundHold(o, cfg, steps) ==> HoldsExact(Run(o, cfg, steps), cfg)
    decreases |steps|
  {
    if steps != [] {
      StepKeepsHolds(o, cfg, steps[0]);
      if SoundHold(o, cfg, steps[0]) { RunKeepsHolds(Apply(o, cfg, steps[0]), cfg, steps[1..]); }
    }
  }

  /** Every report names its order by id. */
  ghost predicate AllById(steps: seq<Step>) {
    forall step :: step in steps && step.ReportStep? ==> step.r.orderId != 0
  }

  /** Fresh orders that rounding leaves alone, and reports that do not overfill and leave nothing due on a closed order. */
  ghost predicate FairHold(o: OmsState, cfg: Config, step: Step) {
    match step
    case PlaceStep(req) =>
      && req.id !in o.orders
      && (Accepted(o, cfg, req) ==>
            var order := NewOrder(cfg, req, true);
            order.qty >= 0.0 && (Reserving(cfg, req).Some? ==> DueOn(order) == Reserving(cfg, req).value.qty))
    case ReportStep(r, _) =>
      Known(o, r) ==>
        var order := o.orders[Target(r).value];
        var after := UpdateOrder(order, r.entries).0;
        && after.traded <= order.qty
        && (Terminal(order.status) ==> Terminal(after.status))
    case _ => true
  }

  ghost predicate AllFairHold(o: OmsState, cfg: Config, steps: seq<Step>)
    decreases |steps|
  {
    steps == [] || (FairHold(o, cfg, steps[0]) && AllFairHold(Apply(o, cfg, steps[0]), cfg, steps[1..]))
  }

  lemma FairStepHold(o: OmsState, cfg: Config, step: Step)
    requires HoldsExact(o, cfg) && ProperHold(o, step) && FairHold(o, cfg, step) && !step.ReplayStep?
    requires step.ReportStep? ==> step.via.Resolved? && step.r.orderId != 0
    ensures SoundHold(o, cfg, step)
  {
    if step.ReportStep? && Known(o, step.r) {
      var id := Target(step.r).value;
      assert id in o.orders && OrderOk(o.orders[id], cfg);
      UpdateKeeps(o.orders[id], step.r.entries);
    }
  }

  /**
   With contexts taken from the order book, any fair mix of buys, sells, partial fills and closings keeps the
   holds exact - also when states arrive before the trades they count.
   */
  lemma {:induction false} ResolvedRunKeepsHolds(o: OmsState, cfg: Config, steps: seq<Step>)
    requires HoldsExact(o, cfg) && AllProperHold(o, cfg, steps) && AllFairHold(o, cfg, steps) && AllResolved(steps) && AllById(steps)
    ensures AllSoundHold(o, cfg, steps) && HoldsExact(Run(o, cfg, steps), cfg)
    decreases |steps|
  {
    if steps != [] {
      assert steps[0] in steps && forall step :: step in steps[1..] ==> step in steps;
      FairStepHold(o, cfg, steps[0]);
      StepKeepsHolds(o, cfg, steps[0]);
      ResolvedRunKeepsHolds(Apply(o, cfg, steps[0]), cfg, steps[1..]);
    }
  }

  /** A checked buy never commits more of its fund than the account has available. */
  lemma BuyStaysWithinBalance(o: OmsState, cfg: Config, req: Request)
    requires Reservations.Balanced(o.holds) && Accepted(o, cfg, req) && req.side.Buy? && req.qty >= 0.0 && req.price >= 0.0
    requires var inst := cfg.instruments[req.instrument]; inst.bookkeeping && inst.balanceCheck && !inst.useMargin
    ensures var fund := cfg.instruments[req.instrument].fund;
            Reservations.TotalReserved(Place(o, cfg, req).holds, req.account, fund) <=
            if (req.account, fund) in o.balances then o.balances[(req.account, fund)] else 0.0
  {
    var fund := cfg.instruments[req.instrument].fund;
    ProductSign(req.qty, req.price);
    Reservations.CheckThenReserve(o.holds, req.id, Reservations.Reservation(req.account, fund, Value(req), false),
      if (req.account, fund) in o.balances then o.balances[(req.account, fund)] else 0.0);
  }

  /** A restart restores orders without their holds, so the holds are exact exactly when no restored order should have one. */
  lemma RestoredHoldNothing(restored: map<int, Order>, cached: set<int>, positions: Positions.Book, panicked: set<int>, balances: map<(int, string), real>, cfg: Config)
    requires 0 !in restored && forall id :: id in restored ==> OrderOk(restored[id], cfg)
    ensures HoldsExact(OmsState(restored, cached, positions, Reservations.EMPTY_BOOK, panicked, balances), cfg) <==>
            forall id :: id in restored ==> Due(cfg, restored[id]) == 0.0
  {
    Reservations.EmptyIsBalanced();
  }
}
