/** The order management core: messages drive the position and reservation managers in place. */
module OmsCore {
  import opened Ordering
  import opened Oms
  import Positions
  import Reservations

  class OmsCore {
    const config: Config
    const positionMgr: Positions.PositionManager
    const reservationMgr: Reservations.ReservationManager
    var orders: map<int, Order>
    var cached: set<int>
    var panicAccounts: set<int>
    var balances: map<(int, string), real>

    ghost function State(): OmsState
      reads this, positionMgr, reservationMgr
    {
      OmsState(orders, cached, positionMgr.managed, reservationMgr.Contents(), panicAccounts, balances)
    }

    /** Start from restored orders, positions and balances; contexts and holds are not restored. */
    constructor (cfg: Config, restored: map<int, Order>, initial: Positions.Book, available: map<(int, string), real>)
      ensures config == cfg && fresh(positionMgr) && fresh(reservationMgr)
      ensures State() == OmsState(restored, {}, initial, Reservations.EMPTY_BOOK, {}, available)
    {
      config, orders, cached, panicAccounts, balances := cfg, restored, {}, {}, available;
      positionMgr := new Positions.PositionManager(initial);
      reservationMgr := new Reservations.ReservationManager();
    }

    method Panic(account: int)
      modifies this`panicAccounts
      ensures State() == old(State()).(panicked := old(panicAccounts) + {account})
    {
      panicAccounts := panicAccounts + {account};
    }

    method DontPanic(account: int)
      modifies this`panicAccounts
      ensures State() == old(State()).(panicked := old(panicAccounts) - {account})
    {
      panicAccounts := panicAccounts - {account};
    }

    /** The checks before an order goes out; what they freeze or reserve stays in the managers. */
    method CheckBalances(req: Request) returns (ok: bool)
      requires !Refused(config, req) && !req.side.OtherSide?
      modifies positionMgr, reservationMgr
      ensures ok == PreTrade(old(State()), config, req).Some?
      ensures (positionMgr.managed, reservationMgr.Contents()) ==
              if ok then PreTrade(old(State()), config, req).value else old((positionMgr.managed, reservationMgr.Contents()))
    {
      var inst := config.instruments[req.instrument];
      if !inst.bookkeeping || inst.useMargin { return true; }
      if req.side.Buy? {
        var value := Value(req);
        if inst.balanceCheck {
          var avail := if (req.account, inst.fund) in balances then balances[(req.account, inst.fund)] else 0.0;
          var reserved := Reservations.TotalReserved(reservationMgr.Contents(), req.account, inst.fund);
          if avail - reserved < value { return false; }
        }
        var _ := reservationMgr.ReserveFor(req.id, req.account, inst.fund, value, false);
      } else {
        if inst.balanceCheck {
          var frozen := positionMgr.Freeze(req.account, inst.pos, req.qty);
          if !frozen { return false; }
        }
        var _ := reservationMgr.ReserveFor(req.id, req.account, inst.pos, req.qty, true);
      }
      return true;
    }

    method ProcessOrder(req: Request) returns (sent: bool)
      modifies this, positionMgr, reservationMgr
      ensures State() == Place(old(State()), config, req)
      ensures sent <==> Accepted(old(State()), config, req)
    {
      if req.account in panicAccounts { return false; }
      if Unsupported(config, req) {
        orders := orders[req.id := NewOrder(config, req, false)];
        return false;
      }
      if Refused(config, req) { sent := false; }
      else if req.side.OtherSide? { sent := true; }
      else { sent := CheckBalances(req); }
      orders := orders[req.id := NewOrder(config, req, sent)];
      cached := cached + {req.id};
      if !sent { reservationMgr.ReleaseOrder(req.id); }
    }

    /** Book each trade of a report against positions and holds. */
    method ProcessFills(c: Context, id: int, entries: seq<Entry>)
      modifies positionMgr, reservationMgr
      ensures (positionMgr.managed, reservationMgr.Contents()) ==
              BookFills(old(positionMgr.managed), old(reservationMgr.Contents()), c, id, entries)
    {
      for i := 0 to |entries|
        invariant (positionMgr.managed, reservationMgr.Contents()) ==
                  BookFills(old(positionMgr.managed), old(reservationMgr.Contents()), c, id, entries[..i])
      {
        assert entries[..i + 1][..i] == entries[..i];
        if entries[i].Trade? {
          positionMgr.Apply(FillDelta(c, entries[i].qty));
          reservationMgr.ReleaseFilled(id, ReleaseAmount(c, entries[i]));
        }
      }
      assert entries[..|entries|] == entries;
    }

    /** Apply the entries of a report, and a state inferred from its trades, to the order. */
    method UpdateWithReport(id: int, entries: seq<Entry>) returns (updated: bool)
      requires id in orders
      modifies this`orders
      ensures var (order, u) := UpdateOrder(old(orders)[id], entries);
              orders == old(orders)[id := order] && updated == u
    {
      var extra := InferState(orders[id], entries);
      var all := if extra.Some? then entries + [extra.value] else entries;
      var alone := |entries| == 1 && extra.None?;
      var order := orders[id];
      updated := false;
      for i := 0 to |all|
        invariant (order, updated) == Fold(old(orders)[id], all[..i], alone)
      {
        assert all[..i + 1][..i] == all[..i];
        var (after, more) := StepEntry(order, all[i], alone);
        order, updated := after, updated || more;
      }
      assert all[..|all|] == all;
      orders := orders[id := order];
    }

    /**
     Book the fills of a report, update its order and clean up if that closed it. If the context carries the
     order, the reports `buffered` for its exchange reference then update it too.
     */
    method ProcessOrderReport(r: Report, buffered: seq<seq<Entry>>)
      modifies this`orders, positionMgr, reservationMgr
      ensures var o := ProcessReport(old(State()), config, r, Cached);
              State() == if Known(old(State()), r) && CarriesOrder(old(State()), r, Cached) then ReplayAll(o, Target(r).value, buffered) else o
    {
      var id := Target(r);
      if id.None? || id.value !in orders { return; }
      var c := BookReport(r, id.value);
      var updated := UpdateWithReport(id.value, r.entries);
      Close(id.value, c, updated);
      assert State() == ProcessReport(old(State()), config, r, Cached);
      if r.orderId == 0 || r.orderId !in cached {
        ReplayBuffered(id.value, buffered);
      }
    }

    /** Resolve the context, cache first, and book the fills through it. */
    method BookReport(r: Report, id: int) returns (c: Option<Context>)
      requires Target(r) == Some(id) && id in orders
      modifies positionMgr, reservationMgr
      ensures c == ContextFor(old(State()), config, r, Cached)
      ensures (positionMgr.managed, reservationMgr.Contents()) ==
              if c.Some? && c.value.inst.bookkeeping
              then BookFills(old(positionMgr.managed), old(reservationMgr.Contents()), c.value, r.orderId, r.entries)
              else old((positionMgr.managed, reservationMgr.Contents()))
    {
      var before := orders[id];
      c := None;
      if before.instrument in config.instruments {
        var hit := r.orderId != 0 && r.orderId in cached;
        c := Some(Context(before.account, config.instruments[before.instrument], if hit then None else Some(before)));
      }
      if c.Some? && c.value.inst.bookkeeping {
        ProcessFills(c.value, r.orderId, r.entries);
      }
    }

    /** Give back what a closed order still holds. */
    method Close(id: int, c: Option<Context>, updated: bool)
      requires id in orders
      modifies positionMgr, reservationMgr
      ensures var closing := updated && Terminal(orders[id].status);
              && positionMgr.managed == (if closing then Cleanup(old(positionMgr.managed), c, orders[id]) else old(positionMgr.managed))
              && reservationMgr.Contents() == if closing then Reservations.Release(old(reservationMgr.Contents()), id) else old(reservationMgr.Contents())
    {
      var order := orders[id];
      if updated && Terminal(order.status) {
        reservationMgr.ReleaseOrder(id);
        if c.Some? && c.value.inst.bookkeeping && c.value.inst.balanceCheck && order.side.Sell? {
          var unfilled := order.qty - order.filled;
          if unfilled > 0.0 { positionMgr.Release(c.value.account, c.value.inst.pos, unfilled); }
        }
      }
    }

    method ReplayBuffered(id: int, buffered: seq<seq<Entry>>)
      requires id in orders
      modifies this`orders
      ensures State() == ReplayAll(old(State()), id, buffered)
    {
      for i := 0 to |buffered|
        invariant id in orders && State() == ReplayAll(old(State()), id, buffered[..i])
      {
        assert buffered[..i + 1][..i] == buffered[..i];
        var _ := UpdateWithReport(id, buffered[i]);
      }
      assert buffered[..|buffered|] == buffered;
    }

    method ProcessCancel(id: int)
      modifies this`cached
      ensures State() == Cancel(old(State()), id)
    {
      if id in orders { cached := cached + {id}; }
    }

    method ProcessRecheckOrder(id: int)
      modifies this`orders, reservationMgr
      ensures State() == Recheck(old(State()), id)
    {
      if id in orders && orders[id].status.Pending? {
        orders := orders[id := orders[id].(status := Rejected)];
        reservationMgr.ReleaseOrder(id);
      }
    }
  }

  /** The state a report's trades imply when it brings none of its own, found in one pass. */
  method InferState(order: Order, entries: seq<Entry>) returns (extra: Option<Entry>)
    ensures extra == Inferred(order, entries)
  {
    var hasState, hasTrade, traded := false, false, 0.0;
    for i := 0 to |entries|
      invariant hasState <==> exists e :: e in entries[..i] && e.State?
      invariant hasTrade <==> exists e :: e in entries[..i] && e.Trade?
      invariant traded == TradedIn(entries[..i])
    {
      assert entries[..i + 1] == entries[..i] + [entries[i]];
      if entries[i].State? { hasState := true; assert entries[i] in entries[..i + 1]; }
      if entries[i].Trade? { hasTrade, traded := true, traded + entries[i].qty; assert entries[i] in entries[..i + 1]; }
    }
    assert entries[..|entries|] == entries;
    var total := order.traded + traded;
    if Terminal(order.status) || hasState || !hasTrade || total > order.qty { return None; }
    return Some(State(Some(if Near(total, order.qty) then Filled else PartiallyFilled), total, order.qty - total));
  }
}
