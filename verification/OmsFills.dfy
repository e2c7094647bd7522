/** What one report does to one order and to the position it trades. */
module OmsFills {
  import opened Ordering
  import opened Oms
  import opened Reals
  import Positions
  import Reservations

  // ---------------------------------------------------------------------
  // One order
  // ---------------------------------------------------------------------

  /** The state entry reports the cumulative quantity `total` (`before` is the quantity known so far). */
  ghost predicate Reports(e: Entry, qty: real, before: real, total: real)
    requires e.State?
  {
    if e.filled != 0.0 then e.filled == total else if e.unfilled != 0.0 then qty - e.unfilled == total else before == total
  }

  /** The venue's report is consistent: trades are positive, do not overfill, and any state agrees with them. */
  ghost predicate Agrees(order: Order, entries: seq<Entry>) {
    && 0.0 <= order.filled == order.traded
    && (forall e :: e in entries && e.Trade? ==> e.qty >= 0.0)
    && order.traded + TradedIn(entries) <= order.qty
    && (forall e :: e in entries && e.State? ==> Reports(e, order.qty, order.filled, order.traded + TradedIn(entries)))
  }

  predicate SameTerms(a: Order, b: Order) {
    a.account == b.account && a.instrument == b.instrument && a.side == b.side && a.price == b.price && a.qty == b.qty
  }

  lemma {:induction false} TradedNonNegative(entries: seq<Entry>)
    requires forall e :: e in entries && e.Trade? ==> e.qty >= 0.0
    ensures TradedIn(entries) >= 0.0
  {
    if entries != [] {
      assert entries == entries[..|entries| - 1] + [entries[|entries| - 1]];
      TradedNonNegative(entries[..|entries| - 1]);
    }
  }

  /** Entries never change the terms of an order; what they do to it is counted as an update. */
  lemma {:induction false} FoldKeeps(order: Order, entries: seq<Entry>, alone: bool)
    ensures var (after, updated) := Fold(order, entries, alone);
            && SameTerms(order, after) && after.traded == order.traded + TradedIn(entries)
            && (!updated ==> after == order)
  {
    if entries != [] {
      FoldKeeps(order, entries[..|entries| - 1], alone);
    }
  }

  /** If every state reports `total`, the order ends at `total` as soon as one state has been seen. */
  lemma {:induction false} FoldFilled(order: Order, entries: seq<Entry>, alone: bool, total: real)
    requires order.filled <= total
    requires forall e :: e in entries && e.State? ==> Reports(e, order.qty, order.filled, total)
    ensures var (after, _) := Fold(order, entries, alone);
            after.filled == if exists e :: e in entries && e.State? then total else order.filled
  {
    if entries != [] {
      var init, last := entries[..|entries| - 1], entries[|entries| - 1];
      assert entries == init + [last];
      FoldKeeps(order, init, alone);
      FoldFilled(order, init, alone, total);
    }
  }

  lemma TradedAppendState(entries: seq<Entry>, e: Entry)
    requires !e.Trade?
    ensures TradedIn(entries + [e]) == TradedIn(entries)
  {
    assert (entries + [e])[..|entries|] == entries;
  }

  lemma {:induction false} NoTradeNoVolume(entries: seq<Entry>)
    requires forall e :: e in entries ==> !e.Trade?
    ensures TradedIn(entries) == 0.0
  {
    if entries != [] {
      assert entries == entries[..|entries| - 1] + [entries[|entries| - 1]];
      NoTradeNoVolume(entries[..|entries| - 1]);
    }
  }

  /** Any report keeps the terms of its order and adds its trades. */
  lemma UpdateKeeps(order: Order, entries: seq<Entry>)
    ensures var (after, updated) := UpdateOrder(order, entries);
            && SameTerms(order, after) && after.traded == order.traded + TradedIn(entries)
            && (!updated ==> after == order)
  {
    var extra := Inferred(order, entries);
    if extra.Some? { TradedAppendState(entries, extra.value); }
    FoldKeeps(order, if extra.Some? then entries + [extra.value] else entries, |entries| == 1 && extra.None?);
  }

  /** The filled quantity never falls. */
  lemma {:induction false} FoldFills(order: Order, entries: seq<Entry>, alone: bool)
    ensures Fold(order, entries, alone).0.filled >= order.filled
  {
    if entries != [] { FoldFills(order, entries[..|entries| - 1], alone); }
  }

  lemma UpdateFills(order: Order, entries: seq<Entry>)
    ensures UpdateOrder(order, entries).0.filled >= order.filled
  {
    var extra := Inferred(order, entries);
    FoldFills(order, if extra.Some? then entries + [extra.value] else entries, |entries| == 1 && extra.None?);
  }

  /** A report with the state inferred from its trades, if any. */
  function Entries(order: Order, entries: seq<Entry>): seq<Entry> {
    var extra := Inferred(order, entries);
    if extra.Some? then entries + [extra.value] else entries
  }

  /** In a consistent report every state, the inferred one included, reports the sum of all trades. */
  lemma AllReport(order: Order, entries: seq<Entry>)
    requires Agrees(order, entries) && !Terminal(order.status)
    ensures forall e :: e in Entries(order, entries) && e.State? ==> Reports(e, order.qty, order.filled, order.traded + TradedIn(entries))
  {
    TradedNonNegative(entries);
    assert forall e :: e in Entries(order, entries) ==> e in entries || Inferred(order, entries) == Some(e);
  }

  /** Where there is volume there is a state, given or inferred. */
  lemma SomeState(order: Order, entries: seq<Entry>)
    requires Agrees(order, entries) && !Terminal(order.status)
    ensures (exists e :: e in Entries(order, entries) && e.State?) || TradedIn(entries) == 0.0
  {
    var extra, all := Inferred(order, entries), Entries(order, entries);
    if e :| e in entries && e.State? {
      assert e in all;
    } else if extra.Some? {
      assert extra.value in all;
    } else {
      NoTradeNoVolume(entries);
    }
  }

  /** After a consistent report the filled quantity is the sum of all trades. */
  lemma UpdateAgrees(order: Order, entries: seq<Entry>)
    requires Agrees(order, entries) && !Terminal(order.status)
    ensures var (after, updated) := UpdateOrder(order, entries);
            && SameTerms(order, after)
            && after.traded == after.filled == order.traded + TradedIn(entries)
            && (!updated ==> after == order)
  {
    UpdateKeeps(order, entries);
    TradedNonNegative(entries);
    AllReport(order, entries);
    SomeState(order, entries);
    FoldFilled(order, Entries(order, entries), |entries| == 1 && Inferred(order, entries).None?, order.traded + TradedIn(entries));
  }

  // ---------------------------------------------------------------------
  // Booking fills
  // ---------------------------------------------------------------------

  /** Fills of an order touch only the position of its own account and symbol, and one hold. */
  lemma {:induction false} FillsTouchOne(p: Positions.Book, h: Reservations.Book, c: Context, id: int, entries: seq<Entry>)
    ensures var (p', h') := BookFills(p, h, c, id, entries);
            && (forall key :: key != (c.account, c.inst.pos) ==> Positions.At(p', key) == Positions.At(p, key))
            && (forall j :: j != id ==> Reservations.Held(h', j) == Reservations.Held(h, j))
  {
    if entries != [] {
      FillsTouchOne(p, h, c, id, entries[..|entries| - 1]);
    }
  }

  /** The position a context books against. */
  function PositionOf(p: Positions.Book, c: Context): Positions.Position {
    Positions.At(p, (c.account, c.inst.pos))
  }

  ghost predicate NonNegativeTrades(entries: seq<Entry>) {
    forall e :: e in entries && e.Trade? ==> e.qty >= 0.0
  }

  /** The position after its trades are booked as sells of frozen quantity. */
  function Sold(p: Positions.Position, entries: seq<Entry>): Positions.Position {
    if entries == [] then p
    else
      var q, e := Sold(p, entries[..|entries| - 1]), entries[|entries| - 1];
      if e.Trade? then Positions.Settled(q, Positions.SellDelta(0, "", e.qty)) else q
  }

  /** The position after its trades are booked as buys. */
  function Bought(p: Positions.Position, entries: seq<Entry>): Positions.Position {
    if entries == [] then p
    else
      var q, e := Bought(p, entries[..|entries| - 1]), entries[|entries| - 1];
      if e.Trade? then Positions.Settled(q, Positions.BuyDelta(0, "", e.qty)) else q
  }

  /** On a balance-checked instrument fills are booked as buys exactly when the context carries a buy. */
  lemma {:induction false} FillsSettle(p: Positions.Book, h: Reservations.Book, c: Context, id: int, entries: seq<Entry>)
    requires c.inst.balanceCheck
    ensures PositionOf(BookFills(p, h, c, id, entries).0, c) ==
            if IsBuy(c) then Bought(PositionOf(p, c), entries) else Sold(PositionOf(p, c), entries)
  {
    if entries != [] {
      var init, e := entries[..|entries| - 1], entries[|entries| - 1];
      FillsSettle(p, h, c, id, init);
      if e.Trade? {
        Positions.ApplyDeltaAt(BookFills(p, h, c, id, init).0, FillDelta(c, e.qty), (c.account, c.inst.pos));
      }
    }
  }

  /** A long position split without loss into a frozen and an available part. */
  ghost predicate Tidy(p: Positions.Position, frozen: real, total: real) {
    Positions.Split(p) && !p.isShort && p.frozen == frozen && p.total == total
  }

  function Less(x: real, y: real): real { if x <= y then 0.0 else x - y }

  /** Whatever is sold, up to the total, comes out of the frozen part first and out of the total. */
  lemma {:induction false} SoldTidy(p: Positions.Position, entries: seq<Entry>)
    requires Tidy(p, p.frozen, p.total) && NonNegativeTrades(entries) && TradedIn(entries) <= p.total
    ensures Tidy(Sold(p, entries), Less(p.frozen, TradedIn(entries)), p.total - TradedIn(entries))
  {
    if entries != [] {
      var init, e := entries[..|entries| - 1], entries[|entries| - 1];
      assert entries == init + [e];
      TradedNonNegative(init);
      SoldTidy(p, init);
    }
  }

  /** Buys go into the available part and the total. */
  lemma {:induction false} BoughtRises(p: Positions.Position, entries: seq<Entry>)
    requires Tidy(p, p.frozen, p.total) && NonNegativeTrades(entries)
    ensures Tidy(Bought(p, entries), p.frozen, p.total + TradedIn(entries))
  {
    if entries != [] {
      var init, e := entries[..|entries| - 1], entries[|entries| - 1];
      assert entries == init + [e];
      BoughtRises(p, init);
      if e.Trade? { Positions.BuyFill(Bought(p, init), 0, "", e.qty); }
    }
  }

  /** Nothing traded, nothing moved. */
  lemma {:induction false} NothingSold(p: Positions.Position, entries: seq<Entry>)
    requires Tidy(p, p.frozen, p.total) && NonNegativeTrades(entries) && TradedIn(entries) == 0.0
    ensures Sold(p, entries) == p
  {
    if entries != [] {
      var init, e := entries[..|entries| - 1], entries[|entries| - 1];
      assert entries == init + [e];
      TradedNonNegative(init);
      NothingSold(p, init);
    }
  }

  /**
   Whatever is sold of a position with nothing short about it: the frozen part never goes below zero,
   the total is never negative, and it falls by the quantity sold only as long as there is that much.
   */
  lemma {:induction false} SoldBounds(p: Positions.Position, entries: seq<Entry>)
    requires Tidy(p, p.frozen, p.total) && NonNegativeTrades(entries)
    ensures var q, t := Sold(p, entries), TradedIn(entries);
            && q.frozen == Less(p.frozen, t) && 0.0 <= q.total <= p.total + t
            && (t <= p.total ==> q.total == p.total - t && !q.isShort)
            && (0.0 < t && q.total == p.total + t ==> q.isShort)
  {
    if entries != [] {
      var init, e := entries[..|entries| - 1], entries[|entries| - 1];
      assert entries == init + [e];
      TradedNonNegative(init);
      SoldBounds(p, init);
      if TradedIn(init) == 0.0 { NothingSold(p, init); }
    }
  }

  /** Booking a buy as a sell never ends where booking it as a buy would. */
  lemma SoldIsNotBought(p: Positions.Position, entries: seq<Entry>, frozen: real)
    requires Tidy(p, p.frozen, p.total) && NonNegativeTrades(entries) && TradedIn(entries) > 0.0
    ensures !Tidy(Sold(p, entries), frozen, p.total + TradedIn(entries))
  {
    SoldBounds(p, entries);
  }

  // ---------------------------------------------------------------------
  // Closing
  // ---------------------------------------------------------------------

  /** What terminal cleanup unfreezes. */
  function Thaw(order: Order, closing: bool): real {
    if closing && order.side.Sell? then Less(order.qty, order.filled) else 0.0
  }

  lemma CleanupAt(p: Positions.Book, c: Context, order: Order, key: (int, string))
    requires c.inst.bookkeeping && c.inst.balanceCheck && Positions.At(p, key).frozen >= 0.0
    ensures Positions.At(Cleanup(p, Some(c), order), key) ==
            if key == (c.account, c.inst.pos) then Positions.Thawed(Positions.At(p, key), Thaw(order, true)) else Positions.At(p, key)
  {}

  /** Thawing gives back up to what is frozen and moves nothing else. */
  lemma ThawedTidy(p: Positions.Position, qty: real)
    requires Tidy(p, p.frozen, p.total) && qty >= 0.0
    ensures Tidy(Positions.Thawed(p, qty), Less(p.frozen, qty), p.total)
  {}

  /** What is traded and thawed comes out of the `before` that was set aside and leaves `after` - or nothing should be frozen any more. */
  predicate Takes(p: Positions.Position, traded: real, thaw: real, before: real, after: real) {
    && traded <= p.total
    && if p.frozen > traded + thaw then after == before - traded - thaw else p.frozen - before + after == 0.0
  }

  /**
   Of a position that freezes `before` for one sell and `rest` for others, something is sold and something
   thawed. It then freezes `after` and `rest` exactly when both came out of `before` - or nothing should be
   frozen any more - and the total covers what was sold.
   */
  lemma SoldAndThawed(p: Positions.Position, entries: seq<Entry>, thaw: real, rest: real, before: real, after: real)
    requires Tidy(p, rest + before, p.total) && NonNegativeTrades(entries) && thaw >= 0.0 && rest >= 0.0 && before >= 0.0 && after >= 0.0
    ensures Tidy(Positions.Thawed(Sold(p, entries), thaw), rest + after, p.total - TradedIn(entries)) <==>
            Takes(p, TradedIn(entries), thaw, before, after)
  {
    TradedNonNegative(entries);
    if TradedIn(entries) <= p.total {
      SoldTidy(p, entries);
      ThawedTidy(Sold(p, entries), thaw);
    }
  }

  // ---------------------------------------------------------------------
  // What is set aside for a sell
  // ---------------------------------------------------------------------

  /** While it is open, what it has not traded; once it is closed, what its state says was filled and no trade has shown yet. */
  function SetAside(closed: bool, qty: real, filled: real, traded: real): real {
    if closed then Less(Min(filled, qty), traded) else qty - traded
  }

  lemma LiveTakes(p: Positions.Position, qty: real, traded: real, t: real, filled: real, closing: bool)
    requires Tidy(p, p.frozen, p.total) && t >= 0.0 && traded <= qty && qty - traded <= p.frozen && (!closing ==> traded + t <= qty)
    ensures Takes(p, t, if closing then Less(qty, filled) else 0.0, SetAside(false, qty, filled, traded), SetAside(closing, qty, filled, traded + t)) <==>
            !closing || traded + t <= Min(filled, qty) || (p.frozen == qty - traded && t <= p.total)
  {}

  lemma LateTakes(p: Positions.Position, qty: real, traded: real, t: real, before: real, filled: real)
    requires Tidy(p, p.frozen, p.total) && t >= 0.0 && before <= filled && SetAside(true, qty, before, traded) <= p.frozen
    ensures var was, now := SetAside(true, qty, before, traded), SetAside(true, qty, filled, traded + t);
            Takes(p, t, Less(qty, filled), was, now) <==>
            (qty <= filled && now == was - t) || (p.frozen == was && now == 0.0 && t <= p.total)
  {}

  lemma ReopenTakes(p: Positions.Position, qty: real, traded: real, t: real, filled: real)
    requires Tidy(p, p.frozen, p.total) && t >= 0.0 && traded + t <= qty && SetAside(true, qty, filled, traded) <= p.frozen
    ensures var was := SetAside(true, qty, filled, traded);
            Takes(p, t, 0.0, was, qty - traded - t) <==>
            was == qty - traded || (traded + t == qty && (t == 0.0 || (p.frozen == was && t <= p.total)))
  {}

  /** Freezing `x` more keeps a position tidy exactly when it is set aside, and nothing is to be added to the total. */
  lemma FrozenTidy(p: Positions.Position, x: real, rest: real, before: real, after: real, net: real, gone: real)
    requires Tidy(p, rest + before, net + gone) && x <= p.available && rest >= 0.0 && after >= 0.0
    ensures Tidy(Positions.Frozen(p, x), rest + after, net) <==> gone == 0.0 && after == before + x
  {}
}
