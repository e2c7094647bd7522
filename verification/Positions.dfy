/**
 Positions the order management system owns: for each account and instrument a
 total, split into a frozen part (held by open sells) and an available part.
 */
module Positions {
  import opened Ordering

  datatype Position = Position(total: real, frozen: real, available: real, isShort: bool)

  datatype Delta = Delta(account: int, symbol: string, isShort: bool, availChange: real, frozenChange: real, totalChange: real)

  /** Positions by account and symbol. */
  type Book = map<(int, string), Position>

  function Flat(): Position { Position(0.0, 0.0, 0.0, false) }

  function At(b: Book, key: (int, string)): Position {
    if key in b then b[key] else Flat()
  }

  function Abs(x: real): real { if x < 0.0 then -x else x }

  function Frozen(p: Position, qty: real): Position {
    Position(p.total, p.frozen + qty, p.available - qty, p.isShort)
  }

  /** Move `qty` from available to frozen; None when not enough is available. */
  function CheckAndFreeze(b: Book, account: int, symbol: string, qty: real): Option<Book> {
    if At(b, (account, symbol)).available < qty then None
    else Some(b[(account, symbol) := Frozen(At(b, (account, symbol)), qty)])
  }

  function Thawed(p: Position, qty: real): Position {
    var released := if qty <= p.frozen then qty else p.frozen;
    Position(p.total, p.frozen - released, p.available + released, p.isShort)
  }

  /** Move up to `qty` back from frozen to available. */
  function Unfreeze(b: Book, account: int, symbol: string, qty: real): Book {
    if (account, symbol) in b then b[(account, symbol) := Thawed(b[(account, symbol)], qty)] else b
  }

  /** The position after a fill: parts are clamped, and a negative total turns the position over. */
  function Settled(p: Position, d: Delta): Position {
    var total := p.total + d.totalChange;
    var frozen := if p.frozen + d.frozenChange < 0.0 then 0.0 else p.frozen + d.frozenChange;
    var available := if p.available + d.availChange > total then total else p.available + d.availChange;
    if total < 0.0 then Position(Abs(total), frozen, Abs(available), !p.isShort) else Position(total, frozen, available, p.isShort)
  }

  function ApplyDelta(b: Book, d: Delta): Book {
    var key := (d.account, d.symbol);
    b[key := Settled(if key in b then b[key] else Flat().(isShort := d.isShort), d)]
  }

  function SellDelta(account: int, symbol: string, qty: real): Delta { Delta(account, symbol, false, 0.0, -qty, -qty) }

  function BuyDelta(account: int, symbol: string, qty: real): Delta { Delta(account, symbol, false, qty, 0.0, qty) }

  /** Nothing is lost between the parts, and no part is negative. */
  ghost predicate Split(p: Position) {
    p.available + p.frozen == p.total && p.available >= 0.0 && p.frozen >= 0.0
  }

  /** Applying a delta settles the one position it names. */
  lemma ApplyDeltaAt(b: Book, d: Delta, key: (int, string))
    requires !d.isShort && key == (d.account, d.symbol)
    ensures At(ApplyDelta(b, d), key) == Settled(At(b, key), d)
  {}

  /**
   A fill of frozen quantity takes it out of the frozen part and the total, and leaves the position
   split and on its side, exactly when that much is frozen.
   */
  lemma SellFill(p: Position, account: int, symbol: string, qty: real)
    requires Split(p) && qty >= 0.0
    ensures qty <= p.frozen <==>
              Settled(p, SellDelta(account, symbol, qty)) == Position(p.total - qty, p.frozen - qty, p.available, p.isShort)
    ensures qty <= p.frozen ==> Split(Settled(p, SellDelta(account, symbol, qty)))
  {}

  lemma BuyFill(p: Position, account: int, symbol: string, qty: real)
    requires Split(p) && qty >= 0.0
    ensures Settled(p, BuyDelta(account, symbol, qty)) == Position(p.total + qty, p.frozen, p.available + qty, p.isShort)
    ensures Split(Settled(p, BuyDelta(account, symbol, qty)))
  {}

  /** Freezing and unfreezing the same quantity is a round trip. */
  lemma FreezeUnfreeze(p: Position, qty: real)
    requires Split(p) && 0.0 <= qty <= p.available
    ensures Split(Frozen(p, qty)) && Thawed(Frozen(p, qty), qty) == p
  {}

  /** Freezing moves one position and no other. */
  lemma FreezeAt(b: Book, account: int, symbol: string, qty: real, key: (int, string))
    requires CheckAndFreeze(b, account, symbol, qty).Some?
    ensures var p := At(CheckAndFreeze(b, account, symbol, qty).value, key);
            if (account, symbol) == key then p == Frozen(At(b, key), qty) && p.available >= 0.0 else p == At(b, key)
  {}

  class PositionManager {
    var managed: Book

    constructor (initial: Book)
      ensures managed == initial
    {
      managed := initial;
    }

    method Freeze(account: int, symbol: string, qty: real) returns (ok: bool)
      modifies this
      ensures ok == CheckAndFreeze(old(managed), account, symbol, qty).Some?
      ensures managed == if ok then CheckAndFreeze(old(managed), account, symbol, qty).value else old(managed)
    {
      var key := (account, symbol);
      var avail := if key in managed then managed[key].available else 0.0;
      if avail < qty { return false; }
      if key !in managed { managed := managed[key := Flat()]; }
      managed := managed[key := managed[key].(available := managed[key].available - qty, frozen := managed[key].frozen + qty)];
      return true;
    }

    method Release(account: int, symbol: string, qty: real)
      modifies this
      ensures managed == Unfreeze(old(managed), account, symbol, qty)
    {
      var key := (account, symbol);
      if key in managed {
        var released := if qty <= managed[key].frozen then qty else managed[key].frozen;
        managed := managed[key := managed[key].(frozen := managed[key].frozen - released, available := managed[key].available + released)];
      }
    }

    method Apply(d: Delta)
      modifies this
      ensures managed == ApplyDelta(old(managed), d)
    {
      var key := (d.account, d.symbol);
      if key !in managed { managed := managed[key := Flat().(isShort := d.isShort)]; }
      var p := managed[key];
      p := p.(total := p.total + d.totalChange);
      p := p.(frozen := if p.frozen + d.frozenChange < 0.0 then 0.0 else p.frozen + d.frozenChange);
      var newAvail := p.available + d.availChange;
      p := p.(available := if newAvail > p.total then p.total else newAvail);
      if p.total < 0.0 {
        p := p.(isShort := !p.isShort, total := Abs(p.total), available := Abs(p.available));
      }
      managed := managed[key := p];
    }
  }
}
