/**
 Per-order holds against cash or inventory, with a per-(account, symbol) index of
 their totals that is maintained incrementally.
 */
module Reservations {
  import opened Reals

  datatype Reservation = Reservation(account: int, symbol: string, qty: real, isPosition: bool)

  /** The reservations by order id, and the totals index by account and symbol. */
  datatype Book = Book(holds: map<int, Reservation>, totals: map<(int, string), real>)

  const EMPTY_BOOK := Book(map[], map[])

  function TotalReserved(b: Book, account: int, symbol: string): real {
    if (account, symbol) in b.totals then b.totals[(account, symbol)] else 0.0
  }

  /** A total that is used up is dropped from the index. */
  function Deduct(totals: map<(int, string), real>, key: (int, string), qty: real): map<(int, string), real> {
    if key !in totals then totals
    else if totals[key] - qty <= 0.0 then totals - {key}
    else totals[key := totals[key] - qty]
  }

  /** A second reservation for the same order is refused. */
  function Reserve(b: Book, id: int, r: Reservation): Book {
    if id in b.holds then b
    else Book(b.holds[id := r], b.totals[(r.account, r.symbol) := TotalReserved(b, r.account, r.symbol) + r.qty])
  }

  function Release(b: Book, id: int): Book {
    if id !in b.holds then b
    else
      var r := b.holds[id];
      Book(b.holds - {id}, Deduct(b.totals, (r.account, r.symbol), r.qty))
  }

  /** Release at most what is held; a hold that is used up is removed. */
  function ReleasePartial(b: Book, id: int, amount: real): Book {
    if id !in b.holds then b
    else
      var r := b.holds[id];
      var released := Min(amount, r.qty);
      var holds := if r.qty - released <= 0.0 then b.holds - {id} else b.holds[id := r.(qty := r.qty - released)];
      Book(holds, Deduct(b.totals, (r.account, r.symbol), released))
  }

  /** Whether `required` fits into `available` on top of everything already reserved. */
  predicate Fits(b: Book, account: int, symbol: string, required: real, available: real) {
    available - TotalReserved(b, account, symbol) >= required
  }

  /** What is still held for an order. */
  function Held(b: Book, id: int): real {
    if id in b.holds then b.holds[id].qty else 0.0
  }

  ghost function HoldsOf(holds: map<int, Reservation>, account: int, symbol: string): map<int, real> {
    map id | id in holds && holds[id].account == account && holds[id].symbol == symbol :: holds[id].qty
  }

  /** No hold is negative, and the index is the sum of the holds. */
  ghost predicate Balanced(b: Book) {
    && (forall id :: id in b.holds ==> b.holds[id].qty >= 0.0)
    && (forall a, s :: TotalReserved(b, a, s) == Sum(HoldsOf(b.holds, a, s)))
  }

  lemma HoldsWithout(holds: map<int, Reservation>, id: int, account: int, symbol: string)
    ensures HoldsOf(holds - {id}, account, symbol) == HoldsOf(holds, account, symbol) - {id}
  {}

  /** The sum for (account, symbol) with one hold replaced. */
  lemma SumWith(holds: map<int, Reservation>, id: int, r: Reservation, account: int, symbol: string)
    ensures Sum(HoldsOf(holds[id := r], account, symbol)) ==
            Sum(HoldsOf(holds, account, symbol) - {id}) + if r.account == account && r.symbol == symbol then r.qty else 0.0
  {
    var m := HoldsOf(holds, account, symbol);
    if r.account == account && r.symbol == symbol {
      assert HoldsOf(holds[id := r], account, symbol) == m[id := r.qty];
      SumUpdate(m, id, r.qty);
    } else {
      assert HoldsOf(holds[id := r], account, symbol) == m - {id};
    }
  }

  lemma SumWithout(holds: map<int, Reservation>, id: int, account: int, symbol: string)
    requires id in holds
    ensures Sum(HoldsOf(holds, account, symbol)) ==
            Sum(HoldsOf(holds, account, symbol) - {id}) +
            if holds[id].account == account && holds[id].symbol == symbol then holds[id].qty else 0.0
  {
    SumWith(holds, id, holds[id], account, symbol);
    assert holds[id := holds[id]] == holds;
  }

  lemma ReserveKeepsBalance(b: Book, id: int, r: Reservation)
    requires Balanced(b) && r.qty >= 0.0
    ensures Balanced(Reserve(b, id, r))
  {
    if id !in b.holds {
      forall a, s ensures TotalReserved(Reserve(b, id, r), a, s) == Sum(HoldsOf(Reserve(b, id, r).holds, a, s)) {
        SumWith(b.holds, id, r, a, s);
        assert HoldsOf(b.holds, a, s) - {id} == HoldsOf(b.holds, a, s);
      }
    }
  }

  /** Deducting what a hold gave up keeps the index equal to the sum of what remains. */
  lemma DeductKeepsBalance(b: Book, id: int, amount: real, a: int, s: string)
    requires Balanced(b) && id in b.holds && 0.0 <= amount <= b.holds[id].qty
    ensures var r := b.holds[id];
            var left := TotalReserved(Book(b.holds, Deduct(b.totals, (r.account, r.symbol), amount)), a, s);
            left == Sum(HoldsOf(b.holds, a, s) - {id}) + if r.account == a && r.symbol == s then r.qty - amount else 0.0
  {
    SumWithout(b.holds, id, a, s);
    SumNonNegative(HoldsOf(b.holds, a, s) - {id});
  }

  lemma ReleaseKeepsBalance(b: Book, id: int)
    requires Balanced(b)
    ensures Balanced(Release(b, id))
  {
    if id in b.holds {
      forall a, s ensures TotalReserved(Release(b, id), a, s) == Sum(HoldsOf(Release(b, id).holds, a, s)) {
        DeductKeepsBalance(b, id, b.holds[id].qty, a, s);
        HoldsWithout(b.holds, id, a, s);
      }
    }
  }

  lemma ReleasePartialTotal(b: Book, id: int, amount: real, a: int, s: string)
    requires Balanced(b) && amount >= 0.0 && id in b.holds
    ensures var b' := ReleasePartial(b, id, amount); TotalReserved(b', a, s) == Sum(HoldsOf(b'.holds, a, s))
  {
    var r := b.holds[id];
    var released := Min(amount, r.qty);
    DeductKeepsBalance(b, id, released, a, s);
    HoldsWithout(b.holds, id, a, s);
    SumWith(b.holds, id, r.(qty := r.qty - released), a, s);
  }

  lemma ReleasePartialKeepsBalance(b: Book, id: int, amount: real)
    requires Balanced(b) && amount >= 0.0
    ensures Balanced(ReleasePartial(b, id, amount))
  {
    if id in b.holds {
      var b' := ReleasePartial(b, id, amount);
      forall a, s ensures TotalReserved(b', a, s) == Sum(HoldsOf(b'.holds, a, s)) {
        ReleasePartialTotal(b, id, amount, a, s);
      }
    }
  }

  // ---------------------------------------------------------------------
  // Any interleaving
  // ---------------------------------------------------------------------

  datatype Op = ReserveOp(id: int, r: Reservation) | ReleaseOp(id: int) | ReleasePartialOp(id: int, amount: real)

  function ApplyOp(b: Book, op: Op): Book {
    match op
    case ReserveOp(id, r) => Reserve(b, id, r)
    case ReleaseOp(id) => Release(b, id)
    case ReleasePartialOp(id, amount) => ReleasePartial(b, id, amount)
  }

  ghost function ApplyOps(b: Book, ops: seq<Op>): Book
    decreases |ops|
  {
    if ops == [] then b else ApplyOps(ApplyOp(b, ops[0]), ops[1..])
  }

  ghost predicate NonNegativeAmount(op: Op) {
    match op
    case ReserveOp(_, r) => r.qty >= 0.0
    case ReleaseOp(_) => true
    case ReleasePartialOp(_, amount) => amount >= 0.0
  }

  lemma {:induction false} RunKeepsBalance(b: Book, ops: seq<Op>)
    requires Balanced(b) && forall op :: op in ops ==> NonNegativeAmount(op)
    ensures Balanced(ApplyOps(b, ops))
    decreases |ops|
  {
    if ops != [] {
      assert NonNegativeAmount(ops[0]);
      match ops[0] {
        case ReserveOp(id, r) => ReserveKeepsBalance(b, id, r);
        case ReleaseOp(id) => ReleaseKeepsBalance(b, id);
        case ReleasePartialOp(id, amount) => ReleasePartialKeepsBalance(b, id, amount);
      }
      assert forall op :: op in ops[1..] ==> op in ops;
      RunKeepsBalance(ApplyOp(b, ops[0]), ops[1..]);
    }
  }

  /** The empty book is balanced. */
  lemma EmptyIsBalanced()
    ensures Balanced(EMPTY_BOOK)
  {
    forall a, s ensures Sum(HoldsOf(EMPTY_BOOK.holds, a, s)) == 0.0 {
      assert HoldsOf(EMPTY_BOOK.holds, a, s) == map[];
    }
  }

  /** Whatever is reserved and released, with non-negative amounts, the totals index equals the sum of the live holds. */
  lemma IndexIsSumOverAnyRun(ops: seq<Op>, account: int, symbol: string)
    requires forall op :: op in ops ==> NonNegativeAmount(op)
    ensures var b := ApplyOps(EMPTY_BOOK, ops);
            TotalReserved(b, account, symbol) == Sum(HoldsOf(b.holds, account, symbol))
  {
    EmptyIsBalanced();
    RunKeepsBalance(EMPTY_BOOK, ops);
  }

  /** Checking before reserving never commits more than is available. */
  lemma CheckThenReserve(b: Book, id: int, r: Reservation, available: real)
    requires Balanced(b) && r.qty >= 0.0 && Fits(b, r.account, r.symbol, r.qty, available)
    ensures TotalReserved(Reserve(b, id, r), r.account, r.symbol) <= available
    ensures forall a, s :: (a, s) != (r.account, r.symbol) ==>
              TotalReserved(Reserve(b, id, r), a, s) == TotalReserved(b, a, s)
  {}

  /** Partial releases of one order add up: what is held is what was held less what was released, never below zero. */
  lemma HeldAfterPartial(b: Book, id: int, amount: real)
    requires id in b.holds ==> b.holds[id].qty >= 0.0
    requires amount >= 0.0
    ensures Held(ReleasePartial(b, id, amount), id) == if Held(b, id) <= amount then 0.0 else Held(b, id) - amount
    ensures forall j :: j != id ==> Held(ReleasePartial(b, id, amount), j) == Held(b, j)
  {}

  class ReservationManager {
    var reservations: map<int, Reservation>
    var accountTotals: map<(int, string), real>

    function Contents(): Book
      reads this
    {
      Book(reservations, accountTotals)
    }

    constructor ()
      ensures Contents() == EMPTY_BOOK
    {
      reservations, accountTotals := map[], map[];
    }

    method ReserveFor(id: int, account: int, symbol: string, qty: real, isPosition: bool) returns (ok: bool)
      modifies this
      ensures ok == (id !in old(reservations))
      ensures Contents() == Reserve(old(Contents()), id, Reservation(account, symbol, qty, isPosition))
    {
      if id in reservations { return false; }
      reservations := reservations[id := Reservation(account, symbol, qty, isPosition)];
      var key := (account, symbol);
      if key !in accountTotals { accountTotals := accountTotals[key := 0.0]; }
      accountTotals := accountTotals[key := accountTotals[key] + qty];
      return true;
    }

    method ReleaseOrder(id: int)
      modifies this
      ensures Contents() == Release(old(Contents()), id)
    {
      if id in reservations {
        var r := reservations[id];
        reservations := reservations - {id};
        TakeOff((r.account, r.symbol), r.qty);
      }
    }

    method ReleaseFilled(id: int, filled: real)
      modifies this
      ensures Contents() == ReleasePartial(old(Contents()), id, filled)
    {
      if id in reservations {
        var r := reservations[id];
        var released := Min(filled, r.qty);
        reservations := reservations[id := r.(qty := r.qty - released)];
        TakeOff((r.account, r.symbol), released);
        if r.qty - released <= 0.0 { reservations := reservations - {id}; }
      }
    }

    method TakeOff(key: (int, string), qty: real)
      modifies this`accountTotals
      ensures accountTotals == Deduct(old(accountTotals), key, qty)
    {
      if key in accountTotals {
        accountTotals := accountTotals[key := accountTotals[key] - qty];
        if accountTotals[key] <= 0.0 { accountTotals := accountTotals - {key}; }
      }
    }

    /** The indexed total is the sum over live holds, whatever run produced them. */
    method Total(account: int, symbol: string) returns (total: real)
      requires Balanced(Contents())
      ensures total == Sum(HoldsOf(reservations, account, symbol))
    {
      total := TotalReserved(Contents(), account, symbol);
    }

    method CheckAvailable(account: int, symbol: string, required: real, available: real) returns (ok: bool)
      requires Balanced(Contents())
      ensures ok <==> Sum(HoldsOf(reservations, account, symbol)) + required <= available
    {
      ok := Fits(Contents(), account, symbol, required, available);
    }
  }
}
