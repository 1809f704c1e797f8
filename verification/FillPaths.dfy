/** Filling an order in parts, or at once: the same ledger and the same book. */
module FillPaths {
  import opened U64
  import opened Ledger
  import opened NativeBalances
  import opened Runs
  import opened Effects
  import opened Integrity
  import opened NativeEscrow
  import opened OrderLife
  import CX = CarbonExchange

  function Sum(amounts: seq<u64>): nat {
    if amounts == [] then 0 else amounts[0] + Sum(amounts[1..])
  }

  /** The same taker fills the order with each amount in turn. */
  function FillAll(s: State, taker: AccountId, id: Hash, amounts: seq<u64>, restricted: bool): State
    decreases |amounts|
  {
    if amounts == [] then s
    else FillAll(CX.TakeOrder(s, taker, id, amounts[0], restricted).state, taker, id, amounts[1..], restricted)
  }

  /** Everything stored, without the log: a filled order is logged once per fill. */
  function Stored(s: State): State {
    s.(events := [])
  }

  lemma SetTwice(b: Carbon, a: Hash, who: AccountId, v: u64, w: u64)
    ensures SetBalance(SetBalance(b, a, who, v), a, who, w) == SetBalance(b, a, who, w)
  {
  }

  lemma SetsCommute(b: Carbon, a: Hash, x: AccountId, v: u64, y: AccountId, w: u64)
    requires x != y
    ensures SetBalance(SetBalance(b, a, x, v), a, y, w) == SetBalance(SetBalance(b, a, y, w), a, x, v)
  {
  }

  lemma AddsCompose(x: u64, v: u64, w: u64)
    requires v + w <= U64_MAX
    ensures Add(Add(x, v), w) == Add(x, v + w)
  {
  }

  lemma SubsCompose(x: u64, v: u64, w: u64)
    requires v + w <= U64_MAX
    ensures Sub(Sub(x, v), w) == Sub(x, v + w)
  {
  }

  lemma MovesCompose(b: Carbon, a: Hash, from: AccountId, to: AccountId, m: u64, n: u64)
    requires m + n <= U64_MAX
    ensures MakeTransfer(MakeTransfer(b, a, from, to, m), a, from, to, n) == MakeTransfer(b, a, from, to, m + n)
    ensures m + n <= BalanceOf(b, a, from) ==> n <= BalanceOf(MakeTransfer(b, a, from, to, m), a, from)
  {
    if from != to {
      var x, y := BalanceOf(b, a, from), BalanceOf(b, a, to);
      var x1, y1 := Sub(x, m), Add(y, m);
      var x2, y2 := Sub(x1, n), Add(y1, n);
      SubsCompose(x, m, n);
      AddsCompose(y, m, n);
      SetsCommute(SetBalance(b, a, from, x1), a, to, y1, from, x2);
      SetTwice(b, a, from, x1, x2);
      SetTwice(SetBalance(b, a, from, x2), a, to, y1, y2);
    }
  }

  lemma ZeroMoveStays(b: Carbon, a: Hash, from: AccountId, to: AccountId)
    requires forall k :: k in b ==> b[k] > 0
    ensures MakeTransfer(b, a, from, to, 0) == b
  {
  }

  /** Paying `v` and then `w` is paying both at once: the first part reaps no payer and brings the payee to life. */
  predicate PaysInParts(m: Accounts, from: AccountId, to: AccountId, v: int, w: int) {
    || from == to || v == 0 || w == 0
    || (Free(m, from) - v >= EXISTENTIAL_DEPOSIT && Free(m, to) + v >= EXISTENTIAL_DEPOSIT)
  }

  lemma PaymentsCompose(m: Accounts, from: AccountId, to: AccountId, v: u64, w: u64, restricted: bool)
    requires v + w <= U64_MAX
    requires MakePayment(m, from, to, v + w, restricted).Moved? && PaysInParts(m, from, to, v, w)
    ensures MakePayment(m, from, to, v, restricted).Moved?
    ensures var m' := MakePayment(m, from, to, v, restricted).accounts;
            && MakePayment(m', from, to, w, restricted) == MakePayment(m, from, to, v + w, restricted)
            && (from != to && w > 0 ==> Free(m', from) == Free(m, from) - v && Free(m', to) == Free(m, to) + v)
  {
  }

  /** When the first part fails to do that, it is refused, or it leaves the payer with nothing. */
  lemma PaymentsPart(m: Accounts, from: AccountId, to: AccountId, v: u64, w: u64, restricted: bool)
    requires v + w <= U64_MAX
    requires MakePayment(m, from, to, v + w, restricted).Moved? && !PaysInParts(m, from, to, v, w)
    ensures var p := MakePayment(m, from, to, v, restricted);
            p.Refused? || Free(p.accounts, from) == 0
  {
  }

  /** One fill of `amount` succeeds, without clipping its cost. */
  predicate Unclipped(s: State, taker: AccountId, id: Hash, amount: u64, restricted: bool) {
    && CX.TakeOrder(s, taker, id, amount, restricted).outcome == Ok
    && amount * s.orders[id].price <= U64_MAX
  }

  /** What filling `a` and then `b` instead of `a + b` comes to. */
  ghost predicate SplitsEvenly(s: State, taker: AccountId, id: Hash, a: u64, b: u64, restricted: bool)
    requires a + b <= U64_MAX
  {
    var first := CX.TakeOrder(s, taker, id, a, restricted);
    && first.outcome == Ok
    && Unclipped(first.state, taker, id, b, restricted)
    && Stored(CX.TakeOrder(first.state, taker, id, b, restricted).state)
       == Stored(CX.TakeOrder(s, taker, id, a + b, restricted).state)
  }

  // ---- a fill that costs `money`, whatever the price ----

  /** Every check passes of a fill that costs `money`. */
  predicate Fillable(s: State, taker: AccountId, id: Hash, amount: u64, money: u64, restricted: bool) {
    && id in s.orders
    && var o := s.orders[id];
       && amount <= o.leftAmount
       && amount <= BalanceOf(s.carbon, o.assetId, Giver(o, taker))
       && MakePayment(s.native, Payer(o, taker), Payee(o, taker), money, o.direction == ASK && restricted).Moved?
  }

  /** What such a fill stores. */
  function AfterFill(s: State, taker: AccountId, id: Hash, amount: u64, money: u64, restricted: bool): State
    requires Fillable(s, taker, id, amount, money, restricted)
  {
    var o := s.orders[id];
    s.(carbon := MakeTransfer(s.carbon, o.assetId, Giver(o, taker), Receiver(o, taker), amount),
       native := MakePayment(s.native, Payer(o, taker), Payee(o, taker), money,
                             o.direction == ASK && restricted).accounts,
       orders := CX.BookAfterFill(s.orders, id, Paid(o, money), amount))
  }

  /** `take_order` is such a fill, at the clipped product of amount and price. */
  lemma FillIs(s: State, taker: AccountId, id: Hash, amount: u64, money: u64, restricted: bool)
    requires id in s.orders ==> money == SaturatingMul(amount, s.orders[id].price)
    ensures CX.TakeOrder(s, taker, id, amount, restricted).outcome == Ok <==>
            Fillable(s, taker, id, amount, money, restricted)
    ensures Fillable(s, taker, id, amount, money, restricted) ==>
              Stored(CX.TakeOrder(s, taker, id, amount, restricted).state) ==
              Stored(AfterFill(s, taker, id, amount, money, restricted))
  {
    // The two directions are expanded apart.
    if id in s.orders && s.orders[id].direction == ASK {
    } else {
    }
  }

  /** The order as the first of two fills leaves it. */
  function Part(o: Order, amount: u64, money: u64): Order
    requires amount <= o.leftAmount
  {
    Paid(o, money).(leftAmount := o.leftAmount - amount)
  }

  lemma BooksCompose(orders: Orders, id: Hash, o: Order, a: u64, b: u64, v: u64, w: u64)
    requires a < o.leftAmount && a + b <= o.leftAmount && v + w <= U64_MAX
    ensures CX.BookAfterFill(orders, id, Paid(o, v), a) == orders[id := Part(o, a, v)]
    ensures CX.BookAfterFill(orders[id := Part(o, a, v)], id, Paid(Part(o, a, v), w), b)
         == CX.BookAfterFill(orders, id, Paid(o, v + w), a + b)
  {
    SubsCompose(o.lockedBalance, v, w);
  }

  /** The first of two fills goes through. */
  lemma FirstFillable(s: State, taker: AccountId, id: Hash, a: u64, b: u64, v: u64, w: u64, restricted: bool)
    requires a + b <= U64_MAX && v + w <= U64_MAX
    requires Fillable(s, taker, id, a + b, v + w, restricted)
    requires var o := s.orders[id];
             a < o.leftAmount && PaysInParts(s.native, Payer(o, taker), Payee(o, taker), v, w)
    ensures Fillable(s, taker, id, a, v, restricted)
  {
    var o := s.orders[id];
    PaymentsCompose(s.native, Payer(o, taker), Payee(o, taker), v, w, o.direction == ASK && restricted);
  }

  /** And leaves the order ready for the second. */
  lemma FirstFill(s: State, taker: AccountId, id: Hash, a: u64, b: u64, v: u64, w: u64, restricted: bool)
    requires a + b <= U64_MAX && v + w <= U64_MAX
    requires Fillable(s, taker, id, a + b, v + w, restricted)
    requires var o := s.orders[id];
             a < o.leftAmount && PaysInParts(s.native, Payer(o, taker), Payee(o, taker), v, w)
    requires Fillable(s, taker, id, a, v, restricted)
    ensures var o, s1 := s.orders[id], AfterFill(s, taker, id, a, v, restricted);
            && s1.orders == s.orders[id := Part(o, a, v)]
            && (Payer(o, taker) != Payee(o, taker) && w > 0 ==>
                  && Free(s1.native, Payer(o, taker)) == Free(s.native, Payer(o, taker)) - v
                  && Free(s1.native, Payee(o, taker)) == Free(s.native, Payee(o, taker)) + v)
            && Fillable(s1, taker, id, b, w, restricted)
  {
    var o := s.orders[id];
    var s1 := AfterFill(s, taker, id, a, v, restricted);
    BooksCompose(s.orders, id, o, a, b, v, w);
    var o1 := Part(o, a, v);
    assert s1.orders[id] == o1;
    PaymentsCompose(s.native, Payer(o, taker), Payee(o, taker), v, w, o.direction == ASK && restricted);
    assert MakePayment(s1.native, Payer(o1, taker), Payee(o1, taker), w, o1.direction == ASK && restricted).Moved?;
    MovesCompose(s.carbon, o.assetId, Giver(o, taker), Receiver(o, taker), a, b);
    assert b <= BalanceOf(s1.carbon, o1.assetId, Giver(o1, taker));
  }

  lemma FillsCompose(s: State, taker: AccountId, id: Hash, a: u64, b: u64, v: u64, w: u64, restricted: bool)
    requires a + b <= U64_MAX && v + w <= U64_MAX
    requires Fillable(s, taker, id, a + b, v + w, restricted)
    requires var o := s.orders[id];
             a < o.leftAmount && PaysInParts(s.native, Payer(o, taker), Payee(o, taker), v, w)
    requires Fillable(s, taker, id, a, v, restricted)
    requires Fillable(AfterFill(s, taker, id, a, v, restricted), taker, id, b, w, restricted)
    ensures AfterFill(AfterFill(s, taker, id, a, v, restricted), taker, id, b, w, restricted)
         == AfterFill(s, taker, id, a + b, v + w, restricted)
  {
    var o := s.orders[id];
    var s1 := AfterFill(s, taker, id, a, v, restricted);
    BooksCompose(s.orders, id, o, a, b, v, w);
    assert s1.orders[id] == Part(o, a, v);
    PaymentsCompose(s.native, Payer(o, taker), Payee(o, taker), v, w, o.direction == ASK && restricted);
    MovesCompose(s.carbon, o.assetId, Giver(o, taker), Receiver(o, taker), a, b);
  }

  lemma CostsAdd(a: int, b: int, price: int)
    requires 0 <= a && 0 <= b && 0 <= price
    ensures (a + b) * price == a * price + b * price
    ensures 0 <= a * price && 0 <= b * price
  {
  }

  /** The second fill goes through from any storage that differs from the first fill's in the log alone. */
  lemma SecondFillable(s: State, s1: State, taker: AccountId, id: Hash, a: u64, b: u64, v: u64, w: u64,
                       restricted: bool)
    requires a + b <= U64_MAX && v + w <= U64_MAX
    requires Fillable(s, taker, id, a + b, v + w, restricted)
    requires var o := s.orders[id];
             a < o.leftAmount && PaysInParts(s.native, Payer(o, taker), Payee(o, taker), v, w)
    requires Fillable(s, taker, id, a, v, restricted)
    requires s1 == AfterFill(s, taker, id, a, v, restricted).(events := s1.events)
    ensures Fillable(s1, taker, id, b, w, restricted) && s1.orders[id].price == s.orders[id].price
    ensures Stored(AfterFill(s1, taker, id, b, w, restricted)) ==
            Stored(AfterFill(s, taker, id, a + b, v + w, restricted))
  {
    FirstFill(s, taker, id, a, b, v, w, restricted);
    FillsCompose(s, taker, id, a, b, v, w, restricted);
  }

  lemma SecondFill(s: State, s1: State, taker: AccountId, id: Hash, a: u64, b: u64, v: u64, w: u64, restricted: bool)
    requires a + b <= U64_MAX && v + w <= U64_MAX
    requires Fillable(s, taker, id, a + b, v + w, restricted)
    requires var o := s.orders[id];
             && a < o.leftAmount && w == b * o.price
             && PaysInParts(s.native, Payer(o, taker), Payee(o, taker), v, w)
    requires Fillable(s, taker, id, a, v, restricted)
    requires Stored(s1) == Stored(AfterFill(s, taker, id, a, v, restricted))
    ensures Unclipped(s1, taker, id, b, restricted)
    ensures Stored(CX.TakeOrder(s1, taker, id, b, restricted).state) ==
            Stored(AfterFill(s, taker, id, a + b, v + w, restricted))
  {
    SecondFillable(s, s1, taker, id, a, b, v, w, restricted);
    FillIs(s1, taker, id, b, w, restricted);
  }

  /** What the two parts of an unclipped fill cost. */
  lemma SplitCosts(s: State, taker: AccountId, id: Hash, a: u64, b: u64, restricted: bool) returns (v: u64, w: u64)
    requires a + b <= U64_MAX && Unclipped(s, taker, id, a + b, restricted)
    ensures var o := s.orders[id];
            && v == SaturatingMul(a, o.price) && v == a * o.price && w == b * o.price && v + w <= U64_MAX
    ensures Fillable(s, taker, id, a + b, v + w, restricted)
    ensures Stored(CX.TakeOrder(s, taker, id, a + b, restricted).state) ==
            Stored(AfterFill(s, taker, id, a + b, v + w, restricted))
  {
    var price := s.orders[id].price;
    CostsAdd(a, b, price);
    v, w := a * price, b * price;
    FillIs(s, taker, id, a + b, v + w, restricted);
  }

  /** The money side of filling `a` and then `b`. */
  predicate SplitPays(s: State, taker: AccountId, id: Hash, a: u64, b: u64)
    requires id in s.orders
  {
    var o := s.orders[id];
    PaysInParts(s.native, Payer(o, taker), Payee(o, taker), a * o.price, b * o.price)
  }

  /** The order is live on the same terms, and between two accounts `v` has moved. */
  ghost predicate Advanced(s: State, s1: State, taker: AccountId, id: Hash, v: int)
    requires id in s.orders
  {
    var o := s.orders[id];
    && id in s1.orders && s1.orders[id].price == o.price
    && Payer(s1.orders[id], taker) == Payer(o, taker) && Payee(s1.orders[id], taker) == Payee(o, taker)
    && (Payer(o, taker) != Payee(o, taker) ==>
          && Free(s1.native, Payer(o, taker)) == Free(s.native, Payer(o, taker)) - v
          && Free(s1.native, Payee(o, taker)) == Free(s.native, Payee(o, taker)) + v)
  }

  lemma FillSplits(s: State, taker: AccountId, id: Hash, a: u64, b: u64, restricted: bool)
    requires a + b <= U64_MAX && Unclipped(s, taker, id, a + b, restricted)
    requires a < s.orders[id].leftAmount && SplitPays(s, taker, id, a, b)
    ensures SplitsEvenly(s, taker, id, a, b, restricted)
    ensures b * s.orders[id].price > 0 ==>
              Advanced(s, CX.TakeOrder(s, taker, id, a, restricted).state, taker, id, a * s.orders[id].price)
  {
    var v, w := SplitCosts(s, taker, id, a, b, restricted);
    FirstFillable(s, taker, id, a, b, v, w, restricted);
    FirstFill(s, taker, id, a, b, v, w, restricted);
    FillIs(s, taker, id, a, v, restricted);
    SecondFill(s, CX.TakeOrder(s, taker, id, a, restricted).state, taker, id, a, b, v, w, restricted);
  }

  /** Filling nothing changes nothing but the log. */
  lemma ZeroFill(s: State, taker: AccountId, id: Hash, restricted: bool)
    requires Linked(s)
    ensures Stored(CX.TakeOrder(s, taker, id, 0, restricted).state) == Stored(s)
  {
    if id in s.orders {
      var o := s.orders[id];
      assert OrderLinked(s.assets, s.orders, id);
      forall k | k in s.carbon ensures s.carbon[k] > 0 {
        assert BalanceLinked(s.assets, s.carbon, k.0, k.1);
      }
      ZeroMoveStays(s.carbon, o.assetId, POT, taker);
      ZeroMoveStays(s.carbon, o.assetId, taker, o.maker);
      assert SaturatingMul(0, o.price) == 0;
      assert s.orders[id := o] == s.orders;
    }
  }

  lemma ClosedStays(s: State, taker: AccountId, id: Hash, amounts: seq<u64>, restricted: bool)
    requires id !in s.orders
    ensures FillAll(s, taker, id, amounts, restricted) == s
    decreases |amounts|
  {
    if amounts != [] {
      ClosedStays(s, taker, id, amounts[1..], restricted);
    }
  }

  lemma FillKeepsLinked(s: State, taker: AccountId, id: Hash, amount: u64, restricted: bool)
    requires Linked(s) && taker != POT
    ensures Linked(CX.TakeOrder(s, taker, id, amount, restricted).state)
  {
    var c := TakeOrder(taker, id, amount, restricted);
    assert Step(s, c) == CX.TakeOrder(s, taker, id, amount, restricted);
    LinkedStep(s, c);
  }

  lemma WholeFillCloses(s: State, taker: AccountId, id: Hash, amount: u64, restricted: bool)
    requires CX.TakeOrder(s, taker, id, amount, restricted).outcome == Ok
    ensures id in s.orders && amount <= s.orders[id].leftAmount
    ensures var o, orders' := s.orders[id], CX.TakeOrder(s, taker, id, amount, restricted).state.orders;
            && (id in orders' <==> amount < o.leftAmount)
            && (id in orders' ==> orders'[id].leftAmount == o.leftAmount - amount && SameTerms(o, orders'[id]))
  {
  }

  /**
   * Between the parts nobody is lost: before its last nonzero part the payer keeps the existential
   * deposit, and from its first nonzero part the payee has it.
   */
  ghost predicate KeepsAlive(payer: int, payee: int, price: int, amounts: seq<u64>)
    decreases |amounts|
  {
    amounts == [] ||
    var v := amounts[0] * price;
    && (v == 0 || Sum(amounts[1..]) * price == 0
        || (payer - v >= EXISTENTIAL_DEPOSIT && payee + v >= EXISTENTIAL_DEPOSIT))
    && KeepsAlive(payer - v, payee + v, price, amounts[1..])
  }

  /** The same of the order's payer and payee, when they are two accounts. */
  ghost predicate PartsPay(s: State, taker: AccountId, id: Hash, amounts: seq<u64>)
    requires id in s.orders
  {
    var o := s.orders[id];
    Payer(o, taker) == Payee(o, taker) ||
    KeepsAlive(Free(s.native, Payer(o, taker)), Free(s.native, Payee(o, taker)), o.price, amounts)
  }

  lemma {:induction false} NothingLeftKeepsAlive(payer: int, payee: int, price: int, amounts: seq<u64>)
    requires Sum(amounts) * price == 0 && price > 0
    ensures KeepsAlive(payer, payee, price, amounts)
    decreases |amounts|
  {
    if amounts != [] {
      CostsAdd(amounts[0], Sum(amounts[1..]), price);
      NothingLeftKeepsAlive(payer - amounts[0] * price, payee + amounts[0] * price, price, amounts[1..]);
    }
  }

  /** One part at a time, once the first does its share: `payer1` and `payee1` are what it leaves. */
  lemma KeepsAliveHead(payer: int, payee: int, payer1: int, payee1: int, price: int, amounts: seq<u64>)
    requires amounts != [] && price > 0
    requires var v, w := amounts[0] * price, Sum(amounts[1..]) * price;
             && (v == 0 || w == 0 || (payer - v >= EXISTENTIAL_DEPOSIT && payee + v >= EXISTENTIAL_DEPOSIT))
             && (w > 0 ==> payer1 == payer - v && payee1 == payee + v)
    ensures KeepsAlive(payer, payee, price, amounts) <==> KeepsAlive(payer1, payee1, price, amounts[1..])
  {
    var v := amounts[0] * price;
    CostsAdd(0, Sum(amounts[1..]), price);
    if Sum(amounts[1..]) * price == 0 {
      NothingLeftKeepsAlive(payer - v, payee + v, price, amounts[1..]);
      NothingLeftKeepsAlive(payer1, payee1, price, amounts[1..]);
    }
  }

  lemma PartsPayHead(s: State, taker: AccountId, id: Hash, amounts: seq<u64>, restricted: bool)
    requires amounts != [] && Sum(amounts) <= U64_MAX && Unclipped(s, taker, id, Sum(amounts), restricted)
    requires amounts[0] < s.orders[id].leftAmount && s.orders[id].price > 0
    requires SplitPays(s, taker, id, amounts[0], Sum(amounts[1..]))
    ensures var s1 := CX.TakeOrder(s, taker, id, amounts[0], restricted).state;
            id in s1.orders && (PartsPay(s, taker, id, amounts) <==> PartsPay(s1, taker, id, amounts[1..]))
  {
    var o, s1 := s.orders[id], CX.TakeOrder(s, taker, id, amounts[0], restricted).state;
    FillSplits(s, taker, id, amounts[0], Sum(amounts[1..]), restricted);
    WholeFillCloses(s, taker, id, amounts[0], restricted);
    if Payer(o, taker) != Payee(o, taker) {
      KeepsAliveHead(Free(s.native, Payer(o, taker)), Free(s.native, Payee(o, taker)),
                     Free(s1.native, Payer(o, taker)), Free(s1.native, Payee(o, taker)), o.price, amounts);
    }
  }

  // ---- when the first part does not pay ----

  /** However a list of fills goes, it takes from the order at most its sum. */
  lemma {:induction false} FilledAtMost(s: State, taker: AccountId, id: Hash, amounts: seq<u64>, restricted: bool)
    requires id in s.orders && Sum(amounts) < s.orders[id].leftAmount
    ensures var orders' := FillAll(s, taker, id, amounts, restricted).orders;
            id in orders' && orders'[id].leftAmount >= s.orders[id].leftAmount - Sum(amounts)
    decreases |amounts|
  {
    if amounts != [] {
      OneFillTakes(s, taker, id, amounts[0], restricted);
      FilledAtMost(CX.TakeOrder(s, taker, id, amounts[0], restricted).state, taker, id, amounts[1..], restricted);
    }
  }

  lemma RefusedFillStays(s: State, taker: AccountId, id: Hash, amount: u64, restricted: bool)
    requires CX.TakeOrder(s, taker, id, amount, restricted).outcome != Ok
    ensures CX.TakeOrder(s, taker, id, amount, restricted).state.orders == s.orders
    ensures CX.TakeOrder(s, taker, id, amount, restricted).state.native == s.native
  {
    var c := TakeOrder(taker, id, amount, restricted);
    assert Step(s, c) == CX.TakeOrder(s, taker, id, amount, restricted);
    FailedFillEffect(s, c);
  }

  lemma OneFillTakes(s: State, taker: AccountId, id: Hash, amount: u64, restricted: bool)
    requires id in s.orders && amount < s.orders[id].leftAmount
    ensures var post := CX.TakeOrder(s, taker, id, amount, restricted);
            && id in post.state.orders
            && SameTerms(s.orders[id], post.state.orders[id])
            && post.state.orders[id].leftAmount ==
               s.orders[id].leftAmount - (if post.outcome == Ok then amount else 0)
  {
    if CX.TakeOrder(s, taker, id, amount, restricted).outcome == Ok {
      WholeFillCloses(s, taker, id, amount, restricted);
    } else {
      RefusedFillStays(s, taker, id, amount, restricted);
    }
  }

  lemma BrokeFillRefused(s: State, taker: AccountId, id: Hash, amount: u64, restricted: bool)
    requires id in s.orders && amount > 0
    requires var o := s.orders[id];
             o.price > 0 && Payer(o, taker) != Payee(o, taker) && Free(s.native, Payer(o, taker)) == 0
    ensures CX.TakeOrder(s, taker, id, amount, restricted).outcome != Ok
  {
    PositiveCost(amount, s.orders[id].price);
    FillIs(s, taker, id, amount, SaturatingMul(amount, s.orders[id].price), restricted);
  }

  lemma ZeroFillMovesNoMoney(s: State, taker: AccountId, id: Hash, amount: u64, restricted: bool)
    requires amount == 0
    ensures CX.TakeOrder(s, taker, id, amount, restricted).state.native == s.native
  {
    if id in s.orders {
      assert SaturatingMul(0, s.orders[id].price) == 0;
    }
  }

  /** A payer with nothing fills nothing. */
  lemma {:induction false} BrokePayerFillsNothing(s: State, taker: AccountId, id: Hash, amounts: seq<u64>,
                                                 restricted: bool)
    requires id in s.orders && Sum(amounts) <= s.orders[id].leftAmount && s.orders[id].leftAmount > 0
    requires var o := s.orders[id];
             o.price > 0 && Payer(o, taker) != Payee(o, taker) && Free(s.native, Payer(o, taker)) == 0
    ensures var orders' := FillAll(s, taker, id, amounts, restricted).orders;
            id in orders' && orders'[id].leftAmount == s.orders[id].leftAmount
    decreases |amounts|
  {
    if amounts != [] {
      if amounts[0] > 0 {
        BrokeFillRefused(s, taker, id, amounts[0], restricted);
        RefusedFillStays(s, taker, id, amounts[0], restricted);
      } else {
        OneFillTakes(s, taker, id, amounts[0], restricted);
        ZeroFillMovesNoMoney(s, taker, id, amounts[0], restricted);
      }
      BrokePayerFillsNothing(CX.TakeOrder(s, taker, id, amounts[0], restricted).state, taker, id, amounts[1..],
                             restricted);
    }
  }

  /** The first of two costly parts is refused, or it leaves the payer with nothing. */
  lemma FirstPartFails(s: State, taker: AccountId, id: Hash, a: u64, b: u64, restricted: bool)
    requires a + b <= U64_MAX && Unclipped(s, taker, id, a + b, restricted) && !SplitPays(s, taker, id, a, b)
    ensures var post, o := CX.TakeOrder(s, taker, id, a, restricted), s.orders[id];
            && Payer(o, taker) != Payee(o, taker) && a > 0 && b > 0
            && (post.outcome == Ok ==> Free(post.state.native, Payer(o, taker)) == 0)
  {
    var o := s.orders[id];
    var v, w := SplitCosts(s, taker, id, a, b, restricted);
    PaymentsPart(s.native, Payer(o, taker), Payee(o, taker), v, w, o.direction == ASK && restricted);
    FillIs(s, taker, id, a, v, restricted);
  }

  /** Then the list leaves more of the order than one fill of its sum does. */
  lemma FirstPartLeavesMore(s: State, taker: AccountId, id: Hash, amounts: seq<u64>, restricted: bool)
    requires amounts != [] && Sum(amounts) <= U64_MAX && Unclipped(s, taker, id, Sum(amounts), restricted)
    requires s.orders[id].price > 0 && Sum(amounts) <= s.orders[id].leftAmount
    requires !SplitPays(s, taker, id, amounts[0], Sum(amounts[1..]))
    ensures var orders' := FillAll(s, taker, id, amounts, restricted).orders;
            id in orders' && orders'[id].leftAmount > s.orders[id].leftAmount - Sum(amounts)
  {
    var a, rest := amounts[0], amounts[1..];
    FirstPartFails(s, taker, id, a, Sum(rest), restricted);
    OneFillTakes(s, taker, id, a, restricted);
    if CX.TakeOrder(s, taker, id, a, restricted).outcome == Ok {
      BrokePayerFillsNothing(CX.TakeOrder(s, taker, id, a, restricted).state, taker, id, rest, restricted);
    } else {
      FilledAtMost(CX.TakeOrder(s, taker, id, a, restricted).state, taker, id, rest, restricted);
    }
  }

  lemma FirstPartFailing(s: State, taker: AccountId, id: Hash, amounts: seq<u64>, restricted: bool)
    requires amounts != [] && Sum(amounts) <= U64_MAX && Unclipped(s, taker, id, Sum(amounts), restricted)
    requires s.orders[id].price > 0 && !SplitPays(s, taker, id, amounts[0], Sum(amounts[1..]))
    ensures Stored(FillAll(s, taker, id, amounts, restricted))
         != Stored(CX.TakeOrder(s, taker, id, Sum(amounts), restricted).state)
  {
    WholeFillCloses(s, taker, id, Sum(amounts), restricted);
    FirstPartLeavesMore(s, taker, id, amounts, restricted);
    assert Stored(FillAll(s, taker, id, amounts, restricted)).orders
        != Stored(CX.TakeOrder(s, taker, id, Sum(amounts), restricted).state).orders;
  }

  // ---- any list of parts ----

  lemma WholeInOnePart(s: State, taker: AccountId, id: Hash, amounts: seq<u64>, restricted: bool)
    requires amounts != [] && Sum(amounts) <= U64_MAX && Unclipped(s, taker, id, Sum(amounts), restricted)
    requires amounts[0] == s.orders[id].leftAmount && s.orders[id].price > 0
    ensures PartsPay(s, taker, id, amounts)
    ensures FillAll(s, taker, id, amounts, restricted) == CX.TakeOrder(s, taker, id, Sum(amounts), restricted).state
  {
    var o, v := s.orders[id], amounts[0] * s.orders[id].price;
    WholeFillCloses(s, taker, id, Sum(amounts), restricted);
    ClosedStays(CX.TakeOrder(s, taker, id, amounts[0], restricted).state, taker, id, amounts[1..], restricted);
    NothingLeftKeepsAlive(Free(s.native, Payer(o, taker)) - v, Free(s.native, Payee(o, taker)) + v, o.price,
                          amounts[1..]);
  }

  /**
   * Path independence: when one fill goes through unclipped, any list of fills by one taker with that sum
   * reaches the same storage if and only if payer and payee are one account, or the payer keeps the
   * existential deposit before the last nonzero part and the payee has it from the first.
   */
  lemma {:induction false} FillPathIndependenceIff(s: State, taker: AccountId, id: Hash, amounts: seq<u64>,
                                                  restricted: bool)
    requires Linked(s) && taker != POT && Sum(amounts) <= U64_MAX
    requires Unclipped(s, taker, id, Sum(amounts), restricted)
    ensures (Stored(FillAll(s, taker, id, amounts, restricted))
             == Stored(CX.TakeOrder(s, taker, id, Sum(amounts), restricted).state))
            <==> PartsPay(s, taker, id, amounts)
    decreases |amounts|
  {
    assert OrderLinked(s.assets, s.orders, id);
    if amounts == [] {
      ZeroFill(s, taker, id, restricted);
    } else {
      var a, b := amounts[0], Sum(amounts[1..]);
      WholeFillCloses(s, taker, id, a + b, restricted);
      if a == s.orders[id].leftAmount {
        WholeInOnePart(s, taker, id, amounts, restricted);
      } else if SplitPays(s, taker, id, a, b) {
        FillSplits(s, taker, id, a, b, restricted);
        FillKeepsLinked(s, taker, id, a, restricted);
        PartsPayHead(s, taker, id, amounts, restricted);
        FillPathIndependenceIff(CX.TakeOrder(s, taker, id, a, restricted).state, taker, id, amounts[1..], restricted);
      } else {
        FirstPartFailing(s, taker, id, amounts, restricted);
      }
    }
  }

  // ---- with clipping ----

  function Payments(amounts: seq<u64>, price: u64): nat {
    if amounts == [] then 0 else SaturatingMul(amounts[0], price) + Payments(amounts[1..], price)
  }

  /** When costs are clipped, paying in parts never comes cheaper than paying at once. */
  lemma {:induction false} ClippedPartsCostMore(amounts: seq<u64>, price: u64)
    requires Sum(amounts) <= U64_MAX
    ensures Payments(amounts, price) >= SaturatingMul(Sum(amounts), price)
  {
    if amounts != [] {
      ClippedPartsCostMore(amounts[1..], price);
      CostsAdd(amounts[0], Sum(amounts[1..]), price);
    }
  }
}
