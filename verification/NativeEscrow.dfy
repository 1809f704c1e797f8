/** Native escrow: the money locked by live BID orders, and the pot that must be able to pay it back. */
module NativeEscrow {
  import opened U64
  import opened Ledger
  import opened NativeBalances
  import opened Runs
  import opened Integrity
  import opened Effects
  import opened Supply

  /** The BID has locked exactly what its unfilled part costs. */
  ghost predicate LockExact(orders: Orders, id: Hash) {
    id in orders && orders[id].direction == BID ==>
      orders[id].lockedBalance == orders[id].leftAmount * orders[id].price
  }

  ghost predicate LocksExact(s: State) {
    forall id :: LockExact(s.orders, id)
  }

  /** The call makes a BID whose cost does not fit in a u64, so the lock is clipped. */
  predicate Saturates(s: State, c: Call) {
    c.MakeOrder? && c.direction == BID && Step(s, c).outcome == Ok && U64_MAX < c.amount * c.price
  }

  /** The pot's native money beyond what the live orders have locked. */
  ghost function Surplus(s: State): int {
    Free(s.native, POT) - Locked(s.orders)
  }

  lemma PartialCost(part: int, whole: int, price: int)
    requires 0 <= part <= whole && 0 <= price
    ensures 0 <= part * price <= whole * price
    ensures (whole - part) * price == whole * price - part * price
  {
  }

  lemma PositiveCost(amount: int, price: int)
    requires amount > 0 && price > 0
    ensures amount * price > 0
  {
  }

  /** A fill of an exactly locked BID costs no more than is locked, unclipped. */
  lemma FillCost(s: State, id: Hash, amount: u64)
    requires id in s.orders && LockExact(s.orders, id) && s.orders[id].direction == BID
    requires amount <= s.orders[id].leftAmount
    ensures var o := s.orders[id];
            && SaturatingMul(amount, o.price) == amount * o.price <= o.lockedBalance
            && Sub(o.lockedBalance, SaturatingMul(amount, o.price)) == (o.leftAmount - amount) * o.price
  {
    var o := s.orders[id];
    PartialCost(amount, o.leftAmount, o.price);
  }

  // ---- when the locks stay exact ----

  lemma MakeOrderLocks(s: State, c: Call)
    requires LocksExact(s) && c.MakeOrder?
    ensures LocksExact(Step(s, c).state) <==> !Saturates(s, c)
  {
    MakeEffect(s, c);
    if Step(s, c).outcome == Ok {
      var orders' := s.orders[c.orderId := MadeOrder(c)];
      assert LockExact(orders', c.orderId) <==> !Saturates(s, c);
      forall id | id != c.orderId ensures LockExact(orders', id) {
        assert LockExact(s.orders, id);
      }
      assert Step(s, c).state.orders == orders';
    }
  }

  lemma TakeOrderLocks(s: State, c: Call)
    requires Linked(s) && LocksExact(s) && c.TakeOrder?
    ensures LocksExact(Step(s, c).state)
  {
    if c.orderId in s.orders && c.amount <= s.orders[c.orderId].leftAmount {
      assert LockExact(s.orders, c.orderId);
      assert OrderLinked(s.assets, s.orders, c.orderId);
      if s.orders[c.orderId].direction == BID {
        FillCost(s, c.orderId, c.amount);
      }
      var orders' := Step(s, c).state.orders;
      forall id ensures LockExact(orders', id) {
        assert LockExact(s.orders, id);
      }
    }
  }

  lemma CancelOrderLocks(s: State, c: Call)
    requires LocksExact(s) && c.CancelOrder?
    ensures LocksExact(Step(s, c).state)
  {
    var orders' := Step(s, c).state.orders;
    forall id ensures LockExact(orders', id) {
      assert LockExact(s.orders, id);
    }
  }

  lemma OtherCallsLeaveExchange(s: State, c: Call)
    requires !c.MakeOrder? && !c.TakeOrder? && !c.CancelOrder?
    ensures Step(s, c).state.orders == s.orders
    ensures !c.OtherPallets? ==> Step(s, c).state.native == s.native
  {
  }

  lemma LocksStep(s: State, c: Call)
    requires Linked(s) && LocksExact(s)
    ensures LocksExact(Step(s, c).state) <==> !Saturates(s, c)
  {
    if c.MakeOrder? {
      MakeOrderLocks(s, c);
    } else if c.TakeOrder? {
      TakeOrderLocks(s, c);
    } else if c.CancelOrder? {
      CancelOrderLocks(s, c);
    } else {
      OtherCallsLeaveExchange(s, c);
    }
  }

  ghost predicate NeverSaturates(r: Run) {
    r.Then? ==> NeverSaturates(r.past) && !Saturates(After(r.past), r.call)
  }

  ghost predicate AlwaysLocksExact(r: Run) {
    LocksExact(After(r)) && (r.Then? ==> AlwaysLocksExact(r.past))
  }

  /**
   * Every live BID has `locked_balance == left_amount * price` after every call of the run, if and only
   * if no BID was made whose cost exceeds u64.
   */
  lemma {:induction false} LocksExactIff(r: Run)
    requires Admissible(r)
    ensures AlwaysLocksExact(r) <==> NeverSaturates(r)
  {
    match r
    case Genesis(_) =>
      forall id ensures LockExact(After(r).orders, id) {}
    case Then(past, c) =>
      LocksExactIff(past);
      if LocksExact(After(past)) {
        LinkedAlways(past);
        LocksStep(After(past), c);
      }
  }

  // ---- the pot's surplus ----

  lemma MakeOrderSurplus(s: State, c: Call)
    requires Allowed(s, c) && c.MakeOrder?
    ensures Surplus(Step(s, c).state) == Surplus(s)
    ensures TotalIssuance(Step(s, c).state.native) <= TotalIssuance(s.native)
  {
    MakeEffect(s, c);
    if Step(s, c).outcome == Ok {
      OrderTotalsInsert(s.orders, c.orderId, MadeOrder(c), c.assetId);
      if c.direction == BID {
        PositiveCost(c.amount, c.price);
        PaymentMovesValue(s.native, c.signer, POT, SaturatingMul(c.amount, c.price), c.restricted);
      }
    }
  }

  lemma AskFillSurplus(s: State, c: Call)
    requires Linked(s) && Allowed(s, c) && c.TakeOrder?
    requires c.orderId in s.orders && s.orders[c.orderId].direction == ASK
    ensures Surplus(Step(s, c).state) == Surplus(s)
    ensures TotalIssuance(Step(s, c).state.native) <= TotalIssuance(s.native)
  {
    var o := s.orders[c.orderId];
    assert OrderLinked(s.assets, s.orders, c.orderId);
    if Step(s, c).outcome == Ok {
      FillTotals(s.orders, c.orderId, o, c.amount, o.assetId);
      PaymentNeverMints(s.native, c.signer, o.maker, SaturatingMul(c.amount, o.price), c.restricted);
    }
  }

  /** The pot after paying, when its surplus keeps it above the existential deposit. */
  lemma PotPays(s: State, to: AccountId, value: u64)
    requires to != POT && Free(s.native, POT) >= value + EXISTENTIAL_DEPOSIT
    requires MakePayment(s.native, POT, to, value, false).Moved?
    ensures var native := MakePayment(s.native, POT, to, value, false).accounts;
            && Free(native, POT) == Free(s.native, POT) - value
            && TotalIssuance(native) <= TotalIssuance(s.native)
  {
    PaymentNeverMints(s.native, POT, to, value, false);
  }

  lemma BidFillSurplus(s: State, c: Call)
    requires Linked(s) && Allowed(s, c) && c.TakeOrder?
    requires c.orderId in s.orders && s.orders[c.orderId].direction == BID
    requires LocksExact(s) && Surplus(s) >= EXISTENTIAL_DEPOSIT
    ensures Surplus(Step(s, c).state) == Surplus(s)
    ensures TotalIssuance(Step(s, c).state.native) <= TotalIssuance(s.native)
  {
    var o := s.orders[c.orderId];
    assert LockExact(s.orders, c.orderId);
    OrderWithinTotals(s.orders, c.orderId, o.assetId);
    if Step(s, c).outcome == Ok {
      var money := SaturatingMul(c.amount, o.price);
      FillCost(s, c.orderId, c.amount);
      PotPays(s, c.signer, money);
      FillTotals(s.orders, c.orderId, o.(lockedBalance := Sub(o.lockedBalance, money)), c.amount, o.assetId);
      assert c.amount == o.leftAmount ==> Sub(o.lockedBalance, money) == 0;
    }
  }

  lemma CancelSurplus(s: State, c: Call)
    requires Linked(s) && Allowed(s, c) && c.CancelOrder?
    requires Surplus(s) >= EXISTENTIAL_DEPOSIT
    ensures Surplus(Step(s, c).state) == Surplus(s)
    ensures TotalIssuance(Step(s, c).state.native) <= TotalIssuance(s.native)
  {
    if c.orderId in s.orders {
      var o := s.orders[c.orderId];
      assert OrderLinked(s.assets, s.orders, c.orderId);
      OrderWithinTotals(s.orders, c.orderId, o.assetId);
      OrderTotalsRemove(s.orders, c.orderId, o.assetId);
      if Step(s, c).outcome == Ok && o.direction == BID {
        PotPays(s, c.signer, o.lockedBalance);
      }
    }
  }

  /** No call lowers the surplus; only money from outside the exchange raises it. */
  lemma SurplusStep(s: State, c: Call)
    requires Linked(s) && Allowed(s, c) && LocksExact(s) && Surplus(s) >= EXISTENTIAL_DEPOSIT
    requires TotalIssuance(s.native) <= U128_MAX
    ensures Surplus(Step(s, c).state) >= Surplus(s)
    ensures !c.OtherPallets? ==> Surplus(Step(s, c).state) == Surplus(s)
    ensures TotalIssuance(Step(s, c).state.native) <= U128_MAX
  {
    if c.MakeOrder? {
      MakeOrderSurplus(s, c);
    } else if c.TakeOrder? {
      if c.orderId in s.orders {
        assert OrderLinked(s.assets, s.orders, c.orderId);
        if s.orders[c.orderId].direction == ASK {
          AskFillSurplus(s, c);
        } else {
          BidFillSurplus(s, c);
        }
      }
    } else if c.CancelOrder? {
      CancelSurplus(s, c);
    } else {
      OtherCallsLeaveExchange(s, c);
    }
  }

  /** A fill within what is left of a BID costs no more than the BID has locked, so its `-=` stays in u64. */
  ghost predicate FillCovered(orders: Orders, id: Hash, amount: u64) {
    id in orders && orders[id].direction == BID && amount <= orders[id].leftAmount ==>
      SaturatingMul(amount, orders[id].price) <= orders[id].lockedBalance
  }

  lemma FillsCovered(s: State)
    requires LocksExact(s)
    ensures forall id, amount :: FillCovered(s.orders, id, amount)
  {
    forall id, amount: u64 ensures FillCovered(s.orders, id, amount) {
      assert LockExact(s.orders, id);
      if id in s.orders && s.orders[id].direction == BID && amount <= s.orders[id].leftAmount {
        FillCost(s, id, amount);
      }
    }
  }

  function Origin(r: Run): Accounts {
    match r
    case Genesis(native) => native
    case Then(past, _) => Origin(past)
  }

  /** The pot is endowed with the existential deposit, and no lock is ever clipped. */
  ghost predicate Endowed(r: Run) {
    Admissible(r) && NeverSaturates(r) && Free(Origin(r), POT) >= EXISTENTIAL_DEPOSIT
  }

  /**
   * Native escrow solvency over whole runs: the locks stay exact, the pot keeps its existential deposit
   * above everything it owes, so it is never reaped, and no fill costs more than its order has locked.
   */
  lemma {:induction false} NativeEscrowSolvent(r: Run)
    requires Endowed(r)
    ensures LocksExact(After(r))
    ensures Free(After(r).native, POT) >= Locked(After(r).orders) + EXISTENTIAL_DEPOSIT
    ensures TotalIssuance(After(r).native) <= U128_MAX
    ensures forall id, amount :: FillCovered(After(r).orders, id, amount)
  {
    LocksExactIff(r);
    FillsCovered(After(r));
    if r.Then? {
      NativeEscrowSolvent(r.past);
      LinkedAlways(r.past);
      SurplusStep(After(r.past), r.call);
    }
  }

  /** Across any stretch of a run the surplus never falls. */
  lemma {:induction false} SurplusNeverFalls(r: Run, p: Run)
    requires Endowed(r) && Extends(r, p)
    ensures Surplus(After(p)) <= Surplus(After(r))
  {
    if r != p {
      SurplusNeverFalls(r.past, p);
      NativeEscrowSolvent(r.past);
      LinkedAlways(r.past);
      SurplusStep(After(r.past), r.call);
    }
  }
}
