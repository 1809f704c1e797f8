/** Which failed calls leave a trace, and which calls of a maker always go through. */
module Atomicity {
  import opened U64
  import opened Sums
  import opened Ledger
  import opened NativeBalances
  import opened Runs
  import opened Integrity
  import opened Supply
  import opened Issuance
  import opened Effects
  import opened NativeEscrow

  /**
   * A fill of a BID passes its own checks, and the payment from the pot will be refused. By then the
   * carbon has moved.
   */
  predicate RefusedPayout(s: State, c: Call) {
    && c.TakeOrder?
    && c.orderId in s.orders
    && var o := s.orders[c.orderId];
       && o.direction == BID
       && 0 < c.amount <= o.leftAmount
       && c.amount <= BalanceOf(s.carbon, o.assetId, c.signer)
       && MakePayment(s.native, POT, c.signer, SaturatingMul(c.amount, o.price), false).Refused?
  }

  /**
   * The same because the taker's account is too small to receive the payment: in a solvent state
   * nothing else can refuse it.
   */
  predicate PayoutTooSmall(s: State, c: Call) {
    && c.TakeOrder?
    && c.orderId in s.orders
    && var o := s.orders[c.orderId];
       && o.direction == BID
       && 0 < c.amount <= o.leftAmount
       && c.amount <= BalanceOf(s.carbon, o.assetId, c.signer)
       && Free(s.native, c.signer) + c.amount * o.price < EXISTENTIAL_DEPOSIT
  }

  lemma RegistryFailureChangesNothing(s: State, c: Call)
    requires !c.MakeOrder? && !c.TakeOrder? && !c.CancelOrder?
    requires Step(s, c).outcome.Err?
    ensures Step(s, c).state == s
  {
  }

  lemma OrderFailureChangesNothing(s: State, c: Call)
    requires c.MakeOrder? || c.CancelOrder?
    requires Step(s, c).outcome.Err?
    ensures Step(s, c).state == s
  {
  }

  lemma MoveIsVisible(b: Carbon, a: Hash, from: AccountId, to: AccountId, amount: u64)
    requires 0 < amount <= BalanceOf(b, a, from)
    ensures MakeTransfer(b, a, from, to, amount) == b <==> from == to
  {
    if from != to {
      BalanceAfterSet(b, a, from, Sub(BalanceOf(b, a, from), amount), a, from);
      assert BalanceOf(MakeTransfer(b, a, from, to, amount), a, from) != BalanceOf(b, a, from);
    }
  }

  lemma AskFillFailureChangesNothing(s: State, c: Call)
    requires c.TakeOrder? && c.orderId in s.orders && s.orders[c.orderId].direction == ASK
    requires Step(s, c).outcome.Err?
    ensures Step(s, c).state == s
  {
  }

  /** In a solvent state a BID fill that passes its own checks is refused exactly when it is too small. */
  lemma BidFillRefusedIff(s: State, c: Call)
    requires Linked(s) && Allowed(s, c) && LocksExact(s) && Surplus(s) >= EXISTENTIAL_DEPOSIT
    requires TotalIssuance(s.native) <= U128_MAX
    requires c.TakeOrder? && c.orderId in s.orders && s.orders[c.orderId].direction == BID
    requires c.amount <= s.orders[c.orderId].leftAmount
    requires c.amount <= BalanceOf(s.carbon, s.orders[c.orderId].assetId, c.signer)
    ensures Step(s, c).outcome.Err? <==> PayoutTooSmall(s, c)
  {
    var o := s.orders[c.orderId];
    assert LockExact(s.orders, c.orderId);
    assert OrderLinked(s.assets, s.orders, c.orderId);
    FillCost(s, c.orderId, c.amount);
    OrderWithinTotals(s.orders, c.orderId, o.assetId);
    if c.amount > 0 {
      PositiveCost(c.amount, o.price);
      PaymentRefusedIff(s.native, POT, c.signer, SaturatingMul(c.amount, o.price));
    }
  }

  lemma BidFillFailure(s: State, c: Call)
    requires c.TakeOrder? && c.orderId in s.orders && s.orders[c.orderId].direction == BID
    ensures Step(s, c).outcome.Err? && Step(s, c).state != s <==>
            RefusedPayout(s, c) && c.signer != s.orders[c.orderId].maker
  {
    var o := s.orders[c.orderId];
    if 0 < c.amount <= o.leftAmount && c.amount <= BalanceOf(s.carbon, o.assetId, c.signer) {
      MoveIsVisible(s.carbon, o.assetId, c.signer, o.maker, c.amount);
    } else if c.amount == 0 {
      assert SaturatingMul(0, o.price) == 0;
    }
  }

  lemma OtherFailureChangesNothing(s: State, c: Call)
    requires Step(s, c).outcome.Err?
    requires !(c.TakeOrder? && c.orderId in s.orders && s.orders[c.orderId].direction != ASK)
    ensures Step(s, c).state == s
  {
    if c.TakeOrder? {
      if c.orderId in s.orders {
        AskFillFailureChangesNothing(s, c);
      }
    } else if c.MakeOrder? || c.CancelOrder? {
      OrderFailureChangesNothing(s, c);
    } else {
      RegistryFailureChangesNothing(s, c);
    }
  }

  lemma FailureTrace(s: State, c: Call)
    requires Linked(s)
    ensures Step(s, c).outcome.Err? && Step(s, c).state != s <==>
            RefusedPayout(s, c) && c.signer != s.orders[c.orderId].maker
  {
    if c.TakeOrder? && c.orderId in s.orders && s.orders[c.orderId].direction != ASK {
      assert OrderLinked(s.assets, s.orders, c.orderId);
      BidFillFailure(s, c);
    } else if Step(s, c).outcome.Err? {
      OtherFailureChangesNothing(s, c);
    }
  }

  /**
   * Over any run at all, a call that fails changes nothing, except exactly a fill of somebody else's
   * BID that passes its own checks and whose payment from the pot is refused.
   */
  lemma RefusalLeavesTraceIff(r: Run, c: Call)
    requires Admissible(r)
    ensures Step(After(r), c).outcome.Err? && Step(After(r), c).state != After(r) <==>
            RefusedPayout(After(r), c) && c.signer != After(r).orders[c.orderId].maker
  {
    LinkedAlways(r);
    FailureTrace(After(r), c);
  }

  lemma RefusedIffTooSmall(r: Run, c: Call)
    requires Endowed(r) && Allowed(After(r), c)
    ensures RefusedPayout(After(r), c) <==> PayoutTooSmall(After(r), c)
  {
    var s := After(r);
    if c.TakeOrder? && c.orderId in s.orders && s.orders[c.orderId].direction == BID {
      var o := s.orders[c.orderId];
      NativeEscrowSolvent(r);
      LinkedAlways(r);
      if c.amount <= o.leftAmount && c.amount <= BalanceOf(s.carbon, o.assetId, c.signer) {
        BidFillRefusedIff(s, c);
      }
    }
  }

  /**
   * Failure atomicity: over any endowed run, a call that fails changes nothing, except exactly a BID
   * fill, by somebody other than the maker, whose payment would leave the taker's account below the
   * existential deposit.
   */
  lemma FailureLeavesTraceIff(r: Run, c: Call)
    requires Endowed(r) && Allowed(After(r), c)
    ensures Step(After(r), c).outcome.Err? && Step(After(r), c).state != After(r) <==>
            PayoutTooSmall(After(r), c) && c.signer != After(r).orders[c.orderId].maker
  {
    RefusalLeavesTraceIff(r, c);
    RefusedIffTooSmall(r, c);
  }

  /** With a live taker account the payout cannot fail once the carbon has moved. */
  lemma LiveTakerNeverStranded(r: Run, c: Call)
    requires Endowed(r) && Allowed(After(r), c) && c.TakeOrder?
    requires Free(After(r).native, c.signer) >= EXISTENTIAL_DEPOSIT
    ensures Step(After(r), c).outcome.Err? ==> Step(After(r), c).state == After(r)
  {
    var s := After(r);
    LinkedAlways(r);
    FailureLeavesTraceIff(r, c);
    if c.orderId in s.orders {
      assert OrderLinked(s.assets, s.orders, c.orderId);
      PartialCost(0, c.amount, s.orders[c.orderId].price);
    }
  }

  /** No call of the run failed after it had moved something. */
  ghost predicate FailuresClean(r: Run) {
    r.Then? ==>
      && FailuresClean(r.past)
      && (Step(After(r.past), r.call).outcome.Err? ==> After(r) == After(r.past))
  }

  /** No call of the run filled somebody else's BID for a payment that the pot's account refused. */
  ghost predicate PayoutsAccepted(r: Run) {
    r.Then? ==>
      && PayoutsAccepted(r.past)
      && !(RefusedPayout(After(r.past), r.call)
           && r.call.signer != After(r.past).orders[r.call.orderId].maker)
  }

  /** Over any run, that is exactly when no failure left a trace. */
  lemma {:induction false} FailuresCleanIff(r: Run)
    requires Admissible(r)
    ensures FailuresClean(r) <==> PayoutsAccepted(r)
  {
    if r.Then? {
      FailuresCleanIff(r.past);
      RefusalLeavesTraceIff(r.past, r.call);
    }
  }

  /** No call of the run filled somebody else's BID into an account too small to be paid. */
  ghost predicate PayoutsReachable(r: Run) {
    r.Then? ==>
      && PayoutsReachable(r.past)
      && !(PayoutTooSmall(After(r.past), r.call)
           && r.call.signer != After(r.past).orders[r.call.orderId].maker)
  }

  /** Over an endowed run, that is the same. */
  lemma {:induction false} EndowedFailuresCleanIff(r: Run)
    requires Endowed(r)
    ensures FailuresClean(r) <==> PayoutsReachable(r)
  {
    if r.Then? {
      EndowedFailuresCleanIff(r.past);
      FailureLeavesTraceIff(r.past, r.call);
    }
  }

  // ---- cancelling ----

  /**
   * A maker can always withdraw an ASK. While no issue splits, what is left of it goes from the pot to
   * the maker to the unit, although the cancel checks no balance.
   */
  lemma AskCancelReturnsRest(r: Run, c: Call)
    requires Admissible(r) && Allowed(After(r), c)
    requires c.CancelOrder? && c.orderId in After(r).orders
    requires After(r).orders[c.orderId].maker == c.signer && After(r).orders[c.orderId].direction == ASK
    ensures Step(After(r), c).outcome == Ok && c.orderId !in Step(After(r), c).state.orders
    ensures NeverSplits(r) ==>
              var s, s', o := After(r), Step(After(r), c).state, After(r).orders[c.orderId];
              && BalanceOf(s'.carbon, o.assetId, c.signer) == BalanceOf(s.carbon, o.assetId, c.signer) + o.leftAmount
              && BalanceOf(s'.carbon, o.assetId, POT) == BalanceOf(s.carbon, o.assetId, POT) - o.leftAmount
  {
    var s := After(r);
    if NeverSplits(r) {
      var o := s.orders[c.orderId];
      CarbonEscrowSolvent(r, o.assetId);
      OrderWithinTotals(s.orders, c.orderId, o.assetId);
      CarbonArithmeticInRange(r, c);
      BalanceAfterTransfer(s.carbon, o.assetId, POT, c.signer, o.leftAmount, o.assetId, POT);
      BalanceAfterTransfer(s.carbon, o.assetId, POT, c.signer, o.leftAmount, o.assetId, c.signer);
    }
  }

  /** A maker can withdraw a BID exactly when the refund is enough for the maker's account to exist. */
  lemma BidCancelSucceedsIff(r: Run, c: Call)
    requires Endowed(r) && Allowed(After(r), c)
    requires c.CancelOrder? && c.orderId in After(r).orders
    requires After(r).orders[c.orderId].maker == c.signer && After(r).orders[c.orderId].direction == BID
    ensures Step(After(r), c).outcome == Ok <==>
            Free(After(r).native, c.signer) + After(r).orders[c.orderId].lockedBalance >= EXISTENTIAL_DEPOSIT
  {
    var s := After(r);
    var o := s.orders[c.orderId];
    NativeEscrowSolvent(r);
    LinkedAlways(r);
    assert LockExact(s.orders, c.orderId);
    assert OrderLinked(s.assets, s.orders, c.orderId);
    PositiveCost(o.leftAmount, o.price);
    OrderWithinTotals(s.orders, c.orderId, o.assetId);
    PaymentRefusedIff(s.native, POT, c.signer, o.lockedBalance);
  }

  // ---- a pot with no endowment ----

  /** What the pot pays out in this call. */
  function PotPayment(s: State, c: Call): u64 {
    if c.TakeOrder? && c.orderId in s.orders && s.orders[c.orderId].direction == BID
    then SaturatingMul(c.amount, s.orders[c.orderId].price)
    else if c.CancelOrder? && c.orderId in s.orders && s.orders[c.orderId].direction == BID
    then s.orders[c.orderId].lockedBalance
    else 0
  }

  /** The payout leaves the pot with something, but with less than the existential deposit. */
  predicate ReapsPot(s: State, c: Call) {
    PotPayment(s, c) > 0 && 0 < Free(s.native, POT) - PotPayment(s, c) < EXISTENTIAL_DEPOSIT
  }

  lemma BareFill(s: State, c: Call)
    requires Linked(s) && Allowed(s, c) && LocksExact(s) && Surplus(s) >= 0
    requires c.TakeOrder? && Step(s, c).outcome == Ok
    ensures var s' := Step(s, c).state;
            && Locked(s'.orders) == Locked(s.orders) - PotPayment(s, c) >= 0
            && Free(s'.native, POT) == if PotPayment(s, c) == 0 then Free(s.native, POT)
                                       else AfterReaping(Free(s.native, POT) - PotPayment(s, c))
  {
    var o := s.orders[c.orderId];
    FillEffect(s, c);
    assert OrderLinked(s.assets, s.orders, c.orderId);
    FillTotals(s.orders, c.orderId, Paid(o, SaturatingMul(c.amount, o.price)), c.amount, o.assetId);
    SumByNonNegative(Step(s, c).state.orders, LockedOf());
    if o.direction == BID {
      assert LockExact(s.orders, c.orderId);
      FillCost(s, c.orderId, c.amount);
    }
  }

  lemma BareCancel(s: State, c: Call)
    requires Linked(s) && Allowed(s, c) && Surplus(s) >= 0
    requires c.CancelOrder? && Step(s, c).outcome == Ok
    ensures var s' := Step(s, c).state;
            && Locked(s'.orders) == Locked(s.orders) - PotPayment(s, c) >= 0
            && Free(s'.native, POT) == if PotPayment(s, c) == 0 then Free(s.native, POT)
                                       else AfterReaping(Free(s.native, POT) - PotPayment(s, c))
  {
    CancelEffect(s, c);
    assert OrderLinked(s.assets, s.orders, c.orderId);
    OrderTotalsRemove(s.orders, c.orderId, s.orders[c.orderId].assetId);
    SumByNonNegative(Step(s, c).state.orders, LockedOf());
  }

  /** The call's payout reaps the pot while other orders have money locked. */
  ghost predicate Defaults(s: State, c: Call) {
    Step(s, c).outcome == Ok && ReapsPot(s, c) && Locked(s.orders) - PotPayment(s, c) > 0
  }

  lemma BareSolvencyStep(s: State, c: Call)
    requires Linked(s) && Allowed(s, c) && LocksExact(s) && Surplus(s) >= 0
    ensures Surplus(Step(s, c).state) >= 0 <==> !Defaults(s, c)
  {
    if c.MakeOrder? {
      MakeOrderSurplus(s, c);
    } else if c.TakeOrder? {
      if Step(s, c).outcome == Ok {
        BareFill(s, c);
      } else {
        FailedFillEffect(s, c);
      }
    } else if c.CancelOrder? {
      if Step(s, c).outcome == Ok {
        BareCancel(s, c);
      } else {
        CancelEffect(s, c);
      }
    } else {
      OtherCallsLeaveExchange(s, c);
    }
  }

  ghost predicate NeverDefaults(r: Run) {
    r.Then? ==> NeverDefaults(r.past) && !Defaults(After(r.past), r.call)
  }

  /** The pot's money covers all locks after every call of the run. */
  ghost predicate AlwaysSolvent(r: Run) {
    Surplus(After(r)) >= 0 && (r.Then? ==> AlwaysSolvent(r.past))
  }

  /**
   * With no endowment at all: while no lock is clipped, the pot covers every lock after every call if
   * and only if no payout reaped it while other orders had money locked.
   */
  lemma {:induction false} BareSolvencyIff(r: Run)
    requires Admissible(r) && NeverSaturates(r)
    ensures AlwaysSolvent(r) <==> NeverDefaults(r)
  {
    if r.Then? {
      BareSolvencyIff(r.past);
      if AlwaysSolvent(r.past) {
        LocksExactIff(r.past);
        LinkedAlways(r.past);
        BareSolvencyStep(After(r.past), r.call);
      }
    }
  }
}
