/** The life of one order, however other calls interleave with it. */
module OrderLife {
  import opened U64
  import opened Ledger
  import opened NativeBalances
  import opened Runs
  import opened Integrity
  import opened Supply
  import opened Issuance
  import opened Effects
  import opened NativeEscrow

  predicate Makes(s: State, c: Call, id: Hash) {
    c.MakeOrder? && c.orderId == id && Step(s, c).outcome == Ok
  }

  predicate Fills(s: State, c: Call, id: Hash) {
    c.TakeOrder? && c.orderId == id && Step(s, c).outcome == Ok
  }

  predicate Cancels(s: State, c: Call, id: Hash) {
    c.CancelOrder? && c.orderId == id && Step(s, c).outcome == Ok
  }

  /** Units filled since the order was made. */
  function Filled(r: Run, id: Hash): nat {
    match r
    case Genesis(_) => 0
    case Then(past, c) =>
      if Makes(After(past), c, id) then 0
      else Filled(past, id) + if Fills(After(past), c, id) then c.amount else 0
  }

  /** How many fills of more than nothing there were. */
  function FillCount(r: Run, id: Hash): nat {
    match r
    case Genesis(_) => 0
    case Then(past, c) =>
      if Makes(After(past), c, id) then 0
      else FillCount(past, id) + if Fills(After(past), c, id) && c.amount > 0 then 1 else 0
  }

  /** Units filled by takers other than the maker. */
  function FilledByOthers(r: Run, id: Hash): nat {
    match r
    case Genesis(_) => 0
    case Then(past, c) =>
      if Makes(After(past), c, id) then 0
      else FilledByOthers(past, id)
           + if Fills(After(past), c, id) && c.signer != After(past).orders[id].maker then c.amount else 0
  }

  /** What the native ledger shows the maker gained in the fills of the order. */
  function MakerReceived(r: Run, id: Hash): int {
    match r
    case Genesis(_) => 0
    case Then(past, c) =>
      if Makes(After(past), c, id) then 0
      else MakerReceived(past, id)
           + if Fills(After(past), c, id) then
               Free(After(r).native, After(past).orders[id].maker)
               - Free(After(past).native, After(past).orders[id].maker)
             else 0
  }

  /** What the native ledger shows the pot gave in the fills of the order. */
  function PotGave(r: Run, id: Hash): int {
    match r
    case Genesis(_) => 0
    case Then(past, c) =>
      if Makes(After(past), c, id) then 0
      else PotGave(past, id)
           + if Fills(After(past), c, id) then Free(After(past).native, POT) - Free(After(r).native, POT) else 0
  }

  ghost predicate SameTerms(o: Order, o': Order) {
    && o'.assetId == o.assetId && o'.moneyId == o.moneyId && o'.maker == o.maker
    && o'.amount == o.amount && o'.price == o.price && o'.direction == o.direction
  }

  /**
   * Where an order can come from, what can happen to it, and where it can go: it appears only by being
   * made, untouched; while it lives only fills change it; it goes only by its last fill or its cancel.
   */
  ghost predicate LivesBySteps(s: State, c: Call, id: Hash) {
    var orders' := Step(s, c).state.orders;
    && (id in orders' && id !in s.orders ==>
          Makes(s, c, id) && orders'[id].leftAmount == orders'[id].amount)
    && (id in s.orders ==> !Makes(s, c, id))
    && (id in s.orders && id in orders' ==>
          && SameTerms(s.orders[id], orders'[id])
          && orders'[id].leftAmount == s.orders[id].leftAmount - (if Fills(s, c, id) then c.amount else 0))
    && (id in s.orders && id !in orders' ==>
          || (Fills(s, c, id) && c.amount == s.orders[id].leftAmount)
          || (Cancels(s, c, id) && c.signer == s.orders[id].maker))
  }

  lemma MakeOrderLives(s: State, c: Call, id: Hash)
    requires c.MakeOrder?
    ensures LivesBySteps(s, c, id)
  {
    MakeEffect(s, c);
  }

  lemma TakeOrderLives(s: State, c: Call, id: Hash)
    requires c.TakeOrder?
    ensures LivesBySteps(s, c, id)
  {
    if Step(s, c).outcome == Ok {
      FillEffect(s, c);
    } else {
      FailedFillEffect(s, c);
    }
  }

  lemma CancelOrderLives(s: State, c: Call, id: Hash)
    requires c.CancelOrder?
    ensures LivesBySteps(s, c, id)
  {
    CancelEffect(s, c);
  }

  lemma OrderHistory(s: State, c: Call, id: Hash)
    ensures LivesBySteps(s, c, id)
  {
    if c.MakeOrder? {
      MakeOrderLives(s, c, id);
    } else if c.TakeOrder? {
      TakeOrderLives(s, c, id);
    } else if c.CancelOrder? {
      CancelOrderLives(s, c, id);
    } else {
      OtherCallsLeaveExchange(s, c);
    }
  }

  /** While an order lives, what it was made for is what was filled plus what is left. */
  lemma {:induction false} AmountAccounted(r: Run, id: Hash)
    requires Admissible(r) && id in After(r).orders
    ensures After(r).orders[id].amount == Filled(r, id) + After(r).orders[id].leftAmount
    ensures FilledByOthers(r, id) <= Filled(r, id)
    ensures FillCount(r, id) <= Filled(r, id)
  {
    OrderHistory(After(r.past), r.call, id);
    if id in After(r.past).orders {
      AmountAccounted(r.past, id);
    }
  }

  /** Progress: a live order is positive in every respect and has seen fewer nonzero fills than units. */
  lemma FillsAreBounded(r: Run, id: Hash)
    requires Admissible(r) && id in After(r).orders
    ensures var o := After(r).orders[id];
            0 < o.leftAmount <= o.amount && o.price > 0 && FillCount(r, id) < o.amount
  {
    AmountAccounted(r, id);
    LinkedAlways(r);
    assert OrderLinked(After(r).assets, After(r).orders, id);
  }

  /** A successful fill of more than nothing leaves strictly less, and closes the order at zero. */
  lemma FillDecreases(s: State, c: Call, id: Hash)
    requires Fills(s, c, id) && c.amount > 0
    ensures id in s.orders && c.amount <= s.orders[id].leftAmount
    ensures id in Step(s, c).state.orders <==> c.amount < s.orders[id].leftAmount
    ensures id in Step(s, c).state.orders ==>
              Step(s, c).state.orders[id].leftAmount == s.orders[id].leftAmount - c.amount
  {
    OrderHistory(s, c, id);
  }

  // ---- money: ASK ----

  /** Receipts at `price` a unit stay so when `units` more are paid for at their cost. */
  lemma ReceiptGrows(price: int, filled: int, received: int, units: int, gain: int, filled': int, received': int)
    requires received == price * filled && gain == units * price
    requires filled' == filled + units && received' == received + gain
    ensures received' == price * filled'
  {
  }

  lemma AskFillPays(s: State, c: Call, id: Hash)
    requires Fills(s, c, id) && s.orders[id].direction == ASK
    ensures var o := s.orders[id];
            Free(Step(s, c).state.native, o.maker) - Free(s.native, o.maker) ==
            if c.signer == o.maker then 0 else SaturatingMul(c.amount, o.price)
  {
    var o := s.orders[id];
    var money := SaturatingMul(c.amount, o.price);
    if c.signer != o.maker && money > 0 {
      PaymentMovesValue(s.native, c.signer, o.maker, money, c.restricted);
    }
  }

  /** The cost of a part of an unclipped order. */
  lemma PartCost(part: u64, amount: u64, price: u64)
    requires part <= amount && amount * price <= U64_MAX
    ensures SaturatingMul(part, price) == part * price
  {
    PartialCost(part, amount, price);
  }

  /** The order is a live ASK of these terms. */
  predicate AskOf(orders: Orders, id: Hash, amount: u64, price: u64) {
    id in orders && orders[id].direction == ASK && orders[id].amount == amount && orders[id].price == price
  }

  /** What one call adds to the receipts and to the units of a live, unclipped ASK. */
  lemma AskGain(past: Run, c: Call, id: Hash, amount: u64, price: u64) returns (gain: int, units: nat)
    requires AskOf(After(past).orders, id, amount, price) && After(past).orders[id].leftAmount <= amount
    requires amount * price <= U64_MAX
    ensures MakerReceived(Then(past, c), id) == MakerReceived(past, id) + gain
    ensures FilledByOthers(Then(past, c), id) == FilledByOthers(past, id) + units
    ensures gain == units * price
  {
    var s := After(past);
    gain, units := 0, 0;
    OrderHistory(s, c, id);
    if Fills(s, c, id) {
      AskFillPays(s, c, id);
      if c.signer != s.orders[id].maker {
        FillEffect(s, c);
        PartCost(c.amount, amount, price);
        gain, units := SaturatingMul(c.amount, price), c.amount;
      }
    }
  }

  /** The receipts stay at `price` a unit across one more call on an order that was live before it. */
  lemma AskReceiptStep(past: Run, c: Call, id: Hash, amount: u64, price: u64)
    requires AskOf(After(past).orders, id, amount, price) && After(past).orders[id].leftAmount <= amount
    requires amount * price <= U64_MAX
    requires MakerReceived(past, id) == price * FilledByOthers(past, id)
    ensures MakerReceived(Then(past, c), id) == price * FilledByOthers(Then(past, c), id)
  {
    var gain, units := AskGain(past, c, id, amount, price);
    ReceiptGrows(price, FilledByOthers(past, id), MakerReceived(past, id), units, gain,
                 FilledByOthers(Then(past, c), id), MakerReceived(Then(past, c), id));
  }

  lemma AskTermsStay(past: Run, c: Call, id: Hash, amount: u64, price: u64)
    requires AskOf(After(Then(past, c)).orders, id, amount, price)
    ensures id in After(past).orders ==> AskOf(After(past).orders, id, amount, price)
    ensures id !in After(past).orders ==>
              MakerReceived(Then(past, c), id) == 0 && FilledByOthers(Then(past, c), id) == 0
  {
    OrderHistory(After(past), c, id);
  }

  lemma {:induction false} AskReceipts(r: Run, id: Hash, amount: u64, price: u64)
    requires Admissible(r) && AskOf(After(r).orders, id, amount, price)
    requires amount * price <= U64_MAX
    ensures MakerReceived(r, id) == price * FilledByOthers(r, id)
  {
    AskTermsStay(r.past, r.call, id, amount, price);
    if id in After(r.past).orders {
      AmountAccounted(r.past, id);
      AskReceipts(r.past, id, amount, price);
      AskReceiptStep(r.past, r.call, id, amount, price);
    }
  }

  /** The maker of an unclipped ASK has received exactly `price` for each unit that others took. */
  lemma AskMakerReceives(r: Run, id: Hash)
    requires Admissible(r) && id in After(r).orders
    requires After(r).orders[id].direction == ASK
    requires After(r).orders[id].amount * After(r).orders[id].price <= U64_MAX
    ensures MakerReceived(r, id) == After(r).orders[id].price * FilledByOthers(r, id)
  {
    AskReceipts(r, id, After(r).orders[id].amount, After(r).orders[id].price);
  }

  /** And when its last unit is taken, the whole amount is filled and paid for at that price. */
  lemma AskFinishesPaid(past: Run, c: Call, id: Hash)
    requires Admissible(past) && id in After(past).orders
    requires Fills(After(past), c, id) && c.amount == After(past).orders[id].leftAmount
    requires After(past).orders[id].direction == ASK
    requires After(past).orders[id].amount * After(past).orders[id].price <= U64_MAX
    ensures Filled(Then(past, c), id) == After(past).orders[id].amount
    ensures MakerReceived(Then(past, c), id) ==
            After(past).orders[id].price * FilledByOthers(Then(past, c), id)
  {
    var o := After(past).orders[id];
    AmountAccounted(past, id);
    AskReceipts(past, id, o.amount, o.price);
    AskReceiptStep(past, c, id, o.amount, o.price);
    OrderHistory(After(past), c, id);
  }

  // ---- money: BID ----

  lemma BidFillPays(s: State, c: Call, id: Hash)
    requires Linked(s) && Allowed(s, c) && LocksExact(s) && Surplus(s) >= EXISTENTIAL_DEPOSIT
    requires Fills(s, c, id) && s.orders[id].direction == BID
    ensures Free(s.native, POT) - Free(Step(s, c).state.native, POT) == c.amount * s.orders[id].price
    ensures id in Step(s, c).state.orders ==>
              Step(s, c).state.orders[id].lockedBalance ==
              s.orders[id].lockedBalance - c.amount * s.orders[id].price
  {
    assert LockExact(s.orders, id);
    FillCost(s, id, c.amount);
    OrderWithinTotals(s.orders, id, s.orders[id].assetId);
    PotPays(s, c.signer, SaturatingMul(c.amount, s.orders[id].price));
  }

  /** What one call adds to the pot's payments and to the units of a live BID. */
  lemma BidGain(past: Run, c: Call, id: Hash) returns (gain: int, units: nat)
    requires Endowed(Then(past, c)) && id in After(past).orders && After(past).orders[id].direction == BID
    ensures PotGave(Then(past, c), id) == PotGave(past, id) + gain
    ensures Filled(Then(past, c), id) == Filled(past, id) + units
    ensures gain == units * After(past).orders[id].price
  {
    gain, units := 0, 0;
    OrderHistory(After(past), c, id);
    if Fills(After(past), c, id) {
      NativeEscrowSolvent(past);
      LinkedAlways(past);
      BidFillPays(After(past), c, id);
      gain, units := c.amount * After(past).orders[id].price, c.amount;
    }
  }

  lemma BidPaymentStep(past: Run, c: Call, id: Hash)
    requires Endowed(Then(past, c)) && id in After(past).orders && After(past).orders[id].direction == BID
    requires PotGave(past, id) == After(past).orders[id].price * Filled(past, id)
    ensures PotGave(Then(past, c), id) == After(past).orders[id].price * Filled(Then(past, c), id)
  {
    var gain, units := BidGain(past, c, id);
    ReceiptGrows(After(past).orders[id].price, Filled(past, id), PotGave(past, id), units, gain,
                 Filled(Then(past, c), id), PotGave(Then(past, c), id));
  }

  lemma {:induction false} BidPayments(r: Run, id: Hash)
    requires Endowed(r) && id in After(r).orders && After(r).orders[id].direction == BID
    ensures PotGave(r, id) == After(r).orders[id].price * Filled(r, id)
  {
    OrderHistory(After(r.past), r.call, id);
    if id in After(r.past).orders {
      BidPayments(r.past, id);
      BidPaymentStep(r.past, r.call, id);
    }
  }

  lemma CostAddsUp(amount: int, price: int, filled: int, left: int)
    requires amount == filled + left
    ensures amount * price == price * filled + left * price
  {
  }

  /**
   * While a BID lives, what it locked when made is what the pot gave for its fills, `price` a unit,
   * plus what is still locked.
   */
  lemma BidMoneyAccounted(r: Run, id: Hash)
    requires Endowed(r) && id in After(r).orders && After(r).orders[id].direction == BID
    ensures var o := After(r).orders[id];
            && PotGave(r, id) == o.price * Filled(r, id)
            && o.amount * o.price == PotGave(r, id) + o.lockedBalance
  {
    var o := After(r).orders[id];
    BidPayments(r, id);
    NativeEscrowSolvent(r);
    AmountAccounted(r, id);
    assert LockExact(After(r).orders, id);
    CostAddsUp(o.amount, o.price, Filled(r, id), o.leftAmount);
  }

  /** The last fill of a BID spends the lock to the end: nothing is stranded in the pot. */
  lemma BidFinishesSpent(past: Run, c: Call, id: Hash)
    requires Endowed(Then(past, c)) && id in After(past).orders && After(past).orders[id].direction == BID
    requires Fills(After(past), c, id) && c.amount == After(past).orders[id].leftAmount
    ensures id !in After(Then(past, c)).orders
    ensures PotGave(Then(past, c), id) == After(past).orders[id].amount * After(past).orders[id].price
  {
    var o := After(past).orders[id];
    assert Filled(Then(past, c), id) == o.amount by {
      AmountAccounted(past, id);
      OrderHistory(After(past), c, id);
    }
    BidPayments(past, id);
    BidPaymentStep(past, c, id);
    CostAddsUp(o.amount, o.price, o.amount, 0);
    LastFillCloses(past, c, id);
  }

  lemma LastFillCloses(past: Run, c: Call, id: Hash)
    requires Admissible(past) && id in After(past).orders
    requires Fills(After(past), c, id) && c.amount == After(past).orders[id].leftAmount
    ensures id !in After(Then(past, c)).orders
  {
    LinkedAlways(past);
    assert OrderLinked(After(past).assets, After(past).orders, id);
    FillDecreases(After(past), c, id);
  }

  /** Cancelling a BID gives the maker exactly what its fills did not spend. */
  lemma BidCancelRefundsRest(past: Run, c: Call, id: Hash)
    requires Endowed(Then(past, c)) && id in After(past).orders && After(past).orders[id].direction == BID
    requires Cancels(After(past), c, id)
    ensures var o := After(past).orders[id];
            && Free(After(Then(past, c)).native, o.maker) - Free(After(past).native, o.maker) ==
               o.amount * o.price - PotGave(past, id)
            && id !in After(Then(past, c)).orders
  {
    var s := After(past);
    var o := s.orders[id];
    BidMoneyAccounted(past, id);
    NativeEscrowSolvent(past);
    LinkedAlways(past);
    assert OrderLinked(s.assets, s.orders, id);
    if o.lockedBalance > 0 {
      PaymentMovesValue(s.native, POT, o.maker, o.lockedBalance, false);
    }
  }

  // ---- carbon ----

  /** What the carbon ledger shows the maker gained in the fills of the order. */
  function MakerUnits(r: Run, id: Hash): int {
    match r
    case Genesis(_) => 0
    case Then(past, c) =>
      if Makes(After(past), c, id) then 0
      else MakerUnits(past, id)
           + if Fills(After(past), c, id) then
               var o := After(past).orders[id];
               BalanceOf(After(r).carbon, o.assetId, o.maker) - BalanceOf(After(past).carbon, o.assetId, o.maker)
             else 0
  }

  /** What the carbon ledger shows the pot gave in the fills of the order. */
  function PotUnits(r: Run, id: Hash): int {
    match r
    case Genesis(_) => 0
    case Then(past, c) =>
      if Makes(After(past), c, id) then 0
      else PotUnits(past, id)
           + if Fills(After(past), c, id) then
               var a := After(past).orders[id].assetId;
               BalanceOf(After(past).carbon, a, POT) - BalanceOf(After(r).carbon, a, POT)
             else 0
  }

  lemma BidFillDelivers(past: Run, c: Call, id: Hash)
    requires Admissible(Then(past, c)) && NeverSplits(past)
    requires Fills(After(past), c, id) && After(past).orders[id].direction == BID
    ensures var o, s, s' := After(past).orders[id], After(past), After(Then(past, c));
            BalanceOf(s'.carbon, o.assetId, o.maker) - BalanceOf(s.carbon, o.assetId, o.maker) ==
            if c.signer == o.maker then 0 else c.amount
  {
    var s := After(past);
    var o := s.orders[id];
    FillEffect(s, c);
    CarbonArithmeticInRange(past, c);
    BalanceAfterTransfer(s.carbon, o.assetId, c.signer, o.maker, c.amount, o.assetId, o.maker);
  }

  /** While no issue splits, the maker of a live BID has gained, in its fills, every unit that others gave. */
  lemma {:induction false} BidMakerReceivesUnits(r: Run, id: Hash)
    requires Admissible(r) && NeverSplits(r)
    requires id in After(r).orders && After(r).orders[id].direction == BID
    ensures MakerUnits(r, id) == FilledByOthers(r, id)
  {
    OrderHistory(After(r.past), r.call, id);
    if id in After(r.past).orders {
      BidMakerReceivesUnits(r.past, id);
      if Fills(After(r.past), r.call, id) {
        BidFillDelivers(r.past, r.call, id);
      }
    }
  }

  lemma AskFillDelivers(s: State, c: Call, id: Hash)
    requires Allowed(s, c) && Fills(s, c, id) && s.orders[id].direction == ASK
    ensures BalanceOf(s.carbon, s.orders[id].assetId, POT)
         == BalanceOf(Step(s, c).state.carbon, s.orders[id].assetId, POT) + c.amount
  {
    FillEffect(s, c);
  }

  lemma {:induction false} AskPotGives(r: Run, id: Hash)
    requires Admissible(r) && id in After(r).orders && After(r).orders[id].direction == ASK
    ensures PotUnits(r, id) == Filled(r, id)
  {
    OrderHistory(After(r.past), r.call, id);
    if id in After(r.past).orders {
      AskPotGives(r.past, id);
      if Fills(After(r.past), r.call, id) {
        AskFillDelivers(After(r.past), r.call, id);
      }
    }
  }

  /** What a live ASK put in the pot is what the pot gave in its fills, and what is left of it. */
  lemma AskUnitsAccounted(r: Run, id: Hash)
    requires Admissible(r) && id in After(r).orders && After(r).orders[id].direction == ASK
    ensures After(r).orders[id].amount == PotUnits(r, id) + After(r).orders[id].leftAmount
  {
    AskPotGives(r, id);
    AmountAccounted(r, id);
  }
}
