/**
 * Supply accounting. Each asset's `total_supply` counter is compared with where its units are: in
 * accounts, in pending burns, retired for good, or lost when a pending burn was overwritten.
 */
module Supply {
  import opened U64
  import opened Sums
  import opened Ledger
  import opened Runs
  import CX = CarbonExchange
  import opened Effects
  import opened Integrity

  function Total(s: State, a: Hash): u64 {
    if a in s.assets then s.assets[a].totalSupply else 0
  }

  ghost function PendingOf(a: Hash): (Hash, BurnInfo) -> int {
    (id: Hash, b: BurnInfo) => if b.assetId == a && b.status == Submitted then b.amount else 0
  }

  /** Units of asset `a` taken out of accounts by burns that await approval. */
  ghost function Pending(burns: map<Hash, BurnInfo>, a: Hash): int {
    SumBy(burns, PendingOf(a))
  }

  ghost function Held(s: State, a: Hash): int {
    Holdings(s.carbon, a) + Pending(s.burns, a)
  }

  lemma HeldNonNegative(s: State, a: Hash)
    ensures Holdings(s.carbon, a) >= 0 && Pending(s.burns, a) >= 0
  {
    SumByNonNegative(s.carbon, HeldOf(a));
    SumByNonNegative(s.burns, PendingOf(a));
  }

  /** Units of `a` that this call retires. */
  function RetiredBy(s: State, c: Call, a: Hash): u64 {
    if c.Neutralize? && c.assetId == a && Step(s, c).outcome == Ok then c.amount else 0
  }

  /** Units of `a` in a pending burn that this call overwrites. */
  function LostBy(s: State, c: Call, a: Hash): u64 {
    if c.SubmitBurn? && Step(s, c).outcome == Ok && c.burnId in s.burns
       && s.burns[c.burnId].assetId == a && s.burns[c.burnId].status == Submitted
    then s.burns[c.burnId].amount else 0
  }

  function Retired(r: Run, a: Hash): nat {
    match r
    case Genesis(_) => 0
    case Then(past, c) => Retired(past, a) + RetiredBy(After(past), c, a)
  }

  function Lost(r: Run, a: Hash): nat {
    match r
    case Genesis(_) => 0
    case Then(past, c) => Lost(past, a) + LostBy(After(past), c, a)
  }

  /** Where the units of `a` ever put into circulation are after the run. */
  ghost function Accounted(r: Run, a: Hash): int {
    Held(After(r), a) + Retired(r, a) + Lost(r, a)
  }

  // ---- the issue that can break the identity ----

  function IssueOwner(s: State, c: Call): AccountId
    requires c.ApproveIssue? && Step(s, c).outcome == Ok
  {
    s.projects[s.assets[s.issues[c.issueId].assetId].projectId].owner
  }

  /**
   * Approving the issue takes the asset's counter past 2^64 but not the owner's balance: the counter
   * wraps and the units do not.
   */
  predicate Splits(s: State, c: Call) {
    && c.ApproveIssue?
    && Step(s, c).outcome == Ok
    && var issue := s.issues[c.issueId];
       BalanceOf(s.carbon, issue.assetId, IssueOwner(s, c)) + issue.amount
       <= U64_MAX < Total(s, issue.assetId) + issue.amount
  }

  // ---- what one step does to counter and units ----

  /** The counter and the units change by the same amount, modulo 2^64. */
  ghost predicate MovesTogether(s: State, c: Call, a: Hash) {
    Congruent(Held(Step(s, c).state, a) - Held(s, a) + RetiredBy(s, c, a) + LostBy(s, c, a),
              Total(Step(s, c).state, a) - Total(s, a))
  }

  /** The same without wrapping. */
  ghost predicate MovesExactly(s: State, c: Call, a: Hash) {
    Total(Step(s, c).state, a) - Total(s, a) ==
    Held(Step(s, c).state, a) - Held(s, a) + RetiredBy(s, c, a) + LostBy(s, c, a)
  }

  lemma ApproveAssetMoves(s: State, c: Call, a: Hash)
    requires Linked(s) && Allowed(s, c) && c.ApproveAsset?
    ensures MovesExactly(s, c, a)
  {
    if Step(s, c).outcome == Ok {
      var asset := s.assets[c.assetId];
      var owner := s.projects[asset.projectId].owner;
      assert AssetLinked(s.projects, s.assets, c.assetId);
      assert BalanceOf(s.carbon, c.assetId, owner) == 0 by {
        assert BalanceLinked(s.assets, s.carbon, c.assetId, owner);
      }
      HoldingsAfterSet(s.carbon, c.assetId, owner, asset.initialSupply, a);
    }
  }

  lemma ApproveIssueEffect(s: State, c: Call, a: Hash)
    requires c.ApproveIssue? && Step(s, c).outcome == Ok
    ensures var s', issue := Step(s, c).state, s.issues[c.issueId];
            var b := BalanceOf(s.carbon, issue.assetId, IssueOwner(s, c));
            var here := a == issue.assetId;
            && Total(s', a) == (if here then Add(Total(s, a), issue.amount) else Total(s, a))
            && Held(s', a) == Held(s, a) + (if here then Add(b, issue.amount) - b else 0)
  {
    var issue := s.issues[c.issueId];
    var b := BalanceOf(s.carbon, issue.assetId, IssueOwner(s, c));
    HoldingsAfterSet(s.carbon, issue.assetId, IssueOwner(s, c), Add(b, issue.amount), a);
  }

  lemma FailedIssueStays(s: State, c: Call)
    requires c.ApproveIssue? && Step(s, c).outcome != Ok
    ensures Step(s, c).state == s
  {
  }

  lemma ApproveIssueMoves(s: State, c: Call, a: Hash)
    requires c.ApproveIssue?
    ensures MovesTogether(s, c, a)
    ensures Held(s, a) <= Total(s, a) ==>
              (MovesExactly(s, c, a) <==> !(Splits(s, c) && a == s.issues[c.issueId].assetId))
  {
    if Step(s, c).outcome == Ok {
      var issue := s.issues[c.issueId];
      var b := BalanceOf(s.carbon, issue.assetId, IssueOwner(s, c));
      ApproveIssueEffect(s, c, a);
      WrapsTogether(b, Total(s, a), issue.amount);
      BalanceWithinHoldings(s.carbon, issue.assetId, IssueOwner(s, c));
      HeldNonNegative(s, issue.assetId);
    } else {
      FailedIssueStays(s, c);
    }
  }

  lemma WrapsTogether(b: u64, t: u64, amount: u64)
    ensures Congruent(Add(b, amount) as int - b, Add(t, amount) as int - t)
    ensures b <= t ==> (Add(b, amount) as int - b == Add(t, amount) as int - t <==>
                        !(b + amount <= U64_MAX < t + amount))
  {
    WrapCongruent(b, amount);
    WrapCongruent(t, amount);
    assert Turns(1) == U64_MAX + 1 && Turns(-1) == -U64_MAX - 1;
  }

  lemma SubmitBurnMoves(s: State, c: Call, a: Hash)
    requires c.SubmitBurn?
    ensures MovesExactly(s, c, a)
  {
    if Step(s, c).outcome == Ok {
      SumByInsert(s.burns, PendingOf(a), c.burnId, BurnInfo(c.assetId, c.amount, Submitted));
      HoldingsAfterSet(s.carbon, c.assetId, c.signer, Sub(BalanceOf(s.carbon, c.assetId, c.signer), c.amount), a);
    }
  }

  lemma ApproveBurnMoves(s: State, c: Call, a: Hash)
    requires c.ApproveBurn?
    ensures MovesTogether(s, c, a)
    ensures Held(s, a) <= Total(s, a) ==> MovesExactly(s, c, a)
  {
    if Step(s, c).outcome == Ok {
      var burn := s.burns[c.burnId];
      SumByInsert(s.burns, PendingOf(a), c.burnId, burn.(status := Approved));
      WrapCongruent(Total(s, burn.assetId), burn.amount);
      CongruentAdd(Total(s, burn.assetId) - burn.amount, Total(s, burn.assetId) - burn.amount,
                   Sub(Total(s, burn.assetId), burn.amount), Total(s, burn.assetId) - burn.amount);
      SumByBoundsOne(s.burns, PendingOf(a), c.burnId);
      HeldNonNegative(s, a);
    }
  }

  lemma NeutralizeMoves(s: State, c: Call, a: Hash)
    requires c.Neutralize?
    ensures MovesExactly(s, c, a)
  {
    if Step(s, c).outcome == Ok {
      HoldingsAfterSet(s.carbon, c.assetId, c.signer, Sub(BalanceOf(s.carbon, c.assetId, c.signer), c.amount), a);
    }
  }

  lemma TransferMoves(s: State, c: Call, a: Hash)
    requires c.Transfer?
    ensures MovesTogether(s, c, a)
    ensures Holdings(s.carbon, a) <= U64_MAX ==> MovesExactly(s, c, a)
  {
    HoldingsAfterTransfer(s.carbon, c.assetId, c.signer, c.to, c.amount, a);
  }

  /** What the pot holds of `a` covers what the live ASK orders of `a` still owe. */
  ghost predicate PotCovers(s: State, a: Hash) {
    AskLeft(s.orders, a) <= BalanceOf(s.carbon, a, POT)
  }

  /** A call that only moves carbon changes an asset's units as the move does. */
  lemma OnlyMoves(s: State, c: Call, a: Hash)
    requires c.MakeOrder? || c.TakeOrder? || c.CancelOrder?
    requires Congruent(Holdings(Step(s, c).state.carbon, a), Holdings(s.carbon, a))
    ensures MovesTogether(s, c, a)
    ensures Holdings(Step(s, c).state.carbon, a) == Holdings(s.carbon, a) ==> MovesExactly(s, c, a)
  {
    ExchangeLeavesRegistry(s, c);
  }

  lemma MakeOrderMoves(s: State, c: Call, a: Hash)
    requires c.MakeOrder?
    ensures MovesTogether(s, c, a)
    ensures Holdings(s.carbon, a) <= U64_MAX ==> MovesExactly(s, c, a)
  {
    HoldingsAfterTransfer(s.carbon, c.assetId, c.signer, POT, c.amount, a);
    OnlyMoves(s, c, a);
  }

  lemma TakeOrderMoves(s: State, c: Call, a: Hash)
    requires c.TakeOrder?
    ensures MovesTogether(s, c, a)
    ensures Holdings(s.carbon, a) <= U64_MAX ==> MovesExactly(s, c, a)
  {
    if Step(s, c).outcome == Ok {
      var o := s.orders[c.orderId];
      FillEffect(s, c);
      HoldingsAfterTransfer(s.carbon, o.assetId, Giver(o, c.signer), Receiver(o, c.signer), c.amount, a);
    } else {
      FailedFillEffect(s, c);
      if Step(s, c).state.carbon != s.carbon {
        var o := s.orders[c.orderId];
        HoldingsAfterTransfer(s.carbon, o.assetId, c.signer, o.maker, c.amount, a);
      }
    }
    OnlyMoves(s, c, a);
  }

  lemma CancelOrderMoves(s: State, c: Call, a: Hash)
    requires c.CancelOrder?
    ensures MovesTogether(s, c, a)
    ensures Holdings(s.carbon, a) <= U64_MAX && PotCovers(s, a) ==> MovesExactly(s, c, a)
  {
    CancelEffect(s, c);
    if Step(s, c).outcome == Ok {
      var o := s.orders[c.orderId];
      OrderWithinTotals(s.orders, c.orderId, a);
      HoldingsAfterTransfer(s.carbon, o.assetId, POT, c.signer, o.leftAmount, a);
    }
    OnlyMoves(s, c, a);
  }

  /** Calls that touch neither counters nor units. */
  lemma OtherCallMoves(s: State, c: Call, a: Hash)
    requires c.SubmitProject? || c.ApproveProject? || c.SubmitAsset? || c.SubmitIssue? || c.OtherPallets?
    ensures MovesExactly(s, c, a)
  {
    if c.SubmitProject? || c.ApproveProject? {
      ProjectCallEffect(s, c);
    } else if c.SubmitAsset? || c.SubmitIssue? {
      SubmissionEffect(s, c);
    }
  }

  /** Every call, in every linked state, moves the counter and the units together modulo 2^64. */
  lemma SupplyMoves(s: State, c: Call, a: Hash)
    requires Linked(s) && Allowed(s, c)
    ensures MovesTogether(s, c, a)
  {
    match c
    case ApproveAsset(_, _) => ApproveAssetMoves(s, c, a);
    case ApproveIssue(_, _) => ApproveIssueMoves(s, c, a);
    case SubmitBurn(_, _, _, _) => SubmitBurnMoves(s, c, a);
    case ApproveBurn(_, _) => ApproveBurnMoves(s, c, a);
    case Transfer(_, _, _, _) => TransferMoves(s, c, a);
    case Neutralize(_, _, _) => NeutralizeMoves(s, c, a);
    case MakeOrder(_, _, _, _, _, _, _, _) => MakeOrderMoves(s, c, a);
    case TakeOrder(_, _, _, _) => TakeOrderMoves(s, c, a);
    case CancelOrder(_, _) => CancelOrderMoves(s, c, a);
    case _ => OtherCallMoves(s, c, a);
  }

  lemma AccountedThen(past: Run, c: Call, a: Hash)
    ensures Accounted(Then(past, c), a) ==
            Accounted(past, a) + Held(Step(After(past), c).state, a) - Held(After(past), a)
            + RetiredBy(After(past), c, a) + LostBy(After(past), c, a)
  {
  }

  lemma ModularStep(past: Run, c: Call, a: Hash)
    requires Admissible(Then(past, c))
    requires Congruent(Accounted(past, a), Total(After(past), a))
    ensures Congruent(Accounted(Then(past, c), a), Total(After(Then(past, c)), a))
  {
    var s, s' := After(past), After(Then(past, c));
    assert s' == Step(s, c).state;
    AccountedThen(past, c, a);
    LinkedAlways(past);
    SupplyMoves(s, c, a);
    CongruentAdd(Accounted(past, a), Total(s, a),
                 Held(s', a) - Held(s, a) + RetiredBy(s, c, a) + LostBy(s, c, a), Total(s', a) as int - Total(s, a));
  }

  /** The supply identity, modulo 2^64, with no condition on the run. */
  lemma {:induction false} SupplyIdentityModular(r: Run, a: Hash)
    requires Admissible(r)
    ensures Congruent(Accounted(r, a), Total(After(r), a))
  {
    match r
    case Genesis(_) =>
    case Then(past, c) =>
      SupplyIdentityModular(past, a);
      ModularStep(past, c, a);
  }

  // ---- the exact identity, and the pot's carbon ----

  ghost predicate Exact(r: Run, a: Hash) {
    Accounted(r, a) == Total(After(r), a)
  }

  /** The supply identity for every asset. */
  ghost predicate Identity(r: Run) {
    forall a :: Exact(r, a)
  }

  ghost predicate Covered(s: State) {
    forall a :: PotCovers(s, a)
  }

  /** The identity bounds what is in accounts by a u64 counter. */
  lemma IdentityBounds(r: Run, a: Hash)
    requires Identity(r)
    ensures 0 <= Holdings(After(r).carbon, a) <= Held(After(r), a) <= Total(After(r), a) <= U64_MAX
  {
    assert Exact(r, a);
    HeldNonNegative(After(r), a);
  }

  /** With an asset's units within its counter, a call moves both exactly unless it splits them. */
  lemma UnitsMoveExactly(s: State, c: Call, a: Hash)
    requires Linked(s) && Allowed(s, c)
    requires Held(s, a) <= Total(s, a) && Holdings(s.carbon, a) <= U64_MAX && PotCovers(s, a)
    ensures MovesExactly(s, c, a) <==> !(Splits(s, c) && a == s.issues[c.issueId].assetId)
  {
    match c
    case ApproveAsset(_, _) => ApproveAssetMoves(s, c, a);
    case ApproveIssue(_, _) => ApproveIssueMoves(s, c, a);
    case SubmitBurn(_, _, _, _) => SubmitBurnMoves(s, c, a);
    case ApproveBurn(_, _) => ApproveBurnMoves(s, c, a);
    case Transfer(_, _, _, _) => TransferMoves(s, c, a);
    case Neutralize(_, _, _) => NeutralizeMoves(s, c, a);
    case MakeOrder(_, _, _, _, _, _, _, _) => MakeOrderMoves(s, c, a);
    case TakeOrder(_, _, _, _) => TakeOrderMoves(s, c, a);
    case CancelOrder(_, _) => CancelOrderMoves(s, c, a);
    case _ => OtherCallMoves(s, c, a);
  }

  /** From a state where the identity holds, it survives a call unless the call splits. */
  lemma IdentityStep(past: Run, c: Call)
    requires Admissible(Then(past, c)) && Identity(past) && Covered(After(past))
    ensures Identity(Then(past, c)) <==> !Splits(After(past), c)
  {
    var s := After(past);
    LinkedAlways(past);
    forall a ensures Exact(Then(past, c), a) <==> MovesExactly(s, c, a) {
      assert Exact(past, a);
      AccountedThen(past, c, a);
    }
    forall a ensures MovesExactly(s, c, a) <==> !(Splits(s, c) && a == s.issues[c.issueId].assetId) {
      IdentityBounds(past, a);
      assert PotCovers(s, a);
      UnitsMoveExactly(s, c, a);
    }
    if Splits(s, c) {
      assert !Exact(Then(past, c), s.issues[c.issueId].assetId);
    }
  }

  // ---- carbon escrow ----

  /**
   * The call adds to the pot's balance past 2^64, and what the wrapped balance leaves is less than the
   * live ASK orders owe (always so when the call makes one).
   */
  ghost predicate Drains(s: State, c: Call) {
    && Step(s, c).outcome == Ok
    && ((c.MakeOrder? && c.direction == ASK) || (c.Transfer? && c.to == POT))
    && var pot := BalanceOf(s.carbon, c.assetId, POT);
       && U64_MAX < pot + c.amount
       && (c.Transfer? ==> pot + c.amount - U64_MAX - 1 < AskLeft(s.orders, c.assetId))
  }

  /** What the pot holds of `a` beyond what the live ASK orders owe. */
  ghost function Excess(s: State, a: Hash): int {
    BalanceOf(s.carbon, a, POT) - AskLeft(s.orders, a)
  }

  /** Units of `a` that somebody sends to the pot in this call, for no order. */
  function DonatedBy(s: State, c: Call, a: Hash): u64 {
    if c.Transfer? && c.to == POT && c.assetId == a && Step(s, c).outcome == Ok then c.amount else 0
  }

  /** The call adds to the pot's balance past 2^64. */
  predicate PotWraps(s: State, c: Call) {
    && Step(s, c).outcome == Ok
    && ((c.MakeOrder? && c.direction == ASK) || (c.Transfer? && c.to == POT))
    && U64_MAX < BalanceOf(s.carbon, c.assetId, POT) + c.amount
  }

  /** The call leaves the excess as it was but for what it donates, and for what a wrap takes away. */
  ghost predicate ExcessMoves(s: State, c: Call, a: Hash) {
    Excess(Step(s, c).state, a) ==
    Excess(s, a) + DonatedBy(s, c, a) - (if PotWraps(s, c) && c.assetId == a then U64_MAX + 1 else 0)
  }

  lemma TransferExcess(s: State, c: Call, a: Hash)
    requires Allowed(s, c) && c.Transfer?
    ensures ExcessMoves(s, c, a)
  {
    if Step(s, c).outcome == Ok {
      assert Step(s, c).state.orders == s.orders;
      if c.to == POT {
        assert BalanceOf(Step(s, c).state.carbon, c.assetId, POT) == Add(BalanceOf(s.carbon, c.assetId, POT), c.amount);
      } else {
        assert BalanceOf(Step(s, c).state.carbon, a, POT) == BalanceOf(s.carbon, a, POT);
      }
    }
  }

  /** Approvals pay owners, and the pot owns no project. */
  lemma ApprovalExcess(s: State, c: Call, a: Hash)
    requires Linked(s) && (c.ApproveAsset? || c.ApproveIssue? || c.ApproveBurn?)
    ensures ExcessMoves(s, c, a)
  {
    if Step(s, c).outcome == Ok {
      if c.ApproveAsset? {
        assert OwnerSound(s.projects, s.assets[c.assetId].projectId);
      } else if c.ApproveIssue? {
        assert OwnerSound(s.projects, s.assets[s.issues[c.issueId].assetId].projectId);
      }
    }
  }

  /** Burns and retirements debit their signer, who is not the pot. */
  lemma DebitExcess(s: State, c: Call, a: Hash)
    requires Allowed(s, c) && (c.SubmitBurn? || c.Neutralize? || c.OtherPallets?)
    ensures ExcessMoves(s, c, a)
  {
  }

  /** No other call of the registry takes anything from the pot, or gives it anything. */
  lemma RegistryCallsExcess(s: State, c: Call, a: Hash)
    requires Linked(s) && Allowed(s, c)
    requires !c.MakeOrder? && !c.TakeOrder? && !c.CancelOrder? && !c.Transfer?
    ensures ExcessMoves(s, c, a)
  {
    if c.SubmitProject? || c.ApproveProject? {
      ProjectCallEffect(s, c);
    } else if c.SubmitAsset? || c.SubmitIssue? {
      SubmissionEffect(s, c);
    } else if c.ApproveAsset? || c.ApproveIssue? || c.ApproveBurn? {
      ApprovalExcess(s, c, a);
    } else {
      DebitExcess(s, c, a);
    }
  }

  lemma MakeOrderExcess(s: State, c: Call, a: Hash)
    requires Allowed(s, c) && c.MakeOrder?
    ensures ExcessMoves(s, c, a)
  {
    MakeEffect(s, c);
    if Step(s, c).outcome == Ok {
      OrderTotalsInsert(s.orders, c.orderId, MadeOrder(c), a);
      if c.direction == ASK && a == c.assetId {
        assert BalanceOf(Step(s, c).state.carbon, a, POT) == Add(BalanceOf(s.carbon, a, POT), c.amount);
      }
    }
  }

  /** What a fill does to the two totals of the book. */
  lemma FillTotals(orders: Orders, id: Hash, o: Order, amount: u64, a: Hash)
    requires id in orders && amount <= o.leftAmount
    requires o == orders[id].(lockedBalance := o.lockedBalance)
    ensures var book := CX.BookAfterFill(orders, id, o, amount);
            && AskLeft(book, a) == AskLeft(orders, a)
                                   - (if o.direction == ASK && o.assetId == a then amount else 0)
            && Locked(book) == Locked(orders) - orders[id].lockedBalance
                               + (if amount < o.leftAmount then o.lockedBalance else 0)
  {
    if amount < o.leftAmount {
      OrderTotalsInsert(orders, id, o.(leftAmount := o.leftAmount - amount), a);
    } else {
      OrderTotalsRemove(orders, id, a);
    }
  }

  lemma FillMovesFromPot(b: Carbon, o: Order, taker: AccountId, amount: u64, a: Hash)
    requires o.maker != POT && taker != POT
    requires amount <= BalanceOf(b, o.assetId, Giver(o, taker))
    ensures BalanceOf(MakeTransfer(b, o.assetId, Giver(o, taker), Receiver(o, taker), amount), a, POT) ==
            BalanceOf(b, a, POT) - (if o.direction == ASK && o.assetId == a then amount else 0)
  {
  }

  lemma TakeOrderExcess(s: State, c: Call, a: Hash)
    requires Linked(s) && Allowed(s, c) && c.TakeOrder?
    ensures ExcessMoves(s, c, a)
  {
    assert OrderLinked(s.assets, s.orders, c.orderId);
    if Step(s, c).outcome == Ok {
      var o := s.orders[c.orderId];
      FillEffect(s, c);
      FillTotals(s.orders, c.orderId, Paid(o, SaturatingMul(c.amount, o.price)), c.amount, a);
      FillMovesFromPot(s.carbon, o, c.signer, c.amount, a);
    } else {
      FailedFillEffect(s, c);
    }
  }

  /** The cancel looks at no balance: what the order is still owed is within what the pot covers. */
  lemma CancelOrderExcess(s: State, c: Call, a: Hash)
    requires Linked(s) && Allowed(s, c) && c.CancelOrder? && PotCovers(s, a)
    ensures ExcessMoves(s, c, a)
  {
    CancelEffect(s, c);
    if Step(s, c).outcome == Ok {
      assert OrderLinked(s.assets, s.orders, c.orderId);
      OrderTotalsRemove(s.orders, c.orderId, a);
      OrderWithinTotals(s.orders, c.orderId, a);
    }
  }

  lemma ExcessStep(s: State, c: Call, a: Hash)
    requires Linked(s) && Allowed(s, c) && PotCovers(s, a)
    ensures ExcessMoves(s, c, a)
  {
    if c.MakeOrder? {
      MakeOrderExcess(s, c, a);
    } else if c.TakeOrder? {
      TakeOrderExcess(s, c, a);
    } else if c.CancelOrder? {
      CancelOrderExcess(s, c, a);
    } else if c.Transfer? {
      TransferExcess(s, c, a);
    } else {
      RegistryCallsExcess(s, c, a);
    }
  }

  lemma AskLeftNonNegative(orders: Orders, a: Hash)
    ensures AskLeft(orders, a) >= 0
  {
    SumByNonNegative(orders, AskLeftOf(a));
  }

  /** From a state where the pot covers every asset, it still does after a call unless the call drains it. */
  lemma CoverStep(s: State, c: Call)
    requires Linked(s) && Allowed(s, c) && Covered(s)
    ensures Covered(Step(s, c).state) <==> !Drains(s, c)
  {
    forall a ensures PotCovers(Step(s, c).state, a) <==> !(Drains(s, c) && a == c.assetId) {
      assert PotCovers(s, a);
      ExcessStep(s, c, a);
      AskLeftNonNegative(s.orders, a);
    }
    if Drains(s, c) {
      assert !PotCovers(Step(s, c).state, c.assetId);
    }
  }

  /** While an asset's units fit in a u64, so does anything added to the pot. */
  lemma NothingDrains(s: State, c: Call)
    requires Allowed(s, c)
    requires forall a :: Holdings(s.carbon, a) <= U64_MAX
    ensures !Drains(s, c) && !PotWraps(s, c)
  {
    if c.MakeOrder? || c.Transfer? {
      BalancesWithinHoldings(s.carbon, c.assetId, c.signer, POT);
    }
  }

  // ---- whole runs ----

  /** No approval in the run splits. */
  ghost predicate NeverSplits(r: Run) {
    r.Then? ==> NeverSplits(r.past) && !Splits(After(r.past), r.call)
  }

  /** The identity holds after every call of the run. */
  ghost predicate AlwaysIdentity(r: Run) {
    Identity(r) && (r.Then? ==> AlwaysIdentity(r.past))
  }

  /** No call in the run drains the pot. */
  ghost predicate NeverDrains(r: Run) {
    r.Then? ==> NeverDrains(r.past) && !Drains(After(r.past), r.call)
  }

  /** No call in the run wraps the pot's balance. */
  ghost predicate PotNeverWraps(r: Run) {
    r.Then? ==> PotNeverWraps(r.past) && !PotWraps(After(r.past), r.call)
  }

  /** The pot covers every asset after every call of the run. */
  ghost predicate AlwaysCovered(r: Run) {
    Covered(After(r)) && (r.Then? ==> AlwaysCovered(r.past))
  }

  lemma {:induction false} NoSplitKeepsBooks(r: Run)
    requires Admissible(r) && NeverSplits(r)
    ensures AlwaysIdentity(r) && NeverDrains(r) && PotNeverWraps(r) && Covered(After(r))
  {
    match r
    case Genesis(_) =>
      forall a ensures Exact(r, a) {}
      forall a ensures PotCovers(After(r), a) {}
    case Then(past, c) =>
      NoSplitKeepsBooks(past);
      IdentityStep(past, c);
      LinkedAlways(past);
      forall a ensures Holdings(After(past).carbon, a) <= U64_MAX {
        IdentityBounds(past, a);
      }
      NothingDrains(After(past), c);
      CoverStep(After(past), c);
  }

  /**
   * Exactly when the supply identity holds all along: `total_supply` equals balances, pending burns,
   * retired units and overwritten burns after every call, for every asset, if and only if no approved
   * issue took the counter past 2^64 while the owner's balance stayed below it.
   */
  lemma {:induction false} SupplyIdentityIff(r: Run)
    requires Admissible(r)
    ensures AlwaysIdentity(r) <==> NeverSplits(r)
  {
    if AlwaysIdentity(r) && r.Then? {
      SupplyIdentityIff(r.past);
      NoSplitKeepsBooks(r.past);
      IdentityStep(r.past, r.call);
    }
    if NeverSplits(r) {
      NoSplitKeepsBooks(r);
    }
  }

  // ---- when nothing is lost ----

  /** The submitted burn takes the id, and the place, of a pending burn of some units. */
  predicate Overwrites(s: State, c: Call) {
    && c.SubmitBurn?
    && Step(s, c).outcome == Ok
    && c.burnId in s.burns
    && s.burns[c.burnId].status == Submitted
    && s.burns[c.burnId].amount > 0
  }

  ghost predicate NeverOverwrites(r: Run) {
    r.Then? ==> NeverOverwrites(r.past) && !Overwrites(After(r.past), r.call)
  }

  /** Every unit the counter counts is in an account, in a pending burn, or retired. */
  ghost predicate Whole(r: Run, a: Hash) {
    Total(After(r), a) == Held(After(r), a) + Retired(r, a)
  }

  ghost predicate NothingMissing(r: Run) {
    forall a :: Whole(r, a)
  }

  ghost predicate AlwaysWhole(r: Run) {
    NothingMissing(r) && (r.Then? ==> AlwaysWhole(r.past))
  }

  lemma {:induction false} NothingLost(r: Run, a: Hash)
    requires NeverOverwrites(r)
    ensures Lost(r, a) == 0
  {
    if r.Then? {
      NothingLost(r.past, a);
    }
  }

  lemma WholeStep(past: Run, c: Call)
    requires Admissible(Then(past, c)) && NeverSplits(past) && NeverOverwrites(past)
    ensures NothingMissing(Then(past, c)) <==> !Splits(After(past), c) && !Overwrites(After(past), c)
  {
    var s, r := After(past), Then(past, c);
    NoSplitKeepsBooks(past);
    IdentityStep(past, c);
    forall a ensures Lost(r, a) == LostBy(s, c, a) {
      NothingLost(past, a);
    }
    if Splits(s, c) {
      var a :| !Exact(r, a);
      assert !Whole(r, a);
    } else {
      forall a ensures Whole(r, a) <==> LostBy(s, c, a) == 0 {
        assert Exact(r, a) && Lost(r, a) == LostBy(s, c, a);
      }
      if Overwrites(s, c) {
        assert !Whole(r, s.burns[c.burnId].assetId);
      }
    }
  }

  /**
   * Exactly when no unit goes missing: `total_supply` equals balances, pending burns and retired units
   * after every call, for every asset, if and only if no approved issue splits and no burn was submitted
   * under the id of a pending burn of some units.
   */
  lemma {:induction false} NothingMissingIff(r: Run)
    requires Admissible(r)
    ensures AlwaysWhole(r) <==> NeverSplits(r) && NeverOverwrites(r)
  {
    match r
    case Genesis(_) =>
      forall a ensures Whole(r, a) {}
    case Then(past, c) =>
      NothingMissingIff(past);
      if AlwaysWhole(past) {
        WholeStep(past, c);
      }
  }

  /**
   * Carbon escrow solvency: after every call the pot holds, of every asset, at least what the live ASK
   * orders still owe, if and only if nothing added to the pot drained it by wrapping its balance.
   */
  lemma {:induction false} CarbonEscrowIff(r: Run)
    requires Admissible(r)
    ensures AlwaysCovered(r) <==> NeverDrains(r)
  {
    match r
    case Genesis(_) =>
      forall a ensures PotCovers(After(r), a) {}
    case Then(past, c) =>
      CarbonEscrowIff(past);
      if AlwaysCovered(past) {
        LinkedAlways(past);
        CoverStep(After(past), c);
      }
  }

  /** In particular it does as long as no approved issue splits, whatever is sent to the pot. */
  lemma CarbonEscrowSolvent(r: Run, a: Hash)
    requires Admissible(r) && NeverSplits(r)
    ensures AskLeft(After(r).orders, a) <= BalanceOf(After(r).carbon, a, POT)
  {
    NoSplitKeepsBooks(r);
    assert PotCovers(After(r), a);
  }

  // ---- the escrow as an equation ----

  /** Units of `a` ever sent to the pot for no order. */
  function Donated(r: Run, a: Hash): nat {
    match r
    case Genesis(_) => 0
    case Then(past, c) => Donated(past, a) + DonatedBy(After(past), c, a)
  }

  /** The pot holds what the live ASK orders owe, what was donated, and nothing else. */
  ghost predicate EscrowExact(r: Run, a: Hash) {
    BalanceOf(After(r).carbon, a, POT) == AskLeft(After(r).orders, a) + Donated(r, a)
  }

  ghost predicate EscrowsExact(r: Run) {
    forall a :: EscrowExact(r, a)
  }

  ghost predicate AlwaysEscrowExact(r: Run) {
    EscrowsExact(r) && (r.Then? ==> AlwaysEscrowExact(r.past))
  }

  lemma EscrowStep(past: Run, c: Call)
    requires Admissible(Then(past, c)) && EscrowsExact(past)
    ensures EscrowsExact(Then(past, c)) <==> !PotWraps(After(past), c)
  {
    var s := After(past);
    LinkedAlways(past);
    forall a ensures EscrowExact(Then(past, c), a) <==> !(PotWraps(s, c) && a == c.assetId) {
      assert EscrowExact(past, a) && PotCovers(s, a);
      ExcessStep(s, c, a);
    }
    if PotWraps(s, c) {
      assert !EscrowExact(Then(past, c), c.assetId);
    }
  }

  /**
   * To the unit: after every call the pot holds, of every asset, what the live ASK orders owe and what
   * was sent to it for no order, if and only if nothing added to the pot wrapped its balance. No unit of
   * any order is stranded there.
   */
  lemma {:induction false} CarbonEscrowExactIff(r: Run)
    requires Admissible(r)
    ensures AlwaysEscrowExact(r) <==> PotNeverWraps(r)
  {
    match r
    case Genesis(_) =>
      forall a ensures EscrowExact(r, a) {}
    case Then(past, c) =>
      CarbonEscrowExactIff(past);
      if AlwaysEscrowExact(past) {
        EscrowStep(past, c);
      }
  }

  /** In particular it does in every run in which no approved issue splits. */
  lemma CarbonEscrowToTheUnit(r: Run, a: Hash)
    requires Admissible(r) && NeverSplits(r)
    ensures BalanceOf(After(r).carbon, a, POT) == AskLeft(After(r).orders, a) + Donated(r, a)
  {
    NoSplitKeepsBooks(r);
    CarbonEscrowExactIff(r);
    assert EscrowExact(r, a);
  }

  lemma PotAssetErrorMeans(s: State, c: Call)
    requires Step(s, c).outcome == Err(InsuffientPotAsset)
    ensures c.TakeOrder? && c.orderId in s.orders
    ensures var o := s.orders[c.orderId];
            && o.direction == ASK && c.amount <= o.leftAmount
            && BalanceOf(s.carbon, o.assetId, POT) < c.amount
  {
  }

  /** So the exchange's own check of the pot never fails. */
  lemma PotAssetNeverInsufficient(r: Run, c: Call)
    requires Admissible(r) && NeverDrains(r)
    ensures Step(After(r), c).outcome != Err(InsuffientPotAsset)
  {
    if Step(After(r), c).outcome == Err(InsuffientPotAsset) {
      PotAssetErrorMeans(After(r), c);
      var a := After(r).orders[c.orderId].assetId;
      CarbonEscrowIff(r);
      assert PotCovers(After(r), a);
      OrderWithinTotals(After(r).orders, c.orderId, a);
    }
  }
}
