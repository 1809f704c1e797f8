/** Where supply comes from, and which unchecked u64 operations can leave their range. */
module Issuance {
  import opened U64
  import opened Sums
  import opened Ledger
  import opened Runs
  import opened Effects
  import opened Integrity
  import opened Supply

  ghost function IssuedOf(a: Hash): (Hash, IssueInfo) -> int {
    (id: Hash, i: IssueInfo) => if i.assetId == a && i.status == Approved then i.amount else 0
  }

  /** Units that the approved entries of `Issues` say were issued of `a`. */
  ghost function Issued(s: State, a: Hash): int {
    SumBy(s.issues, IssuedOf(a))
  }

  function Initial(s: State, a: Hash): u64 {
    if a in s.assets && s.assets[a].status == Approved then s.assets[a].initialSupply else 0
  }

  function BurntBy(s: State, c: Call, a: Hash): u64 {
    if c.ApproveBurn? && Step(s, c).outcome == Ok && s.burns[c.burnId].assetId == a
    then s.burns[c.burnId].amount else 0
  }

  /** Units of `a` whose burn was approved. `Burns` cannot tell: its entries can be overwritten. */
  function Burnt(r: Run, a: Hash): nat {
    match r
    case Genesis(_) => 0
    case Then(past, c) => Burnt(past, a) + BurntBy(After(past), c, a)
  }

  /** An approved issue takes the asset's counter past 2^64. */
  predicate Overflows(s: State, c: Call) {
    && c.ApproveIssue?
    && Step(s, c).outcome == Ok
    && U64_MAX < Total(s, s.issues[c.issueId].assetId) + s.issues[c.issueId].amount
  }

  ghost predicate NeverOverflows(r: Run) {
    r.Then? ==> NeverOverflows(r.past) && !Overflows(After(r.past), r.call)
  }

  ghost function Source(s: State, a: Hash): int {
    Initial(s, a) + Issued(s, a)
  }

  lemma IssueEffect(s: State, c: Call, a: Hash)
    requires c.ApproveIssue? && Step(s, c).outcome == Ok
    ensures var s', issue := Step(s, c).state, s.issues[c.issueId];
            && Total(s', a) == (if a == issue.assetId then Add(Total(s, a), issue.amount) else Total(s, a))
            && Source(s', a) == Source(s, a) + (if a == issue.assetId then issue.amount else 0)
  {
    SumByInsert(s.issues, IssuedOf(a), c.issueId, s.issues[c.issueId].(status := Approved));
  }

  lemma SourceMovesOnIssue(s: State, c: Call, a: Hash)
    requires c.ApproveIssue?
    ensures var s' := Step(s, c).state;
            && Congruent(Source(s', a) - Source(s, a), Total(s', a) - Total(s, a))
            && (Source(s', a) - Source(s, a) == Total(s', a) - Total(s, a) <==>
                !(Overflows(s, c) && a == s.issues[c.issueId].assetId))
  {
    if Step(s, c).outcome == Ok {
      IssueEffect(s, c, a);
      WrapCongruent(Total(s, a), s.issues[c.issueId].amount);
    } else {
      FailedIssueStays(s, c);
    }
  }

  lemma SourceMovesOnBurn(s: State, c: Call, a: Hash)
    requires c.ApproveBurn?
    ensures var s' := Step(s, c).state;
            && Congruent(Source(s', a) - Source(s, a) - BurntBy(s, c, a), Total(s', a) - Total(s, a))
            && (Held(s, a) <= Total(s, a) ==>
                  Source(s', a) - Source(s, a) - BurntBy(s, c, a) == Total(s', a) - Total(s, a))
  {
    if Step(s, c).outcome == Ok {
      var burn := s.burns[c.burnId];
      WrapCongruent(Total(s, burn.assetId), burn.amount);
      SumByBoundsOne(s.burns, PendingOf(a), c.burnId);
      HeldNonNegative(s, a);
    }
  }

  lemma SourceMovesOnApproval(s: State, c: Call, a: Hash)
    requires Linked(s) && c.ApproveAsset?
    ensures var s' := Step(s, c).state;
            Source(s', a) - Source(s, a) == Total(s', a) - Total(s, a)
  {
    assert AssetLinked(s.projects, s.assets, c.assetId);
  }

  /** What is not yet approved counts for nothing. */
  lemma SubmissionStill(s: State, c: Call, a: Hash)
    requires c.SubmitAsset? || c.SubmitIssue?
    ensures Source(Step(s, c).state, a) == Source(s, a) && Total(Step(s, c).state, a) == Total(s, a)
  {
    SubmissionEffect(s, c);
    if c.SubmitIssue? {
      SumByInsert(s.issues, IssuedOf(a), c.issueId, IssueInfo(c.assetId, c.amount, Submitted));
    }
  }

  lemma SourceOtherwiseStill(s: State, c: Call, a: Hash)
    requires !c.ApproveIssue? && !c.ApproveBurn? && !c.ApproveAsset?
    ensures var s' := Step(s, c).state;
            && Source(s', a) == Source(s, a) && Total(s', a) == Total(s, a) && BurntBy(s, c, a) == 0
  {
    if c.MakeOrder? || c.TakeOrder? || c.CancelOrder? {
      ExchangeLeavesRegistry(s, c);
    } else if c.SubmitAsset? || c.SubmitIssue? {
      SubmissionStill(s, c, a);
    } else if c.SubmitProject? || c.ApproveProject? {
      ProjectCallEffect(s, c);
    } else {
      BalanceCallEffect(s, c);
    }
  }

  /**
   * Modulo 2^64 and over every run: an asset's counter is its initial supply, plus its approved
   * issues, less its approved burns.
   */
  lemma {:induction false} IssuanceModular(r: Run, a: Hash)
    requires Admissible(r)
    ensures Congruent(Source(After(r), a) - Burnt(r, a), Total(After(r), a))
  {
    match r
    case Genesis(_) =>
    case Then(past, c) =>
      var s, s' := After(past), After(r);
      IssuanceModular(past, a);
      LinkedAlways(past);
      assert Congruent(Source(s', a) - Source(s, a) - BurntBy(s, c, a), Total(s', a) - Total(s, a)) by {
        if c.ApproveIssue? {
          SourceMovesOnIssue(s, c, a);
        } else if c.ApproveBurn? {
          SourceMovesOnBurn(s, c, a);
        } else if c.ApproveAsset? {
          SourceMovesOnApproval(s, c, a);
        } else {
          SourceOtherwiseStill(s, c, a);
        }
      }
      CongruentAdd(Source(s, a) - Burnt(past, a), Total(s, a),
                   Source(s', a) - Source(s, a) - BurntBy(s, c, a), Total(s', a) - Total(s, a));
  }

  ghost predicate IssuanceExact(r: Run, a: Hash) {
    Total(After(r), a) == Source(After(r), a) - Burnt(r, a)
  }

  /** The equation holds for every asset after every call of the run. */
  ghost predicate AlwaysIssuanceExact(r: Run) {
    (forall a :: IssuanceExact(r, a)) && (r.Then? ==> AlwaysIssuanceExact(r.past))
  }

  lemma {:induction false} NoOverflowNoSplit(r: Run)
    requires NeverOverflows(r)
    ensures NeverSplits(r)
  {
    if r.Then? {
      NoOverflowNoSplit(r.past);
    }
  }

  lemma IssuanceStep(past: Run, c: Call)
    requires Admissible(Then(past, c)) && NeverOverflows(past)
    requires forall a :: IssuanceExact(past, a)
    ensures (forall a :: IssuanceExact(Then(past, c), a)) <==> !Overflows(After(past), c)
  {
    var s, r := After(past), Then(past, c);
    LinkedAlways(past);
    NoOverflowNoSplit(past);
    NoSplitKeepsBooks(past);
    forall a ensures IssuanceExact(r, a) <==> !(Overflows(s, c) && a == s.issues[c.issueId].assetId) {
      assert IssuanceExact(past, a);
      IdentityBounds(past, a);
      if c.ApproveIssue? {
        SourceMovesOnIssue(s, c, a);
      } else if c.ApproveBurn? {
        SourceMovesOnBurn(s, c, a);
      } else if c.ApproveAsset? {
        SourceMovesOnApproval(s, c, a);
      } else {
        SourceOtherwiseStill(s, c, a);
      }
    }
    if Overflows(s, c) {
      assert !IssuanceExact(r, s.issues[c.issueId].assetId);
    }
  }

  /**
   * Exactly-once issuance: as integers, `total_supply` is the initial supply plus every approved issue
   * counted once, less every approved burn, after every call if and only if no approved issue
   * overflows the counter.
   */
  lemma {:induction false} IssuanceExactIff(r: Run)
    requires Admissible(r)
    ensures AlwaysIssuanceExact(r) <==> NeverOverflows(r)
  {
    match r
    case Genesis(_) =>
      forall a ensures IssuanceExact(r, a) {}
    case Then(past, c) =>
      IssuanceExactIff(past);
      if NeverOverflows(past) {
        IssuanceStep(past, c);
      }
  }

  // ---- unchecked arithmetic ----

  predicate MoveInRange(b: Carbon, a: Hash, from: AccountId, to: AccountId, amount: u64) {
    from != to ==> amount <= BalanceOf(b, a, from) && BalanceOf(b, a, to) + amount <= U64_MAX
  }

  /**
   * The unchecked operations of burns, retirements and moves of carbon stay in u64: the `-=` on a balance in
   * `submit_burn` and `neutralize`, the `-=` on an asset's counter in `approve_burn`, and both operations
   * of `make_transfer`. (`ApprovalInRange` and `FillCovered` are about the others.)
   */
  ghost predicate CarbonInRange(s: State, c: Call) {
    match c
    case SubmitBurn(signer, assetId, amount, _) =>
      Step(s, c).outcome == Ok ==> amount <= BalanceOf(s.carbon, assetId, signer)
    case ApproveBurn(_, burnId) =>
      Step(s, c).outcome == Ok ==> s.burns[burnId].amount <= Total(s, s.burns[burnId].assetId)
    case Neutralize(signer, assetId, amount) =>
      Step(s, c).outcome == Ok ==> amount <= BalanceOf(s.carbon, assetId, signer)
    case Transfer(signer, assetId, to, amount) =>
      Step(s, c).outcome == Ok ==> MoveInRange(s.carbon, assetId, signer, to, amount)
    case MakeOrder(signer, assetId, _, _, amount, direction, _, _) =>
      Step(s, c).outcome == Ok && direction == ASK ==> MoveInRange(s.carbon, assetId, signer, POT, amount)
    case TakeOrder(signer, orderId, amount, _) =>
      (Step(s, c).outcome == Ok || Step(s, c).state.carbon != s.carbon) ==>
        var o := s.orders[orderId];
        && amount <= o.leftAmount
        && (o.direction == ASK ==> MoveInRange(s.carbon, o.assetId, POT, signer, amount))
        && (o.direction == BID ==> MoveInRange(s.carbon, o.assetId, signer, o.maker, amount))
    case CancelOrder(signer, orderId) =>
      Step(s, c).outcome == Ok && s.orders[orderId].direction == ASK ==>
        MoveInRange(s.carbon, s.orders[orderId].assetId, POT, signer, s.orders[orderId].leftAmount)
    case _ => true
  }

  /** What keeps the unchecked operations safe: units within their counters, and the pot covering the book. */
  ghost predicate Bounded(s: State) {
    Covered(s) && forall a :: Held(s, a) <= Total(s, a)
  }

  lemma HeldMoveInRange(s: State, a: Hash, from: AccountId, to: AccountId, amount: u64)
    requires Bounded(s) && amount <= BalanceOf(s.carbon, a, from)
    ensures MoveInRange(s.carbon, a, from, to, amount)
  {
    if from != to {
      assert Held(s, a) <= Total(s, a);
      HeldNonNegative(s, a);
      BalancesWithinHoldings(s.carbon, a, from, to);
    }
  }

  /** A burn that is pending is part of what its asset's counter counts. */
  lemma PendingWithinTotal(s: State, id: Hash)
    requires Bounded(s) && id in s.burns && s.burns[id].status == Submitted
    ensures s.burns[id].amount <= Total(s, s.burns[id].assetId)
  {
    var a := s.burns[id].assetId;
    assert Held(s, a) <= Total(s, a);
    SumByBoundsOne(s.burns, PendingOf(a), id);
    HeldNonNegative(s, a);
  }

  lemma OrderArithmeticInRange(s: State, c: Call)
    requires Linked(s) && Bounded(s)
    requires c.TakeOrder? || c.CancelOrder?
    ensures CarbonInRange(s, c)
  {
    if c.orderId in s.orders {
      var o := s.orders[c.orderId];
      if c.TakeOrder? {
        if o.direction == ASK && c.amount <= BalanceOf(s.carbon, o.assetId, POT) {
          HeldMoveInRange(s, o.assetId, POT, c.signer, c.amount);
        }
        if o.direction == BID && c.amount <= BalanceOf(s.carbon, o.assetId, c.signer) {
          HeldMoveInRange(s, o.assetId, c.signer, o.maker, c.amount);
        }
      } else if o.direction == ASK {
        assert PotCovers(s, o.assetId);
        OrderWithinTotals(s.orders, c.orderId, o.assetId);
        HeldMoveInRange(s, o.assetId, POT, c.signer, o.leftAmount);
      }
    }
  }

  /** In a bounded state none of these wraps. */
  lemma BoundedInRange(s: State, c: Call)
    requires Linked(s) && Bounded(s)
    ensures CarbonInRange(s, c)
  {
    match c
    case ApproveBurn(_, burnId) =>
      if burnId in s.burns && s.burns[burnId].status == Submitted {
        PendingWithinTotal(s, burnId);
      }
    case Transfer(signer, assetId, to, amount) =>
      if amount <= BalanceOf(s.carbon, assetId, signer) {
        HeldMoveInRange(s, assetId, signer, to, amount);
      }
    case MakeOrder(signer, assetId, _, _, amount, _, _, _) =>
      if amount <= BalanceOf(s.carbon, assetId, signer) {
        HeldMoveInRange(s, assetId, signer, POT, amount);
      }
    case TakeOrder(_, _, _, _) => OrderArithmeticInRange(s, c);
    case CancelOrder(_, _) => OrderArithmeticInRange(s, c);
    case _ =>
  }

  /** Nor after any run in which no approved issue splits. */
  lemma CarbonArithmeticInRange(r: Run, c: Call)
    requires Admissible(r) && NeverSplits(r)
    ensures Bounded(After(r)) && CarbonInRange(After(r), c)
  {
    NoSplitKeepsBooks(r);
    LinkedAlways(r);
    forall a ensures Held(After(r), a) <= Total(After(r), a) {
      IdentityBounds(r, a);
    }
    BoundedInRange(After(r), c);
  }
}
