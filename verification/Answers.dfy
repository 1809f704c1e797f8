/**
 * What each call answers: its tests in order, each with the error it gives. The tests are about the
 * stored records and amounts as integers, whatever the call then writes.
 */
module Answers {
  import opened U64
  import opened Ledger
  import opened NativeBalances
  import opened Runs

  /** The wrapped sum is within the cap: the integer sum is, or it is past 2^64 and its remainder is. */
  predicate Fits(p: Project, amount: u64) {
    var sum := amount + p.totalSupply;
    sum <= p.maxSupply || U64_MAX < sum <= p.maxSupply + U64_MAX + 1
  }

  predicate IsApproved(s: State, a: Hash) {
    a in s.assets && s.assets[a].status == Approved
  }

  predicate HasParent(s: State, a: Hash) {
    a in s.assets && s.assets[a].projectId in s.projects
  }

  /** The signer owns the project of the asset. */
  predicate Owns(s: State, a: Hash, who: AccountId) {
    HasParent(s, a) && s.projects[s.assets[a].projectId].owner == who
  }

  predicate FitsParent(s: State, a: Hash, amount: u64) {
    HasParent(s, a) && Fits(s.projects[s.assets[a].projectId], amount)
  }

  /** A payment is tested for funds, range, an account to receive it, and locks, unless it moves nothing. */
  function PaymentAnswer(m: Accounts, from: AccountId, to: AccountId, value: u64, restricted: bool): Outcome {
    var nothing := value == 0 || from == to;
    Ok.Ensure(nothing || value <= Free(m, from), InsufficientBalance)
      .Ensure(nothing || Free(m, to) + value <= U128_MAX, Overflow)
      .Ensure(nothing || 500 <= Free(m, to) + value, ExistentialDeposit)
      .Ensure(nothing || !restricted, LiquidityRestrictions)
  }

  function Clipped(amount: u64, price: u64): u64 {
    if U64_MAX < amount * price then U64_MAX else
      assert 0 <= amount * price;
      amount * price
  }

  function RegistryAnswer(s: State, c: Call): Outcome {
    match c
    case SubmitProject(_, id, _) =>
      Ok.Ensure(id !in s.projects, DuplicatedKey)
    case ApproveProject(authorized, id) =>
      Ok.Ensure(authorized, BadOrigin)
        .Ensure(id in s.projects, InvalidIndex)
        .Ensure(id in s.projects && s.projects[id].status == Submitted, AlreadyApproved)
    case SubmitAsset(signer, p, initialSupply, id) =>
      Ok.Ensure(p in s.projects, InvalidIndex)
        .Ensure(p in s.projects && s.projects[p].status == Approved, ProjectNotApproved)
        .Ensure(p in s.projects && s.projects[p].owner == signer, PermissionDenied)
        .Ensure(p in s.projects && Fits(s.projects[p], initialSupply), OverIssueLimit)
        .Ensure(id !in s.assets, DuplicatedKey)
    case ApproveAsset(authorized, a) =>
      Ok.Ensure(authorized, BadOrigin)
        .Ensure(a in s.assets, InvalidIndex)
        .Ensure(a in s.assets && s.assets[a].status == Submitted, AlreadyApproved)
        .Ensure(HasParent(s, a), InvalidIndex)
        .Ensure(a in s.assets && FitsParent(s, a, s.assets[a].initialSupply), OverIssueLimit)
    case SubmitIssue(signer, a, amount, id) =>
      Ok.Ensure(a in s.assets, InvalidIndex)
        .Ensure(IsApproved(s, a), AssetNotApproved)
        .Ensure(HasParent(s, a), InvalidIndex)
        .Ensure(Owns(s, a, signer), PermissionDenied)
        .Ensure(FitsParent(s, a, amount), OverIssueLimit)
        .Ensure(id !in s.issues, DuplicatedKey)
    case ApproveIssue(authorized, id) =>
      Ok.Ensure(authorized, BadOrigin)
        .Ensure(id in s.issues, InvalidIndex)
        .Ensure(id in s.issues && s.issues[id].status == Submitted, AlreadyApproved)
        .Ensure(id in s.issues && HasParent(s, s.issues[id].assetId), InvalidIndex)
        .Ensure(id in s.issues && FitsParent(s, s.issues[id].assetId, s.issues[id].amount), OverIssueLimit)
    case SubmitBurn(signer, a, amount, id) =>
      Ok.Ensure(a in s.assets, InvalidIndex)
        .Ensure(IsApproved(s, a), AssetNotApproved)
        .Ensure(HasParent(s, a), InvalidIndex)
        .Ensure(Owns(s, a, signer), PermissionDenied)
        .Ensure(id !in s.projects, DuplicatedKey)
        .Ensure(amount <= BalanceOf(s.carbon, a, signer), BalanceLow)
    case ApproveBurn(authorized, id) =>
      Ok.Ensure(authorized, BadOrigin)
        .Ensure(id in s.burns, InvalidIndex)
        .Ensure(id in s.burns && s.burns[id].status == Submitted, AlreadyApproved)
        .Ensure(id in s.burns && HasParent(s, s.burns[id].assetId), InvalidIndex)
    case Transfer(signer, a, _, amount) =>
      Ok.Ensure(0 < amount, AmountZero).Ensure(amount <= BalanceOf(s.carbon, a, signer), BalanceLow)
    case Neutralize(signer, a, amount) =>
      Ok.Ensure(0 < amount, AmountZero).Ensure(amount <= BalanceOf(s.carbon, a, signer), BalanceLow)
    case _ => Ok
  }

  /** Direction 0 sells carbon, direction 1 buys it. */
  function ExchangeAnswer(s: State, c: Call): Outcome {
    match c
    case MakeOrder(signer, a, money, price, amount, direction, id, restricted) =>
      var tested := Ok.Ensure(money == NATIVE_MONEY, InvalidMoneyID)
                      .Ensure(0 < price, PriceZero)
                      .Ensure(0 < amount, AmountZero)
                      .Ensure(IsApproved(s, a), AssetNotExist)
                      .Ensure(id !in s.orders, DuplicatedKey);
      if tested != Ok then tested
      else if direction == 0 then Ok.Ensure(amount <= BalanceOf(s.carbon, a, signer), InsuffientAsset)
      else if direction == 1 then PaymentAnswer(s.native, signer, POT, Clipped(amount, price), restricted)
      else Err(InvalidDirection)
    case TakeOrder(signer, id, amount, restricted) =>
      var tested := Ok.Ensure(id in s.orders, InvalidIndex)
                      .Ensure(id in s.orders && amount <= s.orders[id].leftAmount, AmountHigh);
      if tested != Ok then tested else
        var o := s.orders[id];
        var money := Clipped(amount, o.price);
        if o.direction == 0 then
          if BalanceOf(s.carbon, o.assetId, POT) < amount then Err(InsuffientPotAsset)
          else PaymentAnswer(s.native, signer, o.maker, money, restricted)
        else
          if BalanceOf(s.carbon, o.assetId, signer) < amount then Err(InsuffientAsset)
          else PaymentAnswer(s.native, POT, signer, money, false)
    case CancelOrder(signer, id) =>
      var tested := Ok.Ensure(id in s.orders, InvalidIndex)
                      .Ensure(id in s.orders && s.orders[id].maker == signer, PermissionDenied);
      if tested != Ok then tested
      else if s.orders[id].direction == 0 then Ok
      else PaymentAnswer(s.native, POT, signer, s.orders[id].lockedBalance, false)
    case _ => Ok
  }

  predicate OfExchange(c: Call) {
    c.MakeOrder? || c.TakeOrder? || c.CancelOrder?
  }

  /** What the call answers, and in particular exactly when it succeeds. */
  function Answer(s: State, c: Call): Outcome {
    if OfExchange(c) then ExchangeAnswer(s, c) else RegistryAnswer(s, c)
  }

  lemma SubmissionAnswers(s: State, c: Call)
    requires c.SubmitProject? || c.SubmitAsset? || c.SubmitIssue? || c.SubmitBurn?
    ensures Step(s, c).outcome == RegistryAnswer(s, c)
  {
    if c.SubmitAsset? {
    } else if c.SubmitIssue? {
    } else {
    }
  }

  lemma ApprovalAnswers(s: State, c: Call)
    requires c.ApproveProject? || c.ApproveAsset? || c.ApproveIssue? || c.ApproveBurn?
    ensures Step(s, c).outcome == RegistryAnswer(s, c)
  {
    if c.ApproveAsset? {
    } else if c.ApproveIssue? {
    } else {
    }
  }

  lemma UnitAnswers(s: State, c: Call)
    requires c.Transfer? || c.Neutralize? || c.OtherPallets?
    ensures Step(s, c).outcome == RegistryAnswer(s, c)
  {
  }

  lemma PaymentAnswers(m: Accounts, from: AccountId, to: AccountId, value: u64, restricted: bool)
    ensures match MakePayment(m, from, to, value, restricted)
            case Moved(_) => PaymentAnswer(m, from, to, value, restricted) == Ok
            case Refused(e) => PaymentAnswer(m, from, to, value, restricted) == Err(e)
  {
  }

  lemma MakeAnswers(s: State, c: Call)
    requires c.MakeOrder?
    ensures Step(s, c).outcome == ExchangeAnswer(s, c)
  {
    PaymentAnswers(s.native, c.signer, POT, Clipped(c.amount, c.price), c.restricted);
  }

  lemma TakeAnswers(s: State, c: Call)
    requires c.TakeOrder?
    ensures Step(s, c).outcome == ExchangeAnswer(s, c)
  {
    if c.orderId in s.orders {
      var o := s.orders[c.orderId];
      PaymentAnswers(s.native, c.signer, o.maker, Clipped(c.amount, o.price), c.restricted);
      PaymentAnswers(s.native, POT, c.signer, Clipped(c.amount, o.price), false);
    }
  }

  lemma CancelAnswers(s: State, c: Call)
    requires c.CancelOrder?
    ensures Step(s, c).outcome == ExchangeAnswer(s, c)
  {
    if c.orderId in s.orders {
      PaymentAnswers(s.native, POT, c.signer, s.orders[c.orderId].lockedBalance, false);
    }
  }

  /**
   * Every call answers what its first failing test says, and succeeds if and only if all its tests hold,
   * in any state.
   */
  lemma CallsAnswer(s: State, c: Call)
    ensures Step(s, c).outcome == Answer(s, c)
  {
    match c
    case MakeOrder(_, _, _, _, _, _, _, _) => MakeAnswers(s, c);
    case TakeOrder(_, _, _, _) => TakeAnswers(s, c);
    case CancelOrder(_, _) => CancelAnswers(s, c);
    case SubmitProject(_, _, _) => SubmissionAnswers(s, c);
    case SubmitAsset(_, _, _, _) => SubmissionAnswers(s, c);
    case SubmitIssue(_, _, _, _) => SubmissionAnswers(s, c);
    case SubmitBurn(_, _, _, _) => SubmissionAnswers(s, c);
    case ApproveProject(_, _) => ApprovalAnswers(s, c);
    case ApproveAsset(_, _) => ApprovalAnswers(s, c);
    case ApproveIssue(_, _) => ApprovalAnswers(s, c);
    case ApproveBurn(_, _) => ApprovalAnswers(s, c);
    case _ => UnitAnswers(s, c);
  }
}
