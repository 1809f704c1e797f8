/**
 * The pallets' storage as an object that the calls update in place, write by write in the order of the
 * source. Each method is proved to leave exactly what the call's specification says, failed calls
 * included, so that everything proved about runs holds of this object.
 */
module ChainStorage {
  import opened U64
  import opened Ledger
  import opened NativeBalances
  import CA = CarbonAssets
  import CX = CarbonExchange
  import opened Runs
  import opened Supply
  import opened NativeEscrow

  class Chain {
    var projects: map<Hash, Project>
    var assets: map<Hash, Asset>
    var issues: map<Hash, IssueInfo>
    var burns: map<Hash, BurnInfo>
    var carbon: Carbon
    var orders: Orders
    var native: Accounts
    var events: seq<Event>
    ghost var history: Run

    ghost function Storage(): State
      reads this
    {
      Ledger.Storage(projects, assets, issues, burns, carbon, orders, native, events)
    }

    /** The storage is what the calls so far add up to. */
    ghost predicate Valid()
      reads this
    {
      Admissible(history) && Storage() == After(history)
    }

    constructor (native: Accounts)
      requires TotalIssuance(native) <= U128_MAX
      ensures Valid() && history == Genesis(native)
    {
      projects, assets, issues, burns := map[], map[], map[], map[];
      carbon, orders := map[], map[];
      this.native, events := native, [];
      history := Genesis(native);
    }

    method DepositEvent(e: Event)
      modifies this`events
      ensures events == old(events) + [e]
    {
      events := events + [e];
    }

    // ---- carbon assets ----

    method SubmitProject(sender: AccountId, projectId: Hash, maxSupply: u64) returns (r: Outcome)
      modifies this`projects, this`events
      ensures Post(Storage(), r) == CA.SubmitProject(old(Storage()), sender, projectId, maxSupply)
    {
      if projectId in projects {
        return Err(DuplicatedKey);
      }
      projects := projects[projectId := Project(maxSupply, 0, Submitted, sender)];
      DepositEvent(ProjectSubmited(projectId, sender));
      return Ok;
    }

    method ApproveProject(authorized: bool, projectId: Hash) returns (r: Outcome)
      modifies this`projects, this`events
      ensures Post(Storage(), r) == CA.ApproveProject(old(Storage()), authorized, projectId)
    {
      if !authorized {
        return Err(BadOrigin);
      }
      if projectId !in projects {
        return Err(InvalidIndex);
      }
      var project := projects[projectId];
      if project.status != Submitted {
        return Err(AlreadyApproved);
      }
      project := project.(status := Approved);
      projects := projects[projectId := project];
      DepositEvent(ProjectApproved(projectId));
      return Ok;
    }

    method SubmitAsset(sender: AccountId, projectId: Hash, initialSupply: u64, assetId: Hash)
      returns (r: Outcome)
      modifies this`assets, this`events
      ensures Post(Storage(), r) == CA.SubmitAsset(old(Storage()), sender, projectId, initialSupply, assetId)
    {
      if projectId !in projects {
        return Err(InvalidIndex);
      }
      var project := projects[projectId];
      if project.status != Approved {
        return Err(ProjectNotApproved);
      }
      if project.owner != sender {
        return Err(PermissionDenied);
      }
      if !(Add(initialSupply, project.totalSupply) <= project.maxSupply) {
        return Err(OverIssueLimit);
      }
      if assetId in assets {
        return Err(DuplicatedKey);
      }
      assets := assets[assetId := Asset(projectId, initialSupply, 0, Submitted)];
      DepositEvent(AssetSubmited(projectId, assetId, sender));
      return Ok;
    }

    method ApproveAsset(authorized: bool, assetId: Hash) returns (r: Outcome)
      modifies this`assets, this`carbon, this`events
      ensures Post(Storage(), r) == CA.ApproveAsset(old(Storage()), authorized, assetId)
    {
      if !authorized {
        return Err(BadOrigin);
      }
      if assetId !in assets {
        return Err(InvalidIndex);
      }
      var asset := assets[assetId];
      if asset.status != Submitted {
        return Err(AlreadyApproved);
      }
      if asset.projectId !in projects {
        return Err(InvalidIndex);
      }
      var project := projects[asset.projectId];
      var owner := project.owner;
      if !(Add(asset.initialSupply, project.totalSupply) <= project.maxSupply) {
        return Err(OverIssueLimit);
      }
      asset := asset.(status := Approved);
      asset := asset.(totalSupply := asset.initialSupply);
      // Raised here, and not stored.
      project := project.(totalSupply := Add(project.totalSupply, asset.initialSupply));
      assets := assets[assetId := asset];
      carbon := SetBalance(carbon, assetId, owner, asset.initialSupply);
      DepositEvent(AssetApproved(assetId));
      return Ok;
    }

    method SubmitIssue(sender: AccountId, assetId: Hash, amount: u64, issueId: Hash) returns (r: Outcome)
      modifies this`issues, this`events
      ensures Post(Storage(), r) == CA.SubmitIssue(old(Storage()), sender, assetId, amount, issueId)
    {
      if assetId !in assets {
        return Err(InvalidIndex);
      }
      var asset := assets[assetId];
      if asset.status != Approved {
        return Err(AssetNotApproved);
      }
      if asset.projectId !in projects {
        return Err(InvalidIndex);
      }
      var project := projects[asset.projectId];
      if project.owner != sender {
        return Err(PermissionDenied);
      }
      if !(Add(amount, project.totalSupply) <= project.maxSupply) {
        return Err(OverIssueLimit);
      }
      if issueId in issues {
        return Err(DuplicatedKey);
      }
      issues := issues[issueId := IssueInfo(assetId, amount, Submitted)];
      DepositEvent(IssueSubmited(issueId, assetId, sender, amount));
      return Ok;
    }

    method ApproveIssue(authorized: bool, issueId: Hash) returns (r: Outcome)
      modifies this`projects, this`assets, this`issues, this`carbon, this`events
      ensures Post(Storage(), r) == CA.ApproveIssue(old(Storage()), authorized, issueId)
    {
      if !authorized {
        return Err(BadOrigin);
      }
      if issueId !in issues {
        return Err(InvalidIndex);
      }
      var issue := issues[issueId];
      if issue.status != Submitted {
        return Err(AlreadyApproved);
      }
      var assetId := issue.assetId;
      if assetId !in assets {
        return Err(InvalidIndex);
      }
      var asset := assets[assetId];
      var projectId := asset.projectId;
      if projectId !in projects {
        return Err(InvalidIndex);
      }
      var project := projects[projectId];
      var owner := project.owner;
      if !(Add(issue.amount, project.totalSupply) <= project.maxSupply) {
        return Err(OverIssueLimit);
      }
      issue := issue.(status := Approved);
      project := project.(totalSupply := Add(project.totalSupply, issue.amount));
      asset := asset.(totalSupply := Add(asset.totalSupply, issue.amount));
      assets := assets[assetId := asset];
      projects := projects[projectId := project];
      issues := issues[issueId := issue];
      carbon := SetBalance(carbon, assetId, owner, Add(BalanceOf(carbon, assetId, owner), issue.amount));
      DepositEvent(IssueApproved(issueId));
      return Ok;
    }

    method SubmitBurn(sender: AccountId, assetId: Hash, amount: u64, burnId: Hash) returns (r: Outcome)
      modifies this`burns, this`carbon, this`events
      ensures Post(Storage(), r) == CA.SubmitBurn(old(Storage()), sender, assetId, amount, burnId)
    {
      if assetId !in assets {
        return Err(InvalidIndex);
      }
      var asset := assets[assetId];
      if asset.status != Approved {
        return Err(AssetNotApproved);
      }
      if asset.projectId !in projects {
        return Err(InvalidIndex);
      }
      if projects[asset.projectId].owner != sender {
        return Err(PermissionDenied);
      }
      if burnId in projects {
        return Err(DuplicatedKey);
      }
      if !(amount <= BalanceOf(carbon, assetId, sender)) {
        return Err(BalanceLow);
      }
      burns := burns[burnId := BurnInfo(assetId, amount, Submitted)];
      carbon := SetBalance(carbon, assetId, sender, Sub(BalanceOf(carbon, assetId, sender), amount));
      DepositEvent(BurnSubmited(burnId, assetId, sender, amount));
      return Ok;
    }

    method ApproveBurn(authorized: bool, burnId: Hash) returns (r: Outcome)
      modifies this`projects, this`assets, this`burns, this`events
      ensures Post(Storage(), r) == CA.ApproveBurn(old(Storage()), authorized, burnId)
    {
      if !authorized {
        return Err(BadOrigin);
      }
      if burnId !in burns {
        return Err(InvalidIndex);
      }
      var burn := burns[burnId];
      if burn.status != Submitted {
        return Err(AlreadyApproved);
      }
      var assetId := burn.assetId;
      if assetId !in assets {
        return Err(InvalidIndex);
      }
      var asset := assets[assetId];
      var projectId := asset.projectId;
      if projectId !in projects {
        return Err(InvalidIndex);
      }
      var project := projects[projectId];
      burn := burn.(status := Approved);
      project := project.(totalSupply := Sub(project.totalSupply, burn.amount));
      asset := asset.(totalSupply := Sub(asset.totalSupply, burn.amount));
      assets := assets[assetId := asset];
      projects := projects[projectId := project];
      burns := burns[burnId := burn];
      DepositEvent(IssueApproved(burnId));
      return Ok;
    }

    method MakeTransfer(assetId: Hash, from: AccountId, to: AccountId, amount: u64)
      modifies this`carbon
      ensures carbon == Ledger.MakeTransfer(old(carbon), assetId, from, to, amount)
    {
      if from != to {
        carbon := SetBalance(carbon, assetId, from, Sub(BalanceOf(carbon, assetId, from), amount));
        carbon := SetBalance(carbon, assetId, to, Add(BalanceOf(carbon, assetId, to), amount));
      }
    }

    method Transfer(sender: AccountId, assetId: Hash, to: AccountId, amount: u64) returns (r: Outcome)
      modifies this`carbon, this`events
      ensures Post(Storage(), r) == CA.Transfer(old(Storage()), sender, assetId, to, amount)
    {
      var balance := BalanceOf(carbon, assetId, sender);
      if amount == 0 {
        return Err(AmountZero);
      }
      if balance < amount {
        return Err(BalanceLow);
      }
      MakeTransfer(assetId, sender, to, amount);
      DepositEvent(Transferred(assetId, sender, to, amount));
      return Ok;
    }

    method Neutralize(sender: AccountId, assetId: Hash, amount: u64) returns (r: Outcome)
      modifies this`carbon, this`events
      ensures Post(Storage(), r) == CA.Neutralize(old(Storage()), sender, assetId, amount)
    {
      var balance := BalanceOf(carbon, assetId, sender);
      if amount == 0 {
        return Err(AmountZero);
      }
      if balance < amount {
        return Err(BalanceLow);
      }
      carbon := SetBalance(carbon, assetId, sender, Sub(BalanceOf(carbon, assetId, sender), amount));
      DepositEvent(Neutralized(assetId, sender, amount));
      return Ok;
    }

    // ---- native money ----

    method Pay(from: AccountId, to: AccountId, value: u64, restricted: bool) returns (r: Outcome)
      modifies this`native
      ensures match MakePayment(old(native), from, to, value, restricted)
              case Moved(accounts) => r == Ok && native == accounts
              case Refused(e) => r == Err(e) && native == old(native)
    {
      match MakePayment(native, from, to, value, restricted)
      case Moved(accounts) =>
        native := accounts;
        return Ok;
      case Refused(e) =>
        return Err(e);
    }

    // ---- carbon exchange ----

    method MakeOrder(maker: AccountId, assetId: Hash, moneyId: Hash, price: u64, amount: u64, direction: int,
                     orderId: Hash, restricted: bool)
      returns (r: Outcome)
      modifies this`carbon, this`native, this`orders, this`events
      ensures Post(Storage(), r) ==
              CX.MakeOrder(old(Storage()), maker, assetId, moneyId, price, amount, direction, orderId, restricted)
    {
      if moneyId != NATIVE_MONEY {
        return Err(InvalidMoneyID);
      }
      if price == 0 {
        return Err(PriceZero);
      }
      if amount == 0 {
        return Err(AmountZero);
      }
      if !CA.HasAsset(assets, assetId) {
        return Err(AssetNotExist);
      }
      if orderId in orders {
        return Err(DuplicatedKey);
      }
      var locked: u64 := 0;
      if direction == ASK {
        if BalanceOf(carbon, assetId, maker) < amount {
          return Err(InsuffientAsset);
        }
        MakeTransfer(assetId, maker, POT, amount);
      } else if direction == BID {
        locked := SaturatingMul(amount, price);
        r := Pay(maker, POT, locked, restricted);
        if r != Ok {
          return;
        }
      } else {
        return Err(InvalidDirection);
      }
      orders := orders[orderId := Order(assetId, moneyId, maker, amount, price, amount, direction, locked)];
      DepositEvent(NewOrder(orderId, maker, assetId, moneyId, direction));
      return Ok;
    }

    method TakeOrder(taker: AccountId, orderId: Hash, amount: u64, restricted: bool) returns (r: Outcome)
      modifies this`carbon, this`native, this`orders, this`events
      ensures Post(Storage(), r) == CX.TakeOrder(old(Storage()), taker, orderId, amount, restricted)
    {
      if orderId !in orders {
        return Err(InvalidIndex);
      }
      var order := orders[orderId];
      if order.leftAmount < amount {
        return Err(AmountHigh);
      }
      var money := SaturatingMul(amount, order.price);
      if order.direction == ASK {
        if BalanceOf(carbon, order.assetId, POT) < amount {
          return Err(InsuffientPotAsset);
        }
        r := Pay(taker, order.maker, money, restricted);
        if r != Ok {
          return;
        }
        MakeTransfer(order.assetId, POT, taker, amount);
        assert MakePayment(old(native), taker, order.maker, money, restricted) == Moved(native);
      } else {
        if BalanceOf(carbon, order.assetId, taker) < amount {
          return Err(InsuffientAsset);
        }
        MakeTransfer(order.assetId, taker, order.maker, amount);
        r := Pay(POT, taker, money, false);
        if r != Ok {
          return;
        }
        order := order.(lockedBalance := Sub(order.lockedBalance, money));
        assert MakePayment(old(native), POT, taker, money, false) == Moved(native);
      }
      ghost var paid := order;
      order := order.(leftAmount := order.leftAmount - amount);
      if order.leftAmount > 0 {
        orders := orders[orderId := order];
      } else {
        orders := orders - {orderId};
        DepositEvent(OrderFinished(orderId));
      }
      assert orders == CX.BookAfterFill(old(orders), orderId, paid, amount);
      DepositEvent(NewDeal(orderId, order.assetId, order.moneyId, order.maker, taker, order.price, amount,
                           order.direction));
      assert events == old(events) + CX.FillEvents(orderId, old(orders)[orderId], taker, amount);
      return Ok;
    }

    method CancelOrder(sender: AccountId, orderId: Hash) returns (r: Outcome)
      modifies this`carbon, this`native, this`orders, this`events
      ensures Post(Storage(), r) == CX.CancelOrder(old(Storage()), sender, orderId)
    {
      if orderId !in orders {
        return Err(InvalidIndex);
      }
      var order := orders[orderId];
      if order.maker != sender {
        return Err(PermissionDenied);
      }
      if order.direction == ASK {
        MakeTransfer(order.assetId, POT, sender, order.leftAmount);
      } else {
        r := Pay(POT, sender, order.lockedBalance, false);
        if r != Ok {
          return;
        }
      }
      orders := orders - {orderId};
      DepositEvent(OrderCanceled(orderId));
      return Ok;
    }

    // ---- one call of any kind ----

    method ApplyCarbonAssets(c: Call) returns (r: Outcome)
      requires !c.MakeOrder? && !c.TakeOrder? && !c.CancelOrder? && !c.OtherPallets?
      modifies this`projects, this`assets, this`issues, this`burns, this`carbon, this`events
      ensures Post(Storage(), r) == Step(old(Storage()), c)
    {
      match c {
        case SubmitProject(signer, projectId, maxSupply) => r := SubmitProject(signer, projectId, maxSupply);
        case ApproveProject(authorized, projectId) => r := ApproveProject(authorized, projectId);
        case SubmitAsset(signer, projectId, initialSupply, assetId) =>
          r := SubmitAsset(signer, projectId, initialSupply, assetId);
        case ApproveAsset(authorized, assetId) => r := ApproveAsset(authorized, assetId);
        case SubmitIssue(signer, assetId, amount, issueId) => r := SubmitIssue(signer, assetId, amount, issueId);
        case ApproveIssue(authorized, issueId) => r := ApproveIssue(authorized, issueId);
        case SubmitBurn(signer, assetId, amount, burnId) => r := SubmitBurn(signer, assetId, amount, burnId);
        case ApproveBurn(authorized, burnId) => r := ApproveBurn(authorized, burnId);
        case Transfer(signer, assetId, to, amount) => r := Transfer(signer, assetId, to, amount);
        case Neutralize(signer, assetId, amount) => r := Neutralize(signer, assetId, amount);
      }
    }

    method ApplyCarbonExchange(c: Call) returns (r: Outcome)
      requires c.MakeOrder? || c.TakeOrder? || c.CancelOrder?
      modifies this`carbon, this`orders, this`native, this`events
      ensures Post(Storage(), r) == Step(old(Storage()), c)
    {
      match c {
        case MakeOrder(signer, assetId, moneyId, price, amount, direction, orderId, restricted) =>
          r := MakeOrder(signer, assetId, moneyId, price, amount, direction, orderId, restricted);
        case TakeOrder(signer, orderId, amount, restricted) => r := TakeOrder(signer, orderId, amount, restricted);
        case CancelOrder(signer, orderId) => r := CancelOrder(signer, orderId);
      }
    }

    method Apply(c: Call) returns (r: Outcome)
      modifies this`projects, this`assets, this`issues, this`burns, this`carbon, this`orders, this`native, this`events
      ensures Post(Storage(), r) == Step(old(Storage()), c)
    {
      if c.OtherPallets? {
        native := c.accounts;
        r := Ok;
      } else if c.MakeOrder? || c.TakeOrder? || c.CancelOrder? {
        r := ApplyCarbonExchange(c);
      } else {
        r := ApplyCarbonAssets(c);
      }
    }

    /** The object stays what its history says, and stays solvent as long as the history is. */
    method Dispatch(c: Call) returns (r: Outcome)
      requires Valid() && Allowed(Storage(), c)
      modifies this
      ensures Valid() && history == Then(old(history), c) && r == Last(history)
      ensures NeverSplits(history) ==>
                forall a :: AskLeft(orders, a) <= BalanceOf(carbon, a, POT)
      ensures Endowed(history) ==>
                Free(native, POT) >= Locked(orders) + EXISTENTIAL_DEPOSIT
    {
      r := Apply(c);
      history := Then(history, c);
      if NeverSplits(history) {
        forall a ensures AskLeft(orders, a) <= BalanceOf(carbon, a, POT) {
          CarbonEscrowSolvent(history, a);
        }
      }
      if Endowed(history) {
        NativeEscrowSolvent(history);
      }
    }
  }
}
