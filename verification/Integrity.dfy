/** Referential integrity: what every reachable state of the registry and the order book satisfies. */
module Integrity {
  import opened U64
  import opened Ledger
  import opened Runs
  import opened CarbonAssets
  import opened Effects

  ghost predicate OwnerSound(projects: map<Hash, Project>, p: Hash) {
    p in projects ==> projects[p].owner != POT
  }

  ghost predicate AssetLinked(projects: map<Hash, Project>, assets: map<Hash, Asset>, a: Hash) {
    a in assets ==>
      && assets[a].projectId in projects
      && projects[assets[a].projectId].status == Approved
      && (assets[a].status == Submitted ==> assets[a].totalSupply == 0)
  }

  ghost predicate IssueLinked(assets: map<Hash, Asset>, issues: map<Hash, IssueInfo>, i: Hash) {
    i in issues ==> HasAsset(assets, issues[i].assetId)
  }

  ghost predicate BurnLinked(assets: map<Hash, Asset>, burns: map<Hash, BurnInfo>, b: Hash) {
    b in burns ==> HasAsset(assets, burns[b].assetId)
  }

  ghost predicate BalanceLinked(assets: map<Hash, Asset>, carbon: Carbon, a: Hash, who: AccountId) {
    (a, who) in carbon ==> carbon[(a, who)] > 0 && HasAsset(assets, a)
  }

  ghost predicate OrderSound(assets: map<Hash, Asset>, o: Order) {
    && HasAsset(assets, o.assetId)
    && o.moneyId == NATIVE_MONEY
    && o.maker != POT
    && 0 < o.leftAmount <= o.amount
    && o.price > 0
    && (o.direction == BID || (o.direction == ASK && o.lockedBalance == 0))
  }

  ghost predicate OrderLinked(assets: map<Hash, Asset>, orders: Orders, id: Hash) {
    id in orders ==> OrderSound(assets, orders[id])
  }

  ghost predicate OwnersSound(projects: map<Hash, Project>) {
    forall p :: OwnerSound(projects, p)
  }

  ghost predicate AssetsLinked(projects: map<Hash, Project>, assets: map<Hash, Asset>) {
    forall a :: AssetLinked(projects, assets, a)
  }

  ghost predicate IssuesLinked(assets: map<Hash, Asset>, issues: map<Hash, IssueInfo>) {
    forall i :: IssueLinked(assets, issues, i)
  }

  ghost predicate BurnsLinked(assets: map<Hash, Asset>, burns: map<Hash, BurnInfo>) {
    forall b :: BurnLinked(assets, burns, b)
  }

  ghost predicate BalancesLinked(assets: map<Hash, Asset>, carbon: Carbon) {
    forall a, who :: BalanceLinked(assets, carbon, a, who)
  }

  ghost predicate OrdersLinked(assets: map<Hash, Asset>, orders: Orders) {
    forall id :: OrderLinked(assets, orders, id)
  }

  /** No stored reference dangles, and only approved assets have issues, burns, orders or balances. */
  ghost predicate Linked(s: State) {
    && OwnersSound(s.projects)
    && AssetsLinked(s.projects, s.assets)
    && IssuesLinked(s.assets, s.issues)
    && BurnsLinked(s.assets, s.burns)
    && BalancesLinked(s.assets, s.carbon)
    && OrdersLinked(s.assets, s.orders)
  }

  // ---- what no call undoes ----

  ghost predicate ProjectPersists(projects: map<Hash, Project>, projects': map<Hash, Project>, p: Hash) {
    p in projects ==>
      && p in projects'
      && projects'[p].owner == projects[p].owner
      && projects'[p].maxSupply == projects[p].maxSupply
      && (projects[p].status == Approved ==> projects'[p].status == Approved)
  }

  ghost predicate AssetPersists(assets: map<Hash, Asset>, assets': map<Hash, Asset>, a: Hash) {
    a in assets ==>
      && a in assets'
      && assets'[a].projectId == assets[a].projectId
      && assets'[a].initialSupply == assets[a].initialSupply
      && (assets[a].status == Approved ==> assets'[a].status == Approved)
  }

  ghost predicate IssuePersists(issues: map<Hash, IssueInfo>, issues': map<Hash, IssueInfo>, i: Hash) {
    i in issues ==>
      && i in issues'
      && issues'[i].assetId == issues[i].assetId
      && issues'[i].amount == issues[i].amount
      && (issues[i].status == Approved ==> issues'[i].status == Approved)
  }

  /**
   * Projects, assets and issues stay, with their owners, limits, parents and amounts, and an approval
   * is never taken back. (Burns are not listed: see `BurnsPersistUnless`.)
   */
  ghost predicate Persistent(s: State, s': State) {
    && (forall p :: ProjectPersists(s.projects, s'.projects, p))
    && (forall a :: AssetPersists(s.assets, s'.assets, a))
    && (forall i :: IssuePersists(s.issues, s'.issues, i))
  }

  lemma ProjectsPersistStep(s: State, c: Call, p: Hash)
    ensures ProjectPersists(s.projects, Step(s, c).state.projects, p)
  {
    if c.MakeOrder? || c.TakeOrder? || c.CancelOrder? {
      ExchangeLeavesRegistry(s, c);
    } else if c.ApproveIssue? || c.ApproveBurn? {
      // These rewrite several records at once; expanding them apart keeps the proof small.
    } else {
      // At most one record is written.
    }
  }

  lemma AssetsPersistStep(s: State, c: Call, a: Hash)
    ensures AssetPersists(s.assets, Step(s, c).state.assets, a)
  {
    if c.MakeOrder? || c.TakeOrder? || c.CancelOrder? {
      ExchangeLeavesRegistry(s, c);
    } else if c.ApproveIssue? || c.ApproveBurn? {
      // These rewrite several records at once; expanding them apart keeps the proof small.
    } else {
      // At most one record is written.
    }
  }

  lemma IssuesPersistStep(s: State, c: Call, i: Hash)
    ensures IssuePersists(s.issues, Step(s, c).state.issues, i)
  {
    if c.MakeOrder? || c.TakeOrder? || c.CancelOrder? {
      ExchangeLeavesRegistry(s, c);
    } else if c.ApproveIssue? || c.ApproveBurn? {
      // These rewrite several records at once; expanding them apart keeps the proof small.
    } else {
      // At most one record is written.
    }
  }

  lemma PersistentStep(s: State, c: Call)
    ensures Persistent(s, Step(s, c).state)
  {
    var s' := Step(s, c).state;
    forall p ensures ProjectPersists(s.projects, s'.projects, p) {
      ProjectsPersistStep(s, c, p);
    }
    forall a ensures AssetPersists(s.assets, s'.assets, a) {
      AssetsPersistStep(s, c, a);
    }
    forall i ensures IssuePersists(s.issues, s'.issues, i) {
      IssuesPersistStep(s, c, i);
    }
  }

  // ---- references stay sound, call by call ----

  /** References into the registry survive whatever keeps the registry's approvals. */
  lemma ReferencesSurvive(s: State, s': State)
    requires Linked(s) && Persistent(s, s')
    ensures IssuesLinked(s'.assets, s.issues) && BurnsLinked(s'.assets, s.burns)
    ensures BalancesLinked(s'.assets, s.carbon) && OrdersLinked(s'.assets, s.orders)
  {
    forall i ensures IssueLinked(s'.assets, s.issues, i) {
      assert IssueLinked(s.assets, s.issues, i);
      assert i in s.issues ==> AssetPersists(s.assets, s'.assets, s.issues[i].assetId);
    }
    forall b ensures BurnLinked(s'.assets, s.burns, b) {
      assert BurnLinked(s.assets, s.burns, b);
      assert b in s.burns ==> AssetPersists(s.assets, s'.assets, s.burns[b].assetId);
    }
    forall a, who ensures BalanceLinked(s'.assets, s.carbon, a, who) {
      assert BalanceLinked(s.assets, s.carbon, a, who);
      assert AssetPersists(s.assets, s'.assets, a);
    }
    forall id ensures OrderLinked(s'.assets, s.orders, id) {
      assert OrderLinked(s.assets, s.orders, id);
      assert id in s.orders ==> AssetPersists(s.assets, s'.assets, s.orders[id].assetId);
    }
  }

  lemma BalanceSetLinked(assets: map<Hash, Asset>, carbon: Carbon, a: Hash, who: AccountId, v: u64)
    requires BalancesLinked(assets, carbon) && HasAsset(assets, a)
    ensures BalancesLinked(assets, SetBalance(carbon, a, who, v))
  {
    forall a', who' ensures BalanceLinked(assets, SetBalance(carbon, a, who, v), a', who') {
      assert BalanceLinked(assets, carbon, a', who');
    }
  }

  lemma BalanceMoveLinked(assets: map<Hash, Asset>, carbon: Carbon, a: Hash, from: AccountId, to: AccountId,
                          amount: u64)
    requires BalancesLinked(assets, carbon) && HasAsset(assets, a)
    ensures BalancesLinked(assets, MakeTransfer(carbon, a, from, to, amount))
  {
    if from != to {
      var debited := SetBalance(carbon, a, from, Sub(BalanceOf(carbon, a, from), amount));
      BalanceSetLinked(assets, carbon, a, from, Sub(BalanceOf(carbon, a, from), amount));
      BalanceSetLinked(assets, debited, a, to, Add(BalanceOf(debited, a, to), amount));
    }
  }

  /** Nobody holds units of an asset that is absent or not yet approved. */
  lemma BalanceNeedsApproval(s: State, a: Hash, who: AccountId)
    requires Linked(s) && BalanceOf(s.carbon, a, who) > 0
    ensures HasAsset(s.assets, a)
  {
    assert BalanceLinked(s.assets, s.carbon, a, who);
  }

  /** The parent of every asset survives whatever keeps owners and approvals. */
  lemma AssetsStayLinked(s: State, s': State)
    requires Linked(s) && Persistent(s, s') && s'.assets == s.assets
    ensures AssetsLinked(s'.projects, s'.assets)
  {
    forall a ensures AssetLinked(s'.projects, s'.assets, a) {
      assert AssetLinked(s.projects, s.assets, a);
      assert a in s.assets ==> ProjectPersists(s.projects, s'.projects, s.assets[a].projectId);
    }
  }

  lemma ProjectCallKeeps(s: State, c: Call)
    requires Linked(s) && Allowed(s, c)
    requires c.SubmitProject? || c.ApproveProject?
    ensures Linked(Step(s, c).state)
  {
    var s' := Step(s, c).state;
    ProjectCallEffect(s, c);
    PersistentStep(s, c);
    ReferencesSurvive(s, s');
    AssetsStayLinked(s, s');
    forall p ensures OwnerSound(s'.projects, p) {
      assert OwnerSound(s.projects, p);
    }
  }

  lemma SubmissionKeeps(s: State, c: Call)
    requires Linked(s) && Allowed(s, c)
    requires c.SubmitAsset? || c.SubmitIssue?
    ensures Linked(Step(s, c).state)
  {
    var s' := Step(s, c).state;
    SubmissionEffect(s, c);
    PersistentStep(s, c);
    ReferencesSurvive(s, s');
    forall a ensures AssetLinked(s'.projects, s'.assets, a) {
      assert AssetLinked(s.projects, s.assets, a);
    }
    forall i ensures IssueLinked(s'.assets, s'.issues, i) {
      assert IssueLinked(s'.assets, s.issues, i);
    }
  }

  lemma ApproveAssetKeeps(s: State, c: Call)
    requires Linked(s) && Allowed(s, c) && c.ApproveAsset?
    ensures Linked(Step(s, c).state)
  {
    var s' := Step(s, c).state;
    PersistentStep(s, c);
    ReferencesSurvive(s, s');
    forall a ensures AssetLinked(s.projects, s'.assets, a) {
      assert AssetLinked(s.projects, s.assets, a);
    }
    forall a, who ensures BalanceLinked(s'.assets, s'.carbon, a, who) {
      assert BalanceLinked(s'.assets, s.carbon, a, who);
    }
  }

  /** Rewriting counters keeps owners, parents and approvals. */
  lemma CountersKeepLinks(s: State, c: Call)
    requires Linked(s) && (c.ApproveIssue? || c.ApproveBurn?) && Step(s, c).outcome == Ok
    ensures var s' := Step(s, c).state; OwnersSound(s'.projects) && AssetsLinked(s'.projects, s'.assets)
  {
    var s' := Step(s, c).state;
    PersistentStep(s, c);
    assert c.ApproveIssue? ==> IssueLinked(s.assets, s.issues, c.issueId);
    assert c.ApproveBurn? ==> BurnLinked(s.assets, s.burns, c.burnId);
    forall p ensures OwnerSound(s'.projects, p) {
      assert OwnerSound(s.projects, p);
    }
    forall a ensures AssetLinked(s'.projects, s'.assets, a) {
      assert AssetLinked(s.projects, s.assets, a);
      assert a in s.assets ==> ProjectPersists(s.projects, s'.projects, s.assets[a].projectId);
    }
  }

  lemma SupplyCallKeeps(s: State, c: Call)
    requires Linked(s) && Allowed(s, c)
    requires c.ApproveIssue? || c.ApproveBurn?
    ensures Linked(Step(s, c).state)
  {
    var s' := Step(s, c).state;
    if Step(s, c).outcome == Ok {
      PersistentStep(s, c);
      ReferencesSurvive(s, s');
      CountersKeepLinks(s, c);
      var assetId := if c.ApproveIssue? then s.issues[c.issueId].assetId else s.burns[c.burnId].assetId;
      assert HasAsset(s'.assets, assetId) by {
        assert c.ApproveIssue? ==> IssueLinked(s'.assets, s.issues, c.issueId);
        assert c.ApproveBurn? ==> BurnLinked(s'.assets, s.burns, c.burnId);
      }
      forall i ensures IssueLinked(s'.assets, s'.issues, i) {
        assert IssueLinked(s'.assets, s.issues, i);
      }
      forall b ensures BurnLinked(s'.assets, s'.burns, b) {
        assert BurnLinked(s'.assets, s.burns, b);
      }
      forall a, who ensures BalanceLinked(s'.assets, s'.carbon, a, who) {
        assert BalanceLinked(s'.assets, s.carbon, a, who);
      }
    }
  }

  lemma BalanceCallKeeps(s: State, c: Call)
    requires Linked(s) && Allowed(s, c)
    requires c.SubmitBurn? || c.Transfer? || c.Neutralize? || c.OtherPallets?
    ensures Linked(Step(s, c).state)
  {
    if Step(s, c).outcome == Ok && !c.OtherPallets? {
      if c.amount > 0 {
        BalanceNeedsApproval(s, c.assetId, c.signer);
      }
      if c.Transfer? {
        BalanceMoveLinked(s.assets, s.carbon, c.assetId, c.signer, c.to, c.amount);
      } else {
        BalanceSetLinked(s.assets, s.carbon, c.assetId, c.signer,
                         Sub(BalanceOf(s.carbon, c.assetId, c.signer), c.amount));
      }
      forall b ensures BurnLinked(s.assets, Step(s, c).state.burns, b) {
        assert BurnLinked(s.assets, s.burns, b);
      }
    }
  }

  lemma MakeOrderKeeps(s: State, c: Call)
    requires Linked(s) && Allowed(s, c) && c.MakeOrder?
    ensures Linked(Step(s, c).state)
  {
    if Step(s, c).outcome == Ok {
      var locked := if c.direction == ASK then 0 else SaturatingMul(c.amount, c.price);
      var o := Order(c.assetId, c.moneyId, c.signer, c.amount, c.price, c.amount, c.direction, locked);
      var orders' := s.orders[c.orderId := o];
      assert Step(s, c).state.orders == orders';
      BalanceMoveLinked(s.assets, s.carbon, c.assetId, c.signer, POT, c.amount);
      forall id ensures OrderLinked(s.assets, orders', id) {
        assert OrderLinked(s.assets, s.orders, id);
      }
    }
  }

  lemma TakeOrderKeeps(s: State, c: Call)
    requires Linked(s) && Allowed(s, c) && c.TakeOrder?
    ensures Linked(Step(s, c).state)
  {
    var s' := Step(s, c).state;
    assert OrderLinked(s.assets, s.orders, c.orderId);
    if Step(s, c).outcome == Ok {
      var o := s.orders[c.orderId];
      FillEffect(s, c);
      BalanceMoveLinked(s.assets, s.carbon, o.assetId, Giver(o, c.signer), Receiver(o, c.signer), c.amount);
      forall id ensures OrderLinked(s.assets, s'.orders, id) {
        assert OrderLinked(s.assets, s.orders, id);
      }
    } else {
      FailedFillEffect(s, c);
      if s'.carbon != s.carbon {
        var o := s.orders[c.orderId];
        BalanceMoveLinked(s.assets, s.carbon, o.assetId, c.signer, o.maker, c.amount);
      }
    }
  }

  lemma CancelOrderKeeps(s: State, c: Call)
    requires Linked(s) && Allowed(s, c) && c.CancelOrder?
    ensures Linked(Step(s, c).state)
  {
    if c.orderId in s.orders {
      var s' := Step(s, c).state;
      var o := s.orders[c.orderId];
      assert OrderLinked(s.assets, s.orders, c.orderId);
      BalanceMoveLinked(s.assets, s.carbon, o.assetId, POT, c.signer, o.leftAmount);
      forall id ensures OrderLinked(s.assets, s'.orders, id) {
        assert OrderLinked(s.assets, s.orders, id);
      }
    }
  }

  lemma LinkedStep(s: State, c: Call)
    requires Linked(s) && Allowed(s, c)
    ensures Linked(Step(s, c).state)
  {
    if c.SubmitProject? || c.ApproveProject? {
      ProjectCallKeeps(s, c);
    } else if c.SubmitAsset? || c.SubmitIssue? {
      SubmissionKeeps(s, c);
    } else if c.ApproveAsset? {
      ApproveAssetKeeps(s, c);
    } else if c.ApproveIssue? || c.ApproveBurn? {
      SupplyCallKeeps(s, c);
    } else if c.MakeOrder? {
      MakeOrderKeeps(s, c);
    } else if c.TakeOrder? {
      TakeOrderKeeps(s, c);
    } else if c.CancelOrder? {
      CancelOrderKeeps(s, c);
    } else {
      BalanceCallKeeps(s, c);
    }
  }

  lemma {:induction false} LinkedAlways(r: Run)
    requires Admissible(r)
    ensures Linked(After(r))
  {
    match r
    case Genesis(_) =>
    case Then(past, call) =>
      LinkedAlways(past);
      LinkedStep(After(past), call);
  }

  /** Owners, limits, parents, issue amounts and approvals, once stored, are the same ever after. */
  lemma {:induction false} PersistentAlways(r: Run, p: Run)
    requires Extends(r, p)
    ensures Persistent(After(p), After(r))
  {
    if r != p {
      PersistentAlways(r.past, p);
      PersistentStep(After(r.past), r.call);
      var s, m, s' := After(p), After(r.past), After(r);
      forall i ensures ProjectPersists(s.projects, s'.projects, i) {
        assert ProjectPersists(s.projects, m.projects, i) && ProjectPersists(m.projects, s'.projects, i);
      }
      forall i ensures AssetPersists(s.assets, s'.assets, i) {
        assert AssetPersists(s.assets, m.assets, i) && AssetPersists(m.assets, s'.assets, i);
      }
      forall i ensures IssuePersists(s.issues, s'.issues, i) {
        assert IssuePersists(s.issues, m.issues, i) && IssuePersists(m.issues, s'.issues, i);
      }
    }
  }

  ghost predicate BurnPersists(burns: map<Hash, BurnInfo>, burns': map<Hash, BurnInfo>, b: Hash) {
    b in burns ==>
      && b in burns'
      && burns'[b].assetId == burns[b].assetId
      && burns'[b].amount == burns[b].amount
      && (burns[b].status == Approved ==> burns'[b].status == Approved)
  }

  /** The call submits a burn under the id `b`, whether or not the id is taken. */
  predicate Resubmits(s: State, c: Call, b: Hash) {
    c.SubmitBurn? && c.burnId == b && Step(s, c).outcome == Ok
  }

  /** No call of `r` beyond `p` submits a burn under the id `b`. */
  ghost predicate NeverResubmits(r: Run, p: Run, b: Hash)
    requires Extends(r, p)
  {
    r != p ==> NeverResubmits(r.past, p, b) && !Resubmits(After(r.past), r.call, b)
  }

  lemma BurnsPersistStep(s: State, c: Call, b: Hash)
    requires !Resubmits(s, c, b)
    ensures BurnPersists(s.burns, Step(s, c).state.burns, b)
  {
    // The exchange apart, to keep its effects out of the other cases.
    if c.MakeOrder? || c.TakeOrder? || c.CancelOrder? {
      ExchangeLeavesRegistry(s, c);
    } else {
    }
  }

  /** A burn keeps its asset, its amount and its approval until its id is submitted again. */
  lemma {:induction false} BurnsPersistUnless(r: Run, p: Run, b: Hash)
    requires Extends(r, p) && NeverResubmits(r, p, b)
    ensures BurnPersists(After(p).burns, After(r).burns, b)
  {
    if r != p {
      BurnsPersistUnless(r.past, p, b);
      BurnsPersistStep(After(r.past), r.call, b);
    }
  }

  /** The record a call names directly is missing. */
  ghost predicate NamesMissing(s: State, c: Call) {
    match c
    case ApproveProject(authorized, projectId) => authorized && projectId !in s.projects
    case SubmitAsset(_, projectId, _, _) => projectId !in s.projects
    case ApproveAsset(authorized, assetId) => authorized && assetId !in s.assets
    case SubmitIssue(_, assetId, _, _) => assetId !in s.assets
    case ApproveIssue(authorized, issueId) => authorized && issueId !in s.issues
    case SubmitBurn(_, assetId, _, _) => assetId !in s.assets
    case ApproveBurn(authorized, burnId) => authorized && burnId !in s.burns
    case TakeOrder(_, orderId, _, _) => orderId !in s.orders
    case CancelOrder(_, orderId) => orderId !in s.orders
    case _ => false
  }

  lemma ParentLookupsSucceed(s: State, c: Call)
    requires Linked(s)
    requires c.ApproveAsset? || c.SubmitIssue? || c.SubmitBurn?
    ensures Step(s, c).outcome == Err(InvalidIndex) <==> NamesMissing(s, c)
  {
    assert AssetLinked(s.projects, s.assets, c.assetId);
  }

  lemma ClaimLookupsSucceed(s: State, c: Call)
    requires Linked(s)
    requires c.ApproveIssue? || c.ApproveBurn?
    ensures Step(s, c).outcome == Err(InvalidIndex) <==> NamesMissing(s, c)
  {
    if c.ApproveIssue? && c.issueId in s.issues {
      assert IssueLinked(s.assets, s.issues, c.issueId);
      assert AssetLinked(s.projects, s.assets, s.issues[c.issueId].assetId);
    } else if c.ApproveBurn? && c.burnId in s.burns {
      assert BurnLinked(s.assets, s.burns, c.burnId);
      assert AssetLinked(s.projects, s.assets, s.burns[c.burnId].assetId);
    }
  }

  lemma DirectLookups(s: State, c: Call)
    requires !c.ApproveAsset? && !c.SubmitIssue? && !c.SubmitBurn? && !c.ApproveIssue? && !c.ApproveBurn?
    ensures Step(s, c).outcome == Err(InvalidIndex) <==> NamesMissing(s, c)
  {
    // Where payments can fail, and where they cannot.
    if c.MakeOrder? || c.TakeOrder? || c.CancelOrder? {
    } else {
    }
  }

  /**
   * `InvalidIndex` comes only from a missing record that the call itself names: the nested lookups of
   * an asset behind an issue or burn, and of a project behind an asset, never fail.
   */
  lemma NestedLookupsSucceed(r: Run, c: Call)
    requires Admissible(r)
    ensures Step(After(r), c).outcome == Err(InvalidIndex) <==> NamesMissing(After(r), c)
  {
    LinkedAlways(r);
    if c.ApproveAsset? || c.SubmitIssue? || c.SubmitBurn? {
      ParentLookupsSucceed(After(r), c);
    } else if c.ApproveIssue? || c.ApproveBurn? {
      ClaimLookupsSucceed(After(r), c);
    } else {
      DirectLookups(After(r), c);
    }
  }
}
