/** The replayed index against the chain it was built from. */
module IndexAgreement {
  import opened Ledger
  import opened Runs
  import opened Integrity
  import opened Effects
  import opened OrderLife
  import opened EventIndex

  ghost function IndexOf(r: Run): Index {
    Replay(After(r).events)
  }

  /** The events one call deposits, in order. */
  function Deposited(s: State, c: Call): seq<Event> {
    if Step(s, c).outcome != Ok then [] else
      match c
      case SubmitProject(signer, projectId, _) => [Event.ProjectSubmited(projectId, signer)]
      case ApproveProject(_, projectId) => [Event.ProjectApproved(projectId)]
      case SubmitAsset(signer, projectId, _, assetId) => [AssetSubmited(projectId, assetId, signer)]
      case ApproveAsset(_, assetId) => [AssetApproved(assetId)]
      case SubmitIssue(signer, assetId, amount, issueId) => [IssueSubmited(issueId, assetId, signer, amount)]
      case ApproveIssue(_, issueId) => [IssueApproved(issueId)]
      case SubmitBurn(signer, assetId, amount, burnId) => [BurnSubmited(burnId, assetId, signer, amount)]
      case ApproveBurn(_, burnId) => [IssueApproved(burnId)]
      case Transfer(signer, assetId, to, amount) => [Transferred(assetId, signer, to, amount)]
      case Neutralize(signer, assetId, amount) => [Neutralized(assetId, signer, amount)]
      case MakeOrder(signer, assetId, moneyId, _, _, direction, orderId, _) =>
        [NewOrder(orderId, signer, assetId, moneyId, direction)]
      case TakeOrder(signer, orderId, amount, _) =>
        if orderId !in s.orders then [] else
          var o := s.orders[orderId];
          var deal := NewDeal(orderId, o.assetId, o.moneyId, o.maker, signer, o.price, amount, o.direction);
          if amount == o.leftAmount then [OrderFinished(orderId), deal] else [deal]
      case CancelOrder(_, orderId) => [OrderCanceled(orderId)]
      case OtherPallets(_) => []
  }

  lemma SubmissionEvents(s: State, c: Call)
    requires c.SubmitProject? || c.SubmitAsset? || c.SubmitIssue? || c.SubmitBurn?
    ensures Step(s, c).state.events == s.events + Deposited(s, c)
  {
  }

  lemma ApprovalEvents(s: State, c: Call)
    requires c.ApproveProject? || c.ApproveAsset? || c.ApproveIssue? || c.ApproveBurn?
    ensures Step(s, c).state.events == s.events + Deposited(s, c)
  {
  }

  lemma UnitEvents(s: State, c: Call)
    requires c.Transfer? || c.Neutralize? || c.OtherPallets?
    ensures Step(s, c).state.events == s.events + Deposited(s, c)
  {
  }

  lemma ExchangeEvents(s: State, c: Call)
    requires c.MakeOrder? || c.TakeOrder? || c.CancelOrder?
    ensures Step(s, c).state.events == s.events + Deposited(s, c)
  {
    // Each kind of call is expanded by itself.
    if c.MakeOrder? {
    } else if c.TakeOrder? {
    } else {
    }
  }

  lemma EventsStep(s: State, c: Call)
    ensures Step(s, c).state.events == s.events + Deposited(s, c)
  {
    if c.MakeOrder? || c.TakeOrder? || c.CancelOrder? {
      ExchangeEvents(s, c);
    } else if c.Transfer? || c.Neutralize? || c.OtherPallets? {
      UnitEvents(s, c);
    } else if c.ApproveProject? || c.ApproveAsset? || c.ApproveIssue? || c.ApproveBurn? {
      ApprovalEvents(s, c);
    } else {
      SubmissionEvents(s, c);
    }
  }

  /** The index after the events of one call: there are at most two. */
  function Fed(idx: Index, s: State, c: Call): Index {
    var logged := Deposited(s, c);
    if |logged| == 0 then idx
    else if |logged| == 1 then Handle(idx, logged[0])
    else Handle(Handle(idx, logged[0]), logged[1])
  }

  lemma IndexThen(past: Run, c: Call)
    ensures IndexOf(Then(past, c)) == Fed(IndexOf(past), After(past), c)
  {
    var s := After(past);
    var logged := Deposited(s, c);
    EventsStep(s, c);
    if |logged| == 1 {
      ReplayOne(EMPTY, s.events, logged[0]);
    } else if |logged| == 2 {
      assert s.events + logged == s.events + [logged[0]] + [logged[1]];
      ReplayOne(EMPTY, s.events, logged[0]);
      ReplayOne(EMPTY, s.events + [logged[0]], logged[1]);
    } else {
      assert s.events + logged == s.events;
    }
  }

  // ---- assets ----

  /** The asset has a document just when it is on chain, with its owner and whether it was approved. */
  ghost predicate AssetIndexed(s: State, assets: map<Hash, AssetDoc>, a: Hash) {
    && (a in assets <==> a in s.assets)
    && (a in s.assets ==>
          && assets[a].projectId == s.assets[a].projectId
          && s.assets[a].projectId in s.projects
          && assets[a].owner == s.projects[s.assets[a].projectId].owner
          && (assets[a].approved <==> s.assets[a].status == Approved))
  }

  ghost predicate AssetsIndexed(s: State, assets: map<Hash, AssetDoc>) {
    forall a :: AssetIndexed(s, assets, a)
  }

  lemma HandleKeepsAssets(idx: Index, e: Event)
    requires !e.AssetSubmited? && !e.AssetApproved?
    ensures Handle(idx, e).assets == idx.assets
  {
  }

  lemma FedAssets(idx: Index, s: State, c: Call)
    requires !(Step(s, c).outcome == Ok && (c.SubmitAsset? || c.ApproveAsset?))
    ensures Fed(idx, s, c).assets == idx.assets
  {
    var logged := Deposited(s, c);
    if |logged| > 0 {
      HandleKeepsAssets(idx, logged[0]);
    }
    if |logged| > 1 {
      HandleKeepsAssets(Handle(idx, logged[0]), logged[1]);
    }
  }

  lemma NewAssetStep(s: State, c: Call, idx: Index)
    requires AssetsIndexed(s, idx.assets)
    requires (c.SubmitAsset? || c.ApproveAsset?) && Step(s, c).outcome == Ok
    ensures AssetsIndexed(Step(s, c).state, Fed(idx, s, c).assets)
  {
    var s', idx' := Step(s, c).state, Fed(idx, s, c);
    forall a ensures AssetIndexed(s', idx'.assets, a) {
      assert AssetIndexed(s, idx.assets, a);
    }
  }

  lemma OldAssetsStep(s: State, c: Call, idx: Index)
    requires AssetsIndexed(s, idx.assets)
    requires !(Step(s, c).outcome == Ok && (c.SubmitAsset? || c.ApproveAsset?))
    ensures AssetsIndexed(Step(s, c).state, Fed(idx, s, c).assets)
  {
    var s', idx' := Step(s, c).state, Fed(idx, s, c);
    FedAssets(idx, s, c);
    AssetsChange(s, c);
    forall a ensures AssetIndexed(s', idx'.assets, a) {
      assert AssetIndexed(s, idx.assets, a);
      AssetsPersistStep(s, c, a);
      if a in s.assets {
        ProjectsPersistStep(s, c, s.assets[a].projectId);
      }
    }
  }

  lemma AssetsStep(s: State, c: Call, idx: Index)
    requires AssetsIndexed(s, idx.assets)
    ensures AssetsIndexed(Step(s, c).state, Fed(idx, s, c).assets)
  {
    if Step(s, c).outcome == Ok && (c.SubmitAsset? || c.ApproveAsset?) {
      NewAssetStep(s, c, idx);
    } else {
      OldAssetsStep(s, c, idx);
    }
  }

  /** Apart from submission and approval, calls neither add assets nor change their status. */
  lemma AssetsChange(s: State, c: Call)
    requires !(Step(s, c).outcome == Ok && (c.SubmitAsset? || c.ApproveAsset?))
    ensures Step(s, c).state.assets.Keys == s.assets.Keys
    ensures forall a :: a in s.assets ==> Step(s, c).state.assets[a].status == s.assets[a].status
  {
    if c.MakeOrder? || c.TakeOrder? || c.CancelOrder? {
      ExchangeLeavesRegistry(s, c);
    } else if c.ApproveIssue? || c.ApproveBurn? {
      // These rewrite an asset, and keep its status.
    } else {
      // No other call that is left writes an asset.
    }
  }

  lemma {:induction false} AssetsAlwaysIndexed(r: Run)
    requires Admissible(r)
    ensures AssetsIndexed(After(r), IndexOf(r).assets)
  {
    match r
    case Genesis(_) =>
      forall a ensures AssetIndexed(After(r), IndexOf(r).assets, a) {}
    case Then(past, c) =>
      AssetsAlwaysIndexed(past);
      LinkedAlways(past);
      AssetsStep(After(past), c, IndexOf(past));
      IndexThen(past, c);
  }

  // ---- orders ----

  /** How often an order was made under this id. */
  function TimesMade(r: Run, id: Hash): nat {
    match r
    case Genesis(_) => 0
    case Then(past, c) => TimesMade(past, id) + if Makes(After(past), c, id) then 1 else 0
  }

  predicate Open(docs: map<Hash, OrderDoc>, id: Hash) {
    id in docs && !docs[id].closed
  }

  ghost predicate OrderIndexed(orders: Orders, docs: map<Hash, OrderDoc>, made: nat, id: Hash) {
    && (id in docs <==> made >= 1)
    && (Open(docs, id) ==> id in orders)
    && (id in orders && made == 1 ==>
          && Open(docs, id)
          && docs[id] == OrderDoc(orders[id].maker, orders[id].assetId, orders[id].direction, false))
    && (id in orders ==> made >= 1)
    && (made >= 2 ==> docs[id].closed)
  }

  /** What one call's events do to the documents of orders. */
  function DocsAfter(docs: map<Hash, OrderDoc>, s: State, c: Call): map<Hash, OrderDoc> {
    if Step(s, c).outcome != Ok then docs
    else if c.MakeOrder? && c.orderId !in docs then
      docs[c.orderId := OrderDoc(c.signer, c.assetId, c.direction, false)]
    else if (c.TakeOrder? || c.CancelOrder?) && c.orderId !in Step(s, c).state.orders && c.orderId in docs then
      docs[c.orderId := docs[c.orderId].(closed := true)]
    else docs
  }

  lemma DealKeepsOrders(idx: Index, e: Event)
    requires e.NewDeal?
    ensures Handle(idx, e).orders == idx.orders
  {
  }

  lemma FinishCloses(idx: Index, id: Hash)
    ensures Handle(idx, OrderFinished(id)).orders ==
            if id in idx.orders then idx.orders[id := idx.orders[id].(closed := true)] else idx.orders
  {
  }

  lemma TakeOrderDocs(idx: Index, s: State, c: Call)
    requires Linked(s) && c.TakeOrder?
    ensures Fed(idx, s, c).orders == DocsAfter(idx.orders, s, c)
  {
    assert OrderLinked(s.assets, s.orders, c.orderId);
    if Step(s, c).outcome == Ok {
      var logged := Deposited(s, c);
      FillEffect(s, c);
      if c.amount < s.orders[c.orderId].leftAmount {
        DealKeepsOrders(idx, logged[0]);
      } else {
        FinishCloses(idx, c.orderId);
        DealKeepsOrders(Handle(idx, logged[0]), logged[1]);
      }
    }
  }

  lemma MakeOrCancelDocs(idx: Index, s: State, c: Call)
    requires c.MakeOrder? || c.CancelOrder?
    requires c.MakeOrder? && Step(s, c).outcome == Ok ==> c.assetId in idx.assets
    ensures Fed(idx, s, c).orders == DocsAfter(idx.orders, s, c)
  {
  }

  lemma OtherCallDocs(idx: Index, s: State, c: Call)
    requires !c.MakeOrder? && !c.TakeOrder? && !c.CancelOrder?
    ensures Fed(idx, s, c).orders == idx.orders
  {
  }

  lemma FedOrders(idx: Index, s: State, c: Call)
    requires Linked(s) && AssetsIndexed(s, idx.assets)
    ensures Fed(idx, s, c).orders == DocsAfter(idx.orders, s, c)
  {
    if c.TakeOrder? {
      TakeOrderDocs(idx, s, c);
    } else if c.MakeOrder? || c.CancelOrder? {
      if c.MakeOrder? {
        assert AssetIndexed(s, idx.assets, c.assetId);
      }
      MakeOrCancelDocs(idx, s, c);
    } else {
      OtherCallDocs(idx, s, c);
    }
  }

  lemma OrderIndexedStep(s: State, c: Call, docs: map<Hash, OrderDoc>, made: nat, id: Hash)
    requires OrderIndexed(s.orders, docs, made, id)
    ensures OrderIndexed(Step(s, c).state.orders, DocsAfter(docs, s, c),
                         made + if Makes(s, c, id) then 1 else 0, id)
  {
    OrderHistory(s, c, id);
    if c.MakeOrder? {
      MakeEffect(s, c);
    } else if c.TakeOrder? || c.CancelOrder? {
      // Only a removal closes the document, and the history of the order says when that is.
    } else {
      // No event touches the documents of orders.
    }
  }

  lemma {:induction false} OrdersAlwaysIndexed(r: Run, id: Hash)
    requires Admissible(r)
    ensures OrderIndexed(After(r).orders, IndexOf(r).orders, TimesMade(r, id), id)
  {
    match r
    case Genesis(_) =>
    case Then(past, c) =>
      OrdersAlwaysIndexed(past, id);
      LinkedAlways(past);
      AssetsAlwaysIndexed(past);
      IndexThen(past, c);
      FedOrders(IndexOf(past), After(past), c);
      OrderIndexedStep(After(past), c, IndexOf(past).orders, TimesMade(past, id), id);
  }

  /** Every order document still open is of an order that is live on chain. */
  lemma OpenDocsAreLive(r: Run, id: Hash)
    requires Admissible(r) && Open(IndexOf(r).orders, id)
    ensures id in After(r).orders
  {
    OrdersAlwaysIndexed(r, id);
  }

  /**
   * Exactly when the open documents are the live orders: if and only if no order is live whose id was
   * made before.
   */
  lemma OpenDocsAreOrdersIff(r: Run)
    requires Admissible(r)
    ensures (forall id :: Open(IndexOf(r).orders, id) <==> id in After(r).orders) <==>
            (forall id :: id in After(r).orders ==> TimesMade(r, id) == 1)
  {
    forall id ensures (Open(IndexOf(r).orders, id) <==> id in After(r).orders) <==>
                      (id in After(r).orders ==> TimesMade(r, id) == 1)
    {
      OrdersAlwaysIndexed(r, id);
    }
  }
}
