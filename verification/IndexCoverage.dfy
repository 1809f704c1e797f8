/** Whether the index knows every account that holds carbon. */
module IndexCoverage {
  import opened U64
  import opened Ledger
  import opened NativeBalances
  import opened Runs
  import opened CarbonAssets
  import opened Integrity
  import opened Effects
  import opened NativeEscrow
  import opened Atomicity
  import opened OrderLife
  import opened EventIndex
  import opened IndexAgreement

  /** Who the call's events let the index know about. */
  function CreditBy(s: State, c: Call): Option<BalanceDoc> {
    if Step(s, c).outcome != Ok then None
    else if c.ApproveAsset? then
      Some(BalanceDoc(s.projects[s.assets[c.assetId].projectId].owner, c.assetId))
    else if c.Transfer? then Some(BalanceDoc(c.to, c.assetId))
    else if c.TakeOrder? then
      var o := s.orders[c.orderId];
      Some(BalanceDoc(if o.direction == ASK then c.signer else o.maker, o.assetId))
    else None
  }

  function Credit(balances: map<string, BalanceDoc>, doc: Option<BalanceDoc>): map<string, BalanceDoc> {
    match doc
    case None => balances
    case Some(d) => balances[Key(d) := d]
  }

  lemma DealCredits(idx: Index, e: Event)
    requires e.NewDeal? && e.assetId in idx.assets
    ensures Handle(idx, e).balances ==
            Credit(idx.balances, Some(BalanceDoc(if e.direction == ASK then e.taker else e.maker, e.assetId)))
  {
  }

  lemma FinishCreditsNobody(idx: Index, id: Hash)
    ensures Handle(idx, OrderFinished(id)).balances == idx.balances
    ensures Handle(idx, OrderFinished(id)).assets == idx.assets
  {
  }

  lemma TakeOrderBalances(idx: Index, s: State, c: Call)
    requires Linked(s) && AssetsIndexed(s, idx.assets) && c.TakeOrder?
    ensures Fed(idx, s, c).balances == Credit(idx.balances, CreditBy(s, c))
  {
    if c.orderId in s.orders {
      assert OrderLinked(s.assets, s.orders, c.orderId);
      assert AssetIndexed(s, idx.assets, s.orders[c.orderId].assetId);
    }
    if Step(s, c).outcome == Ok {
      var logged := Deposited(s, c);
      if |logged| == 1 {
        DealCredits(idx, logged[0]);
      } else {
        FinishCreditsNobody(idx, c.orderId);
        DealCredits(Handle(idx, logged[0]), logged[1]);
      }
    }
  }

  lemma AssetCallBalances(idx: Index, s: State, c: Call)
    requires Linked(s) && AssetsIndexed(s, idx.assets)
    requires c.ApproveAsset? || c.Transfer?
    ensures Fed(idx, s, c).balances == Credit(idx.balances, CreditBy(s, c))
  {
    assert AssetIndexed(s, idx.assets, c.assetId);
    if c.Transfer? && Step(s, c).outcome == Ok {
      BalanceNeedsApproval(s, c.assetId, c.signer);
    }
  }

  lemma OtherCallBalances(idx: Index, s: State, c: Call)
    requires !c.ApproveAsset? && !c.Transfer? && !c.TakeOrder?
    ensures Fed(idx, s, c).balances == idx.balances
  {
  }

  lemma FedBalances(idx: Index, s: State, c: Call)
    requires Linked(s) && AssetsIndexed(s, idx.assets)
    ensures Fed(idx, s, c).balances == Credit(idx.balances, CreditBy(s, c))
  {
    if c.TakeOrder? {
      TakeOrderBalances(idx, s, c);
    } else if c.ApproveAsset? || c.Transfer? {
      AssetCallBalances(idx, s, c);
    } else {
      OtherCallBalances(idx, s, c);
    }
  }

  ghost function BalancesOf(r: Run): map<string, BalanceDoc> {
    IndexOf(r).balances
  }

  lemma BalancesThen(past: Run, c: Call)
    requires Admissible(past)
    ensures BalancesOf(Then(past, c)) == Credit(BalancesOf(past), CreditBy(After(past), c))
  {
    LinkedAlways(past);
    AssetsAlwaysIndexed(past);
    IndexThen(past, c);
    FedBalances(IndexOf(past), After(past), c);
  }

  // ---- truncated keys ----

  predicate Known(balances: map<string, BalanceDoc>, doc: BalanceDoc) {
    Key(doc) in balances && balances[Key(doc)] == doc
  }

  /** The upsert would replace the entry of another account or asset under the same truncated key. */
  predicate Clobbers(balances: map<string, BalanceDoc>, doc: Option<BalanceDoc>) {
    doc.Some? && Key(doc.value) in balances && balances[Key(doc.value)] != doc.value
  }

  ghost predicate NeverClobbers(r: Run) {
    r.Then? ==> NeverClobbers(r.past) && !Clobbers(BalancesOf(r.past), CreditBy(After(r.past), r.call))
  }

  predicate EverCredited(r: Run, doc: BalanceDoc) {
    r.Then? && (EverCredited(r.past, doc) || CreditBy(After(r.past), r.call) == Some(doc))
  }

  /** Different credited pairs of account and asset have different truncated keys. */
  ghost predicate KeysDistinct(r: Run) {
    forall d, e :: EverCredited(r, d) && EverCredited(r, e) && Key(d) == Key(e) ==> d == e
  }

  /** Every entry is under its own key and was credited at some time. */
  ghost predicate EntrySound(r: Run, k: string) {
    k in BalancesOf(r) ==> Key(BalancesOf(r)[k]) == k && EverCredited(r, BalancesOf(r)[k])
  }

  lemma {:induction false} EntriesSound(r: Run, k: string)
    requires Admissible(r)
    ensures EntrySound(r, k)
  {
    if r.Then? {
      EntriesSound(r.past, k);
      BalancesThen(r.past, r.call);
    }
  }

  lemma {:induction false} CreditedStayKnown(r: Run, doc: BalanceDoc)
    requires Admissible(r) && NeverClobbers(r) && EverCredited(r, doc)
    ensures Known(BalancesOf(r), doc)
  {
    BalancesThen(r.past, r.call);
    if EverCredited(r.past, doc) {
      CreditedStayKnown(r.past, doc);
    }
  }

  /** No entry is ever lost to another, if and only if the truncated keys of credited pairs are distinct. */
  lemma {:induction false} NeverClobbersIff(r: Run)
    requires Admissible(r)
    ensures NeverClobbers(r) <==> KeysDistinct(r)
  {
    if NeverClobbers(r) {
      forall d, e | EverCredited(r, d) && EverCredited(r, e) && Key(d) == Key(e) ensures d == e {
        CreditedStayKnown(r, d);
        CreditedStayKnown(r, e);
      }
    }
    if KeysDistinct(r) && r.Then? {
      NeverClobbersIff(r.past);
      var doc := CreditBy(After(r.past), r.call);
      if doc.Some? && Key(doc.value) in BalancesOf(r.past) {
        EntriesSound(r.past, Key(doc.value));
        assert EverCredited(r, BalancesOf(r.past)[Key(doc.value)]) && EverCredited(r, doc.value);
      }
    }
  }

  // ---- coverage ----

  /** How an account other than the pot can come to hold carbon that it did not hold before. */
  ghost predicate GainsSilently(s: State, c: Call, a: Hash, who: AccountId) {
    || (c.ApproveIssue? && HasAsset(s.assets, a) && s.assets[a].projectId in s.projects
        && who == s.projects[s.assets[a].projectId].owner)
    || (c.CancelOrder? && c.orderId in s.orders && s.orders[c.orderId].direction == ASK
        && s.orders[c.orderId].maker == who && s.orders[c.orderId].assetId == a)
  }

  lemma FillGains(s: State, c: Call, a: Hash, who: AccountId)
    requires Linked(s) && Allowed(s, c) && who != POT && c.TakeOrder?
    requires Step(s, c).outcome == Ok
    requires BalanceOf(s.carbon, a, who) == 0 < BalanceOf(Step(s, c).state.carbon, a, who)
    ensures CreditBy(s, c) == Some(BalanceDoc(who, a))
  {
    FillEffect(s, c);
    assert OrderLinked(s.assets, s.orders, c.orderId);
    // The two directions are expanded apart.
    if s.orders[c.orderId].direction == ASK {
    } else {
    }
  }

  lemma OrderCallGains(s: State, c: Call, a: Hash, who: AccountId)
    requires Linked(s) && Allowed(s, c) && who != POT
    requires c.MakeOrder? || c.CancelOrder?
    requires BalanceOf(s.carbon, a, who) == 0 < BalanceOf(Step(s, c).state.carbon, a, who)
    ensures GainsSilently(s, c, a, who)
  {
    if c.CancelOrder? {
      assert OrderLinked(s.assets, s.orders, c.orderId);
    }
  }

  lemma RegistryCallGains(s: State, c: Call, a: Hash, who: AccountId)
    requires Linked(s) && who != POT
    requires !c.MakeOrder? && !c.TakeOrder? && !c.CancelOrder?
    requires BalanceOf(s.carbon, a, who) == 0 < BalanceOf(Step(s, c).state.carbon, a, who)
    ensures CreditBy(s, c) == Some(BalanceDoc(who, a)) || GainsSilently(s, c, a, who)
  {
    if c.ApproveIssue? {
      assert IssueLinked(s.assets, s.issues, c.issueId);
    }
  }

  ghost predicate HolderCredited(r: Run, a: Hash, who: AccountId) {
    who != POT && BalanceOf(After(r).carbon, a, who) > 0 ==> EverCredited(r, BalanceDoc(who, a))
  }

  ghost predicate OwnerCredited(r: Run, a: Hash) {
    var s := After(r);
    HasAsset(s.assets, a) && s.assets[a].projectId in s.projects ==>
      EverCredited(r, BalanceDoc(s.projects[s.assets[a].projectId].owner, a))
  }

  ghost predicate MakerCredited(r: Run, id: Hash) {
    var s := After(r);
    id in s.orders && s.orders[id].direction == ASK ==>
      EverCredited(r, BalanceDoc(s.orders[id].maker, s.orders[id].assetId))
  }

  ghost predicate HoldersCredited(r: Run) {
    forall a, who :: HolderCredited(r, a, who)
  }

  /** Holders, owners of approved assets, and makers of live ASKs have all been credited. */
  ghost predicate AllCredited(r: Run) {
    && HoldersCredited(r)
    && (forall a :: OwnerCredited(r, a))
    && (forall id :: MakerCredited(r, id))
  }

  lemma HolderStep(past: Run, c: Call, a: Hash, who: AccountId)
    requires Admissible(Then(past, c)) && AllCredited(past)
    requires Step(After(past), c).outcome == Ok
    ensures HolderCredited(Then(past, c), a, who)
  {
    var s := After(past);
    LinkedAlways(past);
    assert HolderCredited(past, a, who) && OwnerCredited(past, a);
    if who != POT && BalanceOf(s.carbon, a, who) == 0 < BalanceOf(Step(s, c).state.carbon, a, who) {
      if c.TakeOrder? {
        FillGains(s, c, a, who);
      } else if c.MakeOrder? || c.CancelOrder? {
        OrderCallGains(s, c, a, who);
        assert MakerCredited(past, c.orderId);
      } else {
        RegistryCallGains(s, c, a, who);
      }
    }
  }

  /** An asset approved now was approved before, or its owner is credited by this call. */
  lemma ApprovalCredits(s: State, c: Call, a: Hash)
    requires HasAsset(Step(s, c).state.assets, a) && !HasAsset(s.assets, a)
    ensures c.ApproveAsset? && a == c.assetId && Step(s, c).outcome == Ok
  {
    if !(Step(s, c).outcome == Ok && (c.SubmitAsset? || c.ApproveAsset?)) {
      AssetsChange(s, c);
    }
  }

  lemma OwnerStep(past: Run, c: Call, a: Hash)
    requires Admissible(Then(past, c)) && AllCredited(past)
    ensures OwnerCredited(Then(past, c), a)
  {
    var s, s' := After(past), After(Then(past, c));
    LinkedAlways(past);
    assert OwnerCredited(past, a);
    if HasAsset(s'.assets, a) {
      AssetsPersistStep(s, c, a);
      if !HasAsset(s.assets, a) {
        ApprovalCredits(s, c, a);
      }
      assert AssetLinked(s.projects, s.assets, a);
      ProjectsPersistStep(s, c, s.assets[a].projectId);
    }
  }

  lemma MakerStep(past: Run, c: Call, id: Hash)
    requires Admissible(Then(past, c)) && AllCredited(past)
    ensures MakerCredited(Then(past, c), id)
  {
    var s := After(past);
    OrderHistory(s, c, id);
    assert MakerCredited(past, id);
    if Makes(s, c, id) {
      assert HolderCredited(past, c.assetId, c.signer);
    }
  }

  /**
   * The call is a fill of a BID that passes its own checks, whose payout the pot's account will refuse,
   * and whose maker no event has credited with the asset.
   */
  predicate StrandsUncredited(past: Run, c: Call) {
    && RefusedPayout(After(past), c)
    && var o := After(past).orders[c.orderId];
       !EverCredited(past, BalanceDoc(o.maker, o.assetId))
  }

  lemma FailedHolderStep(past: Run, c: Call, a: Hash, who: AccountId)
    requires Admissible(Then(past, c)) && AllCredited(past)
    requires Step(After(past), c).outcome != Ok && !StrandsUncredited(past, c)
    ensures HolderCredited(Then(past, c), a, who)
  {
    var s := After(past);
    assert HolderCredited(past, a, who);
    if c.TakeOrder? {
      FailedFillEffect(s, c);
      LinkedAlways(past);
      assert OrderLinked(s.assets, s.orders, c.orderId);
    } else if c.MakeOrder? || c.CancelOrder? {
      OrderFailureChangesNothing(s, c);
    } else {
      RegistryFailureChangesNothing(s, c);
    }
  }

  lemma StrandedHolder(past: Run, c: Call)
    requires Admissible(Then(past, c)) && AllCredited(past) && StrandsUncredited(past, c)
    ensures !HoldersCredited(Then(past, c))
  {
    var s := After(past);
    var o := s.orders[c.orderId];
    LinkedAlways(past);
    assert OrderLinked(s.assets, s.orders, c.orderId);
    assert HolderCredited(past, o.assetId, o.maker) && HolderCredited(past, o.assetId, c.signer);
    BalanceAfterTransfer(s.carbon, o.assetId, c.signer, o.maker, c.amount, o.assetId, o.maker);
    assert !HolderCredited(Then(past, c), o.assetId, o.maker);
  }

  lemma CreditedStep(past: Run, c: Call)
    requires Admissible(Then(past, c)) && AllCredited(past) && !StrandsUncredited(past, c)
    ensures AllCredited(Then(past, c))
  {
    forall a, who ensures HolderCredited(Then(past, c), a, who) {
      if Step(After(past), c).outcome == Ok {
        HolderStep(past, c, a, who);
      } else {
        FailedHolderStep(past, c, a, who);
      }
    }
    forall a ensures OwnerCredited(Then(past, c), a) {
      OwnerStep(past, c, a);
    }
    forall id ensures MakerCredited(Then(past, c), id) {
      MakerStep(past, c, id);
    }
  }

  ghost predicate NeverStrands(r: Run) {
    r.Then? ==> NeverStrands(r.past) && !StrandsUncredited(r.past, r.call)
  }

  /** Every account but the pot that holds carbon has its entry. */
  ghost predicate HoldersKnown(r: Run) {
    forall a, who :: who != POT && BalanceOf(After(r).carbon, a, who) > 0 ==>
      Known(BalancesOf(r), BalanceDoc(who, a))
  }

  /** It has after every call of the run. */
  ghost predicate AlwaysHoldersKnown(r: Run) {
    HoldersKnown(r) && (r.Then? ==> AlwaysHoldersKnown(r.past))
  }

  lemma {:induction false} AllAlwaysCredited(r: Run)
    requires Admissible(r) && NeverStrands(r)
    ensures AllCredited(r)
  {
    match r
    case Genesis(_) =>
      forall a, who ensures HolderCredited(r, a, who) {}
      forall a ensures OwnerCredited(r, a) && MakerCredited(r, a) {}
    case Then(past, c) =>
      AllAlwaysCredited(past);
      CreditedStep(past, c);
  }

  /** With distinct keys an entry is in the index just when it was ever credited. */
  lemma KnownIffCredited(r: Run, doc: BalanceDoc)
    requires Admissible(r) && KeysDistinct(r)
    ensures Known(BalancesOf(r), doc) <==> EverCredited(r, doc)
  {
    NeverClobbersIff(r);
    EntriesSound(r, Key(doc));
    if EverCredited(r, doc) {
      CreditedStayKnown(r, doc);
    }
  }

  lemma KeysStayDistinct(past: Run, c: Call)
    requires KeysDistinct(Then(past, c))
    ensures KeysDistinct(past)
  {
    forall d, e | EverCredited(past, d) && EverCredited(past, e) && Key(d) == Key(e) ensures d == e {
      assert EverCredited(Then(past, c), d) && EverCredited(Then(past, c), e);
    }
  }

  lemma KnownMeansCredited(r: Run)
    requires Admissible(r) && KeysDistinct(r)
    ensures HoldersKnown(r) <==> HoldersCredited(r)
  {
    forall a, who ensures Known(BalancesOf(r), BalanceDoc(who, a)) <==> EverCredited(r, BalanceDoc(who, a)) {
      KnownIffCredited(r, BalanceDoc(who, a));
    }
    if HoldersKnown(r) {
      forall a, who ensures HolderCredited(r, a, who) {}
    } else {
      var a, who :| who != POT && BalanceOf(After(r).carbon, a, who) > 0 && !Known(BalancesOf(r), BalanceDoc(who, a));
      assert !HolderCredited(r, a, who);
    }
  }

  /**
   * Coverage, with distinct keys: after every call of the run each account but the pot that holds carbon
   * has its entry, makers refunded by a cancel and owners paid by an issue included, if and only if no
   * refused payout left carbon with a maker that no event had credited.
   */
  lemma {:induction false} HoldersKnownIff(r: Run)
    requires Admissible(r) && KeysDistinct(r)
    ensures AlwaysHoldersKnown(r) <==> NeverStrands(r)
  {
    KnownMeansCredited(r);
    match r
    case Genesis(_) =>
      AllAlwaysCredited(r);
    case Then(past, c) =>
      KeysStayDistinct(past, c);
      HoldersKnownIff(past);
      if NeverStrands(r) {
        AllAlwaysCredited(r);
      } else if NeverStrands(past) {
        AllAlwaysCredited(past);
        StrandedHolder(past, c);
      }
  }

  // ---- over endowed runs ----

  /** The same in terms of balances: somebody else's BID, filled for less than makes the taker's account live. */
  predicate UnderpaysUncredited(past: Run, c: Call) {
    && PayoutTooSmall(After(past), c)
    && var o := After(past).orders[c.orderId];
       c.signer != o.maker && !EverCredited(past, BalanceDoc(o.maker, o.assetId))
  }

  lemma StrandsIffUnderpays(past: Run, c: Call)
    requires Endowed(past) && Allowed(After(past), c) && AllCredited(past)
    ensures StrandsUncredited(past, c) <==> UnderpaysUncredited(past, c)
  {
    RefusedIffTooSmall(past, c);
    if c.TakeOrder? && c.orderId in After(past).orders {
      LinkedAlways(past);
      assert HolderCredited(past, After(past).orders[c.orderId].assetId, c.signer);
    }
  }

  ghost predicate NeverUnderpays(r: Run) {
    r.Then? ==> NeverUnderpays(r.past) && !UnderpaysUncredited(r.past, r.call)
  }

  lemma {:induction false} NeverStrandsIff(r: Run)
    requires Endowed(r)
    ensures NeverStrands(r) <==> NeverUnderpays(r)
  {
    if r.Then? {
      NeverStrandsIff(r.past);
      if NeverStrands(r.past) {
        AllAlwaysCredited(r.past);
        StrandsIffUnderpays(r.past, r.call);
      }
    }
  }

  /**
   * Over an endowed run with distinct keys: every holder has its entry after every call if and only if
   * nobody filled the BID of an uncredited maker for a payment too small for the taker's own account.
   */
  lemma EndowedHoldersKnownIff(r: Run)
    requires Endowed(r) && KeysDistinct(r)
    ensures AlwaysHoldersKnown(r) <==> NeverUnderpays(r)
  {
    HoldersKnownIff(r);
    NeverStrandsIff(r);
  }

  /** In particular it is enough that every payout could be received. */
  lemma {:induction false} ReachablePayoutsNeverStrand(r: Run)
    requires PayoutsReachable(r)
    ensures NeverUnderpays(r)
  {
    if r.Then? {
      ReachablePayoutsNeverStrand(r.past);
    }
  }

  // ---- by the texts themselves ----

  /** Every account that was ever credited has a text of at least six characters, as addresses have. */
  ghost predicate LongAccounts(r: Run) {
    forall d :: EverCredited(r, d) ==> |d.account.text| >= 6
  }

  /** No two credited pairs begin alike in both texts, the account's first 6 characters and the asset's first 8. */
  ghost predicate TextsDistinct(r: Run) {
    forall d, e :: EverCredited(r, d) && EverCredited(r, e) && SameTexts(d, e) ==> d == e
  }

  lemma KeysDistinctIff(r: Run)
    requires LongAccounts(r)
    ensures KeysDistinct(r) <==> TextsDistinct(r)
  {
    forall d, e | EverCredited(r, d) && EverCredited(r, e) ensures Key(d) == Key(e) <==> SameTexts(d, e) {
      SameKeyIff(d, e);
    }
  }

  /** Entries never replace each other if and only if no two credited pairs begin alike. */
  lemma NeverClobbersTextsIff(r: Run)
    requires Admissible(r) && LongAccounts(r)
    ensures NeverClobbers(r) <==> TextsDistinct(r)
  {
    NeverClobbersIff(r);
    KeysDistinctIff(r);
  }

  /** Coverage by the texts. */
  lemma HoldersKnownTextsIff(r: Run)
    requires Admissible(r) && LongAccounts(r) && TextsDistinct(r)
    ensures AlwaysHoldersKnown(r) <==> NeverStrands(r)
  {
    KeysDistinctIff(r);
    HoldersKnownIff(r);
  }
}
