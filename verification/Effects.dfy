/** What single exchange calls leave in the storage, stated once for the proofs about runs. */
module Effects {
  import opened U64
  import opened Ledger
  import opened NativeBalances
  import opened Runs
  import CX = CarbonExchange

  ghost predicate SameRegistry(s: State, s': State) {
    s'.projects == s.projects && s'.assets == s.assets && s'.issues == s.issues && s'.burns == s.burns
  }

  /** The order as a fill that costs `money` writes it back, before its amount is lowered. */
  function Paid(o: Order, money: u64): Order {
    if o.direction == ASK then o else o.(lockedBalance := Sub(o.lockedBalance, money))
  }

  /** Where the carbon of a fill comes from and goes to. */
  function Giver(o: Order, taker: AccountId): AccountId {
    if o.direction == ASK then POT else taker
  }

  function Receiver(o: Order, taker: AccountId): AccountId {
    if o.direction == ASK then taker else o.maker
  }

  /** And its money. */
  function Payer(o: Order, taker: AccountId): AccountId {
    if o.direction == ASK then taker else POT
  }

  function Payee(o: Order, taker: AccountId): AccountId {
    if o.direction == ASK then o.maker else taker
  }

  lemma FillEffect(s: State, c: Call)
    requires c.TakeOrder? && Step(s, c).outcome == Ok
    ensures c.orderId in s.orders && c.amount <= s.orders[c.orderId].leftAmount
    ensures var s', o := Step(s, c).state, s.orders[c.orderId];
            var money := SaturatingMul(c.amount, o.price);
            && c.amount <= BalanceOf(s.carbon, o.assetId, Giver(o, c.signer))
            && s'.carbon == MakeTransfer(s.carbon, o.assetId, Giver(o, c.signer), Receiver(o, c.signer), c.amount)
            && s'.orders == CX.BookAfterFill(s.orders, c.orderId, Paid(o, money), c.amount)
            && SameRegistry(s, s')
            && MakePayment(s.native, Payer(o, c.signer), Payee(o, c.signer), money,
                           o.direction == ASK && c.restricted) == Moved(s'.native)
  {
    // The two directions are expanded apart.
    if s.orders[c.orderId].direction == ASK {
    } else {
    }
  }

  /** A failed fill leaves all but the carbon, and the carbon too unless a payout was refused. */
  lemma FailedFillEffect(s: State, c: Call)
    requires c.TakeOrder? && Step(s, c).outcome != Ok
    ensures var s' := Step(s, c).state;
            && s' == s.(carbon := s'.carbon)
            && (s'.carbon != s.carbon ==>
                  && c.orderId in s.orders
                  && var o := s.orders[c.orderId];
                     && o.direction != ASK
                     && c.amount <= o.leftAmount
                     && c.amount <= BalanceOf(s.carbon, o.assetId, c.signer)
                     && s'.carbon == MakeTransfer(s.carbon, o.assetId, c.signer, o.maker, c.amount))
  {
  }

  /** The order that a call to make one puts in the book. */
  function MadeOrder(c: Call): Order
    requires c.MakeOrder?
  {
    Order(c.assetId, c.moneyId, c.signer, c.amount, c.price, c.amount, c.direction,
          if c.direction == ASK then 0 else SaturatingMul(c.amount, c.price))
  }

  lemma MakeEffect(s: State, c: Call)
    requires c.MakeOrder?
    ensures Step(s, c).outcome != Ok ==> Step(s, c).state == s
    ensures Step(s, c).outcome == Ok ==>
              var s' := Step(s, c).state;
              && c.orderId !in s.orders && c.price > 0 && c.amount > 0
              && (c.direction == ASK || c.direction == BID)
              && s'.orders == s.orders[c.orderId := MadeOrder(c)]
              && SameRegistry(s, s')
    ensures Step(s, c).outcome == Ok && c.direction == ASK ==>
              var s' := Step(s, c).state;
              && c.amount <= BalanceOf(s.carbon, c.assetId, c.signer)
              && s'.carbon == MakeTransfer(s.carbon, c.assetId, c.signer, POT, c.amount)
              && s'.native == s.native
    ensures Step(s, c).outcome == Ok && c.direction == BID ==>
              var s', paid := Step(s, c).state,
                  MakePayment(s.native, c.signer, POT, SaturatingMul(c.amount, c.price), c.restricted);
              s'.carbon == s.carbon && paid == Moved(s'.native)
  {
    // The two directions, and the failures, are expanded apart.
    if Step(s, c).outcome != Ok {
    } else if c.direction == ASK {
    } else {
    }
  }

  lemma CancelEffect(s: State, c: Call)
    requires c.CancelOrder?
    ensures Step(s, c).outcome != Ok ==> Step(s, c).state == s
    ensures Step(s, c).outcome == Ok ==>
              && c.orderId in s.orders
              && var s', o := Step(s, c).state, s.orders[c.orderId];
                 && o.maker == c.signer
                 && s'.orders == s.orders - {c.orderId}
                 && SameRegistry(s, s')
                 && (o.direction == ASK ==>
                       && s'.carbon == MakeTransfer(s.carbon, o.assetId, POT, c.signer, o.leftAmount)
                       && s'.native == s.native)
                 && (o.direction != ASK ==>
                       && s'.carbon == s.carbon
                       && MakePayment(s.native, POT, c.signer, o.lockedBalance, false) == Moved(s'.native))
  {
  }

  /** The exchange only trades what the registry holds. */
  lemma ExchangeLeavesRegistry(s: State, c: Call)
    requires c.MakeOrder? || c.TakeOrder? || c.CancelOrder?
    ensures SameRegistry(s, Step(s, c).state)
  {
    if c.MakeOrder? {
      MakeEffect(s, c);
    } else if c.CancelOrder? {
      CancelEffect(s, c);
    } else if Step(s, c).outcome == Ok {
      FillEffect(s, c);
    } else {
      FailedFillEffect(s, c);
    }
  }

  // ---- what the registry's simpler calls leave alone ----

  lemma ProjectCallEffect(s: State, c: Call)
    requires c.SubmitProject? || c.ApproveProject?
    ensures var s' := Step(s, c).state;
            s' == s.(projects := s'.projects, events := s'.events)
  {
  }

  lemma SubmissionEffect(s: State, c: Call)
    requires c.SubmitAsset? || c.SubmitIssue?
    ensures var s' := Step(s, c).state;
            s' == s.(assets := s'.assets, issues := s'.issues, events := s'.events)
    ensures c.SubmitAsset? ==> Step(s, c).state.issues == s.issues
    ensures c.SubmitIssue? ==> Step(s, c).state.assets == s.assets
  {
  }

  lemma BalanceCallEffect(s: State, c: Call)
    requires c.SubmitBurn? || c.Transfer? || c.Neutralize? || c.OtherPallets?
    ensures var s' := Step(s, c).state;
            s' == s.(burns := s'.burns, carbon := s'.carbon, native := s'.native, events := s'.events)
  {
  }
}
