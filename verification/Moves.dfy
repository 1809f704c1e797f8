/** Who gives and who receives in each call, and what that does to every balance and every record. */
module Moves {
  import opened U64
  import opened Ledger
  import opened NativeBalances
  import opened Runs
  import opened Integrity
  import opened Effects
  import opened Answers

  // ---- carbon ----

  datatype CarbonMove =
    | Still
    | Mint(assetId: Hash, to: AccountId, amount: u64)
    | Retire(assetId: Hash, from: AccountId, amount: u64)
    | Send(assetId: Hash, from: AccountId, to: AccountId, amount: u64)

  function OwnerOf(s: State, a: Hash): AccountId
    requires HasParent(s, a)
  {
    s.projects[s.assets[a].projectId].owner
  }

  /** A fill of a BID sends its carbon before it is paid for, and so even if it is not. */
  function FillMove(s: State, taker: AccountId, o: Order, amount: u64, answer: Outcome): CarbonMove {
    if o.direction == 0 then
      if answer == Ok then Send(o.assetId, POT, taker, amount) else Still
    else
      if amount <= o.leftAmount && amount <= BalanceOf(s.carbon, o.assetId, taker)
      then Send(o.assetId, taker, o.maker, amount) else Still
  }

  function Movement(s: State, c: Call): CarbonMove {
    var ok := Answer(s, c) == Ok;
    match c
    case ApproveAsset(_, a) => if ok then Mint(a, OwnerOf(s, a), s.assets[a].initialSupply) else Still
    case ApproveIssue(_, id) =>
      if ok then Mint(s.issues[id].assetId, OwnerOf(s, s.issues[id].assetId), s.issues[id].amount) else Still
    case SubmitBurn(signer, a, amount, _) => if ok then Retire(a, signer, amount) else Still
    case Neutralize(signer, a, amount) => if ok then Retire(a, signer, amount) else Still
    case Transfer(signer, a, to, amount) => if ok then Send(a, signer, to, amount) else Still
    case MakeOrder(signer, a, _, _, amount, direction, _, _) =>
      if ok && direction == 0 then Send(a, signer, POT, amount) else Still
    case TakeOrder(signer, id, amount, _) =>
      if id in s.orders then FillMove(s, signer, s.orders[id], amount, Answer(s, c)) else Still
    case CancelOrder(signer, id) =>
      if ok && s.orders[id].direction == 0 then Send(s.orders[id].assetId, POT, signer, s.orders[id].leftAmount)
      else Still
    case _ => Still
  }

  function Received(m: CarbonMove, a: Hash, who: AccountId): int {
    if (m.Mint? || m.Send?) && m.assetId == a && m.to == who then m.amount else 0
  }

  function Given(m: CarbonMove, a: Hash, who: AccountId): int {
    if (m.Retire? || m.Send?) && m.assetId == a && m.from == who then m.amount else 0
  }

  /** The account is the owner that the approval of an asset endows. */
  predicate Endows(s: State, c: Call, a: Hash, who: AccountId) {
    c.ApproveAsset? && c.assetId == a && Answer(s, c) == Ok && who == OwnerOf(s, a)
  }

  /** The balance is what it was, plus what the account received, less what it gave, wrapping at most once. */
  ghost predicate BalanceMoves(s: State, c: Call, a: Hash, who: AccountId) {
    BalanceOf(Step(s, c).state.carbon, a, who) ==
    Wrapped(BalanceOf(s.carbon, a, who) + Received(Movement(s, c), a, who) - Given(Movement(s, c), a, who))
  }

  lemma SendMoves(b: Carbon, a: Hash, from: AccountId, to: AccountId, amount: u64, a': Hash, who: AccountId)
    ensures var m := Send(a, from, to, amount);
            BalanceOf(MakeTransfer(b, a, from, to, amount), a', who) ==
            Wrapped(BalanceOf(b, a', who) + Received(m, a', who) - Given(m, a', who))
  {
  }

  /** The approval of an asset overwrites its owner's balance, and moves nobody else's. */
  lemma EndowmentMoves(s: State, c: Call, a: Hash, who: AccountId)
    requires c.ApproveAsset?
    ensures if Endows(s, c, a, who) then BalanceOf(Step(s, c).state.carbon, a, who) == s.assets[a].initialSupply
            else BalanceMoves(s, c, a, who)
  {
    ApprovalAnswers(s, c);
  }

  lemma ApprovalMoves(s: State, c: Call, a: Hash, who: AccountId)
    requires c.ApproveIssue? || c.ApproveBurn?
    ensures BalanceMoves(s, c, a, who)
  {
    ApprovalAnswers(s, c);
    if c.ApproveIssue? {
      // The owner's balance rises; nobody else's moves.
    } else {
      // A burn took its units when it was submitted.
    }
  }

  lemma BurnMovesUnits(s: State, c: Call, a: Hash, who: AccountId)
    requires c.SubmitBurn?
    ensures BalanceMoves(s, c, a, who)
  {
    SubmissionAnswers(s, c);
  }

  lemma TransferMovesUnits(s: State, c: Call, a: Hash, who: AccountId)
    requires c.Transfer?
    ensures BalanceMoves(s, c, a, who)
  {
    UnitAnswers(s, c);
    SendMoves(s.carbon, c.assetId, c.signer, c.to, c.amount, a, who);
  }

  lemma NeutralizeMovesUnits(s: State, c: Call, a: Hash, who: AccountId)
    requires c.Neutralize?
    ensures BalanceMoves(s, c, a, who)
  {
    UnitAnswers(s, c);
  }

  lemma MakeOrderMove(s: State, c: Call, a: Hash, who: AccountId)
    requires c.MakeOrder?
    ensures BalanceMoves(s, c, a, who)
  {
    MakeAnswers(s, c);
    MakeEffect(s, c);
    SendMoves(s.carbon, c.assetId, c.signer, POT, c.amount, a, who);
  }

  lemma FilledMove(s: State, c: Call, a: Hash, who: AccountId)
    requires c.TakeOrder? && Step(s, c).outcome == Ok == ExchangeAnswer(s, c)
    ensures BalanceMoves(s, c, a, who)
  {
    var o := s.orders[c.orderId];
    FillEffect(s, c);
    SendMoves(s.carbon, o.assetId, Giver(o, c.signer), Receiver(o, c.signer), c.amount, a, who);
  }

  lemma RefusedMove(s: State, c: Call, a: Hash, who: AccountId)
    requires c.TakeOrder? && Step(s, c).outcome == ExchangeAnswer(s, c) != Ok
    ensures BalanceMoves(s, c, a, who)
  {
    if c.orderId in s.orders {
      var o := s.orders[c.orderId];
      SendMoves(s.carbon, o.assetId, c.signer, o.maker, c.amount, a, who);
    }
  }

  lemma TakeOrderMove(s: State, c: Call, a: Hash, who: AccountId)
    requires c.TakeOrder?
    ensures BalanceMoves(s, c, a, who)
  {
    TakeAnswers(s, c);
    if Step(s, c).outcome == Ok {
      FilledMove(s, c, a, who);
    } else {
      RefusedMove(s, c, a, who);
    }
  }

  lemma CancelOrderMove(s: State, c: Call, a: Hash, who: AccountId)
    requires c.CancelOrder?
    ensures BalanceMoves(s, c, a, who)
  {
    CancelAnswers(s, c);
    CancelEffect(s, c);
    if c.orderId in s.orders {
      var o := s.orders[c.orderId];
      SendMoves(s.carbon, o.assetId, POT, c.signer, o.leftAmount, a, who);
    }
  }

  /** What every call does to every carbon balance, in any state, failed calls included. */
  lemma CarbonMoves(s: State, c: Call, a: Hash, who: AccountId)
    ensures if Endows(s, c, a, who) then BalanceOf(Step(s, c).state.carbon, a, who) == s.assets[a].initialSupply
            else BalanceMoves(s, c, a, who)
  {
    if c.MakeOrder? {
      MakeOrderMove(s, c, a, who);
    } else if c.TakeOrder? {
      TakeOrderMove(s, c, a, who);
    } else if c.CancelOrder? {
      CancelOrderMove(s, c, a, who);
    } else if c.ApproveAsset? {
      EndowmentMoves(s, c, a, who);
    } else if c.ApproveIssue? || c.ApproveBurn? {
      ApprovalMoves(s, c, a, who);
    } else if c.SubmitBurn? {
      BurnMovesUnits(s, c, a, who);
    } else if c.Transfer? {
      TransferMovesUnits(s, c, a, who);
    } else if c.Neutralize? {
      NeutralizeMovesUnits(s, c, a, who);
    } else {
      NothingMoves(s, c, a, who);
    }
  }

  lemma NothingMoves(s: State, c: Call, a: Hash, who: AccountId)
    requires c.SubmitProject? || c.ApproveProject? || c.SubmitAsset? || c.SubmitIssue? || c.OtherPallets?
    ensures BalanceMoves(s, c, a, who)
  {
    if c.SubmitProject? || c.ApproveProject? {
      ProjectCallEffect(s, c);
    } else if c.SubmitAsset? || c.SubmitIssue? {
      SubmissionEffect(s, c);
    }
  }

  /** In a linked state that overwrite is a mint like any other. */
  lemma LinkedCarbonMoves(s: State, c: Call, a: Hash, who: AccountId)
    requires Linked(s)
    ensures BalanceMoves(s, c, a, who)
  {
    CarbonMoves(s, c, a, who);
    if Endows(s, c, a, who) {
      assert BalanceLinked(s.assets, s.carbon, a, who);
    }
  }

  // ---- native money ----

  datatype NativeMove = Unpaid | Pays(from: AccountId, to: AccountId, value: u64)

  function Payment(s: State, c: Call): NativeMove {
    if !OfExchange(c) || Answer(s, c) != Ok then Unpaid else
      match c
      case MakeOrder(signer, _, _, price, amount, direction, _, _) =>
        if direction == 1 then Pays(signer, POT, Clipped(amount, price)) else Unpaid
      case TakeOrder(signer, id, amount, _) =>
        var o := s.orders[id];
        if o.direction == 0 then Pays(signer, o.maker, Clipped(amount, o.price))
        else Pays(POT, signer, Clipped(amount, o.price))
      case CancelOrder(signer, id) =>
        if s.orders[id].direction == 0 then Unpaid else Pays(POT, signer, s.orders[id].lockedBalance)
  }

  /** What is left of an account that a payment takes below the existential deposit is gone. */
  function AfterPaying(free: int, value: int): int {
    if free - value < 500 then 0 else free - value
  }

  function FreeAfter(free: int, m: NativeMove, who: AccountId): int {
    if m.Unpaid? || m.value == 0 || m.from == m.to then free
    else if who == m.from then AfterPaying(free, m.value)
    else if who == m.to then free + m.value
    else free
  }

  lemma PaymentMoves(m: Accounts, from: AccountId, to: AccountId, value: u64, restricted: bool, who: AccountId)
    requires MakePayment(m, from, to, value, restricted).Moved?
    ensures Free(MakePayment(m, from, to, value, restricted).accounts, who) ==
            FreeAfter(Free(m, who), Pays(from, to, value), who)
  {
  }

  /** What every call does to the native money of every account, failed calls included. */
  lemma NativeMoves(s: State, c: Call, who: AccountId)
    requires !c.OtherPallets?
    ensures Free(Step(s, c).state.native, who) == FreeAfter(Free(s.native, who), Payment(s, c), who)
  {
    CallsAnswer(s, c);
    if c.MakeOrder? {
      MakeEffect(s, c);
      if Step(s, c).outcome == Ok && c.direction == 1 {
        PaymentMoves(s.native, c.signer, POT, Clipped(c.amount, c.price), c.restricted, who);
      }
    } else if c.TakeOrder? {
      TakeOrderPays(s, c, who);
    } else if c.CancelOrder? {
      CancelEffect(s, c);
      if Step(s, c).outcome == Ok && s.orders[c.orderId].direction != 0 {
        PaymentMoves(s.native, POT, c.signer, s.orders[c.orderId].lockedBalance, false, who);
      }
    } else {
      NativeUntouched(s, c);
    }
  }

  lemma NativeUntouched(s: State, c: Call)
    requires !OfExchange(c) && !c.OtherPallets?
    ensures Step(s, c).state.native == s.native
  {
    if c.SubmitProject? || c.ApproveProject? {
      ProjectCallEffect(s, c);
    } else if c.SubmitAsset? || c.SubmitIssue? {
      SubmissionEffect(s, c);
    } else if c.ApproveAsset? || c.ApproveIssue? || c.ApproveBurn? {
    } else {
    }
  }

  lemma TakeOrderPays(s: State, c: Call, who: AccountId)
    requires c.TakeOrder? && Step(s, c).outcome == ExchangeAnswer(s, c)
    ensures Free(Step(s, c).state.native, who) == FreeAfter(Free(s.native, who), Payment(s, c), who)
  {
    if Step(s, c).outcome == Ok {
      var o := s.orders[c.orderId];
      FillEffect(s, c);
      PaymentMoves(s.native, Payer(o, c.signer), Payee(o, c.signer), Clipped(c.amount, o.price),
                   o.direction == 0 && c.restricted, who);
    } else {
      FailedFillEffect(s, c);
    }
  }

  // ---- records ----

  /** The call approves what `hit` says is its object. */
  predicate Approves(s: State, c: Call, hit: bool) {
    hit && Answer(s, c) == Ok
  }

  /** Units that the call puts on the counters of asset `a` as an issue, and takes off as a burn. */
  function IssuedBy(s: State, c: Call, a: Hash): int {
    if c.ApproveIssue? && Answer(s, c) == Ok && s.issues[c.issueId].assetId == a then s.issues[c.issueId].amount else 0
  }

  function BurntFrom(s: State, c: Call, a: Hash): int {
    if c.ApproveBurn? && Answer(s, c) == Ok && s.burns[c.burnId].assetId == a then s.burns[c.burnId].amount else 0
  }

  /** The same for a project, through the asset that the approval is about. */
  function IssuedIn(s: State, c: Call, p: Hash): int {
    if c.ApproveIssue? && Answer(s, c) == Ok && s.assets[s.issues[c.issueId].assetId].projectId == p
    then s.issues[c.issueId].amount else 0
  }

  function BurntIn(s: State, c: Call, p: Hash): int {
    if c.ApproveBurn? && Answer(s, c) == Ok && s.assets[s.burns[c.burnId].assetId].projectId == p
    then s.burns[c.burnId].amount else 0
  }

  /** The project is stored by its submission; approval turns its status; issues and burns move its counter. */
  ghost predicate ProjectMoves(s: State, c: Call, p: Hash) {
    var projects' := Step(s, c).state.projects;
    && (p in projects' <==> p in s.projects || (c.SubmitProject? && c.projectId == p))
    && (p !in s.projects && p in projects' ==> projects'[p] == Project(c.maxSupply, 0, Submitted, c.signer))
    && (p in s.projects ==>
          && projects'[p].maxSupply == s.projects[p].maxSupply
          && projects'[p].owner == s.projects[p].owner
          && projects'[p].totalSupply == Wrapped(s.projects[p].totalSupply + IssuedIn(s, c, p) - BurntIn(s, c, p))
          && (projects'[p].status == Approved <==>
                s.projects[p].status == Approved || Approves(s, c, c.ApproveProject? && c.projectId == p)))
  }

  /** The asset is stored by its submission; approval gives it its initial supply. */
  ghost predicate AssetMoves(s: State, c: Call, a: Hash) {
    var assets' := Step(s, c).state.assets;
    var approves := Approves(s, c, c.ApproveAsset? && c.assetId == a);
    && (a in assets' <==> a in s.assets || (c.SubmitAsset? && c.assetId == a && Answer(s, c) == Ok))
    && (a !in s.assets && a in assets' ==> assets'[a] == Asset(c.projectId, c.initialSupply, 0, Submitted))
    && (a in s.assets ==>
          && assets'[a].projectId == s.assets[a].projectId
          && assets'[a].initialSupply == s.assets[a].initialSupply
          && (assets'[a].status == Approved <==> s.assets[a].status == Approved || approves)
          && assets'[a].totalSupply ==
             (if approves then s.assets[a].initialSupply
              else Wrapped(s.assets[a].totalSupply + IssuedBy(s, c, a) - BurntFrom(s, c, a))))
  }

  ghost predicate IssueMoves(s: State, c: Call, i: Hash) {
    var issues' := Step(s, c).state.issues;
    && (i in issues' <==> i in s.issues || (c.SubmitIssue? && c.issueId == i && Answer(s, c) == Ok))
    && (i !in s.issues && i in issues' ==> issues'[i] == IssueInfo(c.assetId, c.amount, Submitted))
    && (i in s.issues ==>
          issues'[i] == IssueInfo(s.issues[i].assetId, s.issues[i].amount,
                                  if Approves(s, c, c.ApproveIssue? && c.issueId == i) then Approved
                                  else s.issues[i].status))
  }

  /** A burn is stored by any submission under its id, over what was there. */
  ghost predicate BurnMoves(s: State, c: Call, b: Hash) {
    var burns' := Step(s, c).state.burns;
    var submitted := c.SubmitBurn? && c.burnId == b && Answer(s, c) == Ok;
    && (b in burns' <==> b in s.burns || submitted)
    && (submitted ==> burns'[b] == BurnInfo(c.assetId, c.amount, Submitted))
    && (b in s.burns && !submitted ==>
          burns'[b] == BurnInfo(s.burns[b].assetId, s.burns[b].amount,
                                if Approves(s, c, c.ApproveBurn? && c.burnId == b) then Approved
                                else s.burns[b].status))
  }

  ghost predicate RecordMoves(s: State, c: Call, k: Hash) {
    ProjectMoves(s, c, k) && AssetMoves(s, c, k) && IssueMoves(s, c, k) && BurnMoves(s, c, k)
  }

  lemma SubmitProjectRecords(s: State, c: Call, k: Hash)
    requires c.SubmitProject?
    ensures RecordMoves(s, c, k)
  {
    SubmissionAnswers(s, c);
    ProjectCallEffect(s, c);
  }

  lemma ApproveProjectRecords(s: State, c: Call, k: Hash)
    requires c.ApproveProject?
    ensures RecordMoves(s, c, k)
  {
    ApprovalAnswers(s, c);
    ProjectCallEffect(s, c);
  }

  lemma SubmitAssetRecords(s: State, c: Call, k: Hash)
    requires c.SubmitAsset?
    ensures RecordMoves(s, c, k)
  {
    SubmissionAnswers(s, c);
    SubmissionEffect(s, c);
  }

  lemma SubmitIssueRecords(s: State, c: Call, k: Hash)
    requires c.SubmitIssue?
    ensures RecordMoves(s, c, k)
  {
    SubmissionAnswers(s, c);
    SubmissionEffect(s, c);
  }

  lemma SubmitBurnRecords(s: State, c: Call, k: Hash)
    requires c.SubmitBurn?
    ensures RecordMoves(s, c, k)
  {
    SubmissionAnswers(s, c);
    BalanceCallEffect(s, c);
  }

  lemma ApproveAssetAsset(s: State, c: Call, k: Hash)
    requires c.ApproveAsset?
    ensures AssetMoves(s, c, k)
  {
    ApprovalAnswers(s, c);
  }

  lemma ApproveAssetRecords(s: State, c: Call, k: Hash)
    requires c.ApproveAsset?
    ensures RecordMoves(s, c, k)
  {
    ApproveAssetAsset(s, c, k);
    EndowmentLeavesRest(s, c);
  }

  lemma EndowmentLeavesRest(s: State, c: Call)
    requires c.ApproveAsset?
    ensures var s' := Step(s, c).state;
            s'.projects == s.projects && s'.issues == s.issues && s'.burns == s.burns
  {
  }

  lemma ApproveIssueProject(s: State, c: Call, k: Hash)
    requires c.ApproveIssue?
    ensures ProjectMoves(s, c, k)
  {
    ApprovalAnswers(s, c);
  }

  lemma ApproveIssueAsset(s: State, c: Call, k: Hash)
    requires c.ApproveIssue?
    ensures AssetMoves(s, c, k)
  {
    ApprovalAnswers(s, c);
  }

  lemma ApproveIssueRecords(s: State, c: Call, k: Hash)
    requires c.ApproveIssue?
    ensures RecordMoves(s, c, k)
  {
    ApproveIssueProject(s, c, k);
    ApproveIssueAsset(s, c, k);
    assert IssueMoves(s, c, k) && BurnMoves(s, c, k) by {
      ApprovalAnswers(s, c);
    }
  }

  lemma ApproveBurnProject(s: State, c: Call, k: Hash)
    requires c.ApproveBurn?
    ensures ProjectMoves(s, c, k)
  {
    ApprovalAnswers(s, c);
  }

  lemma ApproveBurnAsset(s: State, c: Call, k: Hash)
    requires c.ApproveBurn?
    ensures AssetMoves(s, c, k)
  {
    ApprovalAnswers(s, c);
  }

  lemma ApproveBurnRecords(s: State, c: Call, k: Hash)
    requires c.ApproveBurn?
    ensures RecordMoves(s, c, k)
  {
    ApproveBurnProject(s, c, k);
    ApproveBurnAsset(s, c, k);
    assert IssueMoves(s, c, k) && BurnMoves(s, c, k) by {
      ApprovalAnswers(s, c);
    }
  }

  lemma RegistryUntouched(s: State, c: Call)
    requires OfExchange(c) || c.Transfer? || c.Neutralize? || c.OtherPallets?
    ensures SameRegistry(s, Step(s, c).state)
  {
    if OfExchange(c) {
      ExchangeLeavesRegistry(s, c);
    } else {
      BalanceCallEffect(s, c);
      UnitsLeaveBurns(s, c);
    }
  }

  lemma UnitsLeaveBurns(s: State, c: Call)
    requires c.Transfer? || c.Neutralize? || c.OtherPallets?
    ensures Step(s, c).state.burns == s.burns
  {
  }

  lemma OtherRecords(s: State, c: Call, k: Hash)
    requires OfExchange(c) || c.Transfer? || c.Neutralize? || c.OtherPallets?
    ensures RecordMoves(s, c, k)
  {
    RegistryUntouched(s, c);
  }

  /** What every call does to every record of the registry, in any state. */
  lemma RecordsMove(s: State, c: Call, k: Hash)
    ensures RecordMoves(s, c, k)
  {
    match c
    case SubmitProject(_, _, _) => SubmitProjectRecords(s, c, k);
    case ApproveProject(_, _) => ApproveProjectRecords(s, c, k);
    case SubmitAsset(_, _, _, _) => SubmitAssetRecords(s, c, k);
    case SubmitIssue(_, _, _, _) => SubmitIssueRecords(s, c, k);
    case SubmitBurn(_, _, _, _) => SubmitBurnRecords(s, c, k);
    case ApproveAsset(_, _) => ApproveAssetRecords(s, c, k);
    case ApproveIssue(_, _) => ApproveIssueRecords(s, c, k);
    case ApproveBurn(_, _) => ApproveBurnRecords(s, c, k);
    case _ => OtherRecords(s, c, k);
  }

  /** The order as made; a fill lowers what is left and what is locked; a last fill or a cancel removes it. */
  ghost predicate OrderMoves(s: State, c: Call, id: Hash) {
    var orders' := Step(s, c).state.orders;
    var ok := Answer(s, c) == Ok;
    var made := c.MakeOrder? && c.orderId == id && ok;
    var filled := c.TakeOrder? && c.orderId == id && ok;
    && (id in orders' <==>
          || made
          || (id in s.orders && !(filled && c.amount == s.orders[id].leftAmount)
              && !(c.CancelOrder? && c.orderId == id && ok)))
    && (made ==>
          orders'[id] == Order(c.assetId, c.moneyId, c.signer, c.amount, c.price, c.amount, c.direction,
                               if c.direction == 1 then Clipped(c.amount, c.price) else 0))
    && (id in s.orders && id in orders' && !made ==>
          var o, o' := s.orders[id], orders'[id];
          && o' == o.(leftAmount := o'.leftAmount, lockedBalance := o'.lockedBalance)
          && o'.leftAmount == o.leftAmount - (if filled then c.amount else 0)
          && o'.lockedBalance ==
             Wrapped(o.lockedBalance - if filled && o.direction != 0 then Clipped(c.amount, o.price) else 0))
  }

  lemma MadeOrderMoves(s: State, c: Call, id: Hash)
    requires c.MakeOrder?
    ensures OrderMoves(s, c, id)
  {
    MakeAnswers(s, c);
    MakeEffect(s, c);
  }

  lemma FilledOrderMoves(s: State, c: Call, id: Hash)
    requires c.TakeOrder?
    ensures OrderMoves(s, c, id)
  {
    TakeAnswers(s, c);
    if Step(s, c).outcome == Ok {
      FillEffect(s, c);
    } else {
      FailedFillEffect(s, c);
    }
  }

  lemma CancelledOrderMoves(s: State, c: Call, id: Hash)
    requires c.CancelOrder?
    ensures OrderMoves(s, c, id)
  {
    CancelAnswers(s, c);
    CancelEffect(s, c);
  }

  /** What every call does to every order, in any state. */
  lemma OrdersMove(s: State, c: Call, id: Hash)
    ensures OrderMoves(s, c, id)
  {
    if c.MakeOrder? {
      MadeOrderMoves(s, c, id);
    } else if c.TakeOrder? {
      FilledOrderMoves(s, c, id);
    } else if c.CancelOrder? {
      CancelledOrderMoves(s, c, id);
    } else {
      OrdersUntouched(s, c);
    }
  }

  lemma OrdersUntouched(s: State, c: Call)
    requires !OfExchange(c)
    ensures Step(s, c).state.orders == s.orders
  {
    if c.SubmitProject? || c.ApproveProject? {
      ProjectCallEffect(s, c);
    } else if c.SubmitAsset? || c.SubmitIssue? {
      SubmissionEffect(s, c);
    } else if c.ApproveAsset? || c.ApproveIssue? || c.ApproveBurn? {
    } else {
    }
  }
}
