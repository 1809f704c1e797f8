/** Who must agree to what: approvals, owners, and the holders of carbon and money themselves. */
module Authority {
  import opened U64
  import opened Ledger
  import opened NativeBalances
  import opened Runs
  import opened Integrity
  import opened Effects
  import opened Answers
  import opened Moves
  import opened Supply
  import opened Issuance

  // ---- approvals ----

  predicate Approving(c: Call) {
    c.ApproveProject? || c.ApproveAsset? || c.ApproveIssue? || c.ApproveBurn?
  }

  /** Without the authority to approve, every approval is refused and changes nothing, whatever is stored. */
  lemma UnauthorizedRefused(s: State, c: Call)
    requires Approving(c) && !c.authorized
    ensures Step(s, c) == Post(s, Err(BadOrigin))
  {
    if c.ApproveProject? || c.ApproveAsset? {
    } else {
    }
  }

  /** No call of `r` beyond `p` was an authorized approval. */
  ghost predicate Unapproved(r: Run, p: Run)
    requires Extends(r, p)
  {
    r != p ==> Unapproved(r.past, p) && !(Approving(r.call) && r.call.authorized)
  }

  /** Stored records are as they were; new ones, and burns submitted again, await approval. */
  ghost predicate RecordFrozen(s: State, s': State, k: Hash) {
    && (if k in s.projects then k in s'.projects && s'.projects[k] == s.projects[k]
        else k in s'.projects ==> s'.projects[k].status == Submitted && s'.projects[k].totalSupply == 0)
    && (if k in s.assets then k in s'.assets && s'.assets[k] == s.assets[k]
        else k in s'.assets ==> s'.assets[k].status == Submitted && s'.assets[k].totalSupply == 0)
    && (if k in s.issues then k in s'.issues && s'.issues[k] == s.issues[k]
        else k in s'.issues ==> s'.issues[k].status == Submitted)
    && (k in s'.burns && s'.burns[k].status == Approved ==> k in s.burns && s.burns[k] == s'.burns[k])
  }

  lemma FrozenStep(s: State, c: Call, k: Hash)
    requires !(Approving(c) && c.authorized)
    ensures RecordFrozen(s, Step(s, c).state, k)
  {
    if Approving(c) {
      UnauthorizedRefused(s, c);
    } else {
      RecordsMove(s, c, k);
    }
  }

  /**
   * Over any stretch of a run without an authorized approval, no project, asset or issue that was stored
   * changes at all, counters included, and nothing new is approved.
   */
  lemma {:induction false} NothingWithoutApproval(r: Run, p: Run, k: Hash)
    requires Extends(r, p) && Unapproved(r, p)
    ensures RecordFrozen(After(p), After(r), k)
  {
    if r != p {
      NothingWithoutApproval(r.past, p, k);
      FrozenStep(After(r.past), r.call, k);
    }
  }

  lemma {:induction false} SpentOnlyGrows(r: Run, p: Run, a: Hash)
    requires Extends(r, p)
    ensures Retired(p, a) <= Retired(r, a) && Lost(p, a) <= Lost(r, a)
  {
    if r != p {
      SpentOnlyGrows(r.past, p, a);
    }
  }

  lemma {:induction false} PastIsSound(r: Run, p: Run)
    requires Extends(r, p) && Admissible(r) && NeverSplits(r)
    ensures Admissible(p) && NeverSplits(p)
  {
    if r != p {
      PastIsSound(r.past, p);
    }
  }

  /** Nor, while no issue splits, do the units in accounts and pending burns grow. */
  lemma NoMintingWithoutApproval(r: Run, p: Run, a: Hash)
    requires Extends(r, p) && Unapproved(r, p) && Admissible(r) && NeverSplits(r)
    ensures Held(After(r), a) <= Held(After(p), a)
  {
    PastIsSound(r, p);
    NoSplitKeepsBooks(r);
    NoSplitKeepsBooks(p);
    assert Exact(r, a) && Exact(p, a);
    NothingWithoutApproval(r, p, a);
    SpentOnlyGrows(r, p, a);
  }

  // ---- owners ----

  /** The asset that a submission of an issue or a burn is for. */
  predicate Claims(s: State, c: Call, a: Hash, who: AccountId) {
    (c.SubmitIssue? || c.SubmitBurn?) && c.assetId == a && c.signer == who && Step(s, c).outcome == Ok
  }

  /** Only the owner of the project adds an asset to it, and issues or burns units of one. */
  lemma OwnersSubmit(s: State, c: Call)
    requires Step(s, c).outcome == Ok
    ensures c.SubmitAsset? ==> c.projectId in s.projects && s.projects[c.projectId].owner == c.signer
    ensures c.SubmitIssue? || c.SubmitBurn? ==> Owns(s, c.assetId, c.signer)
  {
    CallsAnswer(s, c);
  }

  /** Issues and burns of `a` that `who` submitted in the run. */
  function ClaimCount(r: Run, a: Hash, who: AccountId): nat {
    match r
    case Genesis(_) => 0
    case Then(past, c) => ClaimCount(past, a, who) + if Claims(After(past), c, a, who) then 1 else 0
  }

  lemma OwnershipStays(s: State, c: Call, a: Hash, who: AccountId)
    requires Owns(s, a, who)
    ensures Owns(Step(s, c).state, a, who)
  {
    AssetsPersistStep(s, c, a);
    ProjectsPersistStep(s, c, s.assets[a].projectId);
  }

  /** Over every run, whoever had an issue or a burn of an asset accepted owns its project still. */
  lemma {:induction false} ClaimantsOwn(r: Run, a: Hash, who: AccountId)
    requires ClaimCount(r, a, who) > 0
    ensures Owns(After(r), a, who)
  {
    if Claims(After(r.past), r.call, a, who) {
      OwnersSubmit(After(r.past), r.call);
    } else {
      ClaimantsOwn(r.past, a, who);
    }
    OwnershipStays(After(r.past), r.call, a, who);
  }

  // ---- holders ----

  /** Nobody's native money falls in a call of these pallets but the signer's, and the pot's. */
  lemma MoneyFallsBySigner(s: State, c: Call, who: AccountId)
    requires !c.OtherPallets? && who != POT
    requires Free(Step(s, c).state.native, who) < Free(s.native, who)
    ensures (c.MakeOrder? || c.TakeOrder?) && c.signer == who && Step(s, c).outcome == Ok
  {
    NativeMoves(s, c, who);
    CallsAnswer(s, c);
  }

  /** An approved issue that does not overflow the counter does not overflow the owner's balance. */
  lemma MintInRange(s: State, c: Call)
    requires Bounded(s) && c.ApproveIssue? && Step(s, c).outcome == Ok && !Overflows(s, c)
    ensures Answer(s, c) == Ok
    ensures var a := s.issues[c.issueId].assetId;
            BalanceOf(s.carbon, a, OwnerOf(s, a)) + s.issues[c.issueId].amount <= U64_MAX
  {
    var a := s.issues[c.issueId].assetId;
    CallsAnswer(s, c);
    assert Held(s, a) <= Total(s, a);
    HeldNonNegative(s, a);
    BalanceWithinHoldings(s.carbon, a, OwnerOf(s, a));
  }

  lemma ReceiptInRange(s: State, c: Call, a: Hash, who: AccountId)
    requires Linked(s) && Bounded(s) && !Overflows(s, c)
    ensures BalanceOf(s.carbon, a, who) + Received(Movement(s, c), a, who) - Given(Movement(s, c), a, who) <= U64_MAX
  {
    CallsAnswer(s, c);
    BoundedInRange(s, c);
    if c.ApproveIssue? && Step(s, c).outcome == Ok {
      MintInRange(s, c);
    } else if c.ApproveAsset? && Step(s, c).outcome == Ok {
      assert BalanceLinked(s.assets, s.carbon, c.assetId, OwnerOf(s, c.assetId));
    } else if c.TakeOrder? && Movement(s, c).Send? {
      var m := Movement(s, c);
      HeldMoveInRange(s, m.assetId, m.from, m.to, m.amount);
    }
  }

  /** Whoever gives carbon in a call signed it, or is the pot; and gives a burn only as the owner. */
  lemma GiversSign(s: State, c: Call, a: Hash, who: AccountId)
    requires Given(Movement(s, c), a, who) > 0 && who != POT
    ensures c.SubmitBurn? || c.Neutralize? || c.Transfer? || c.MakeOrder? || c.TakeOrder?
    ensures c.signer == who && (c.SubmitBurn? ==> Owns(s, a, who))
  {
  }

  /**
   * While no issue overflows, nobody's carbon falls but by a call of their own: an owner's burn, a
   * retirement, a transfer, an ASK, or the fill of a BID.
   */
  lemma CarbonFallsBySigner(r: Run, c: Call, a: Hash, who: AccountId)
    requires Admissible(Then(r, c)) && NeverOverflows(Then(r, c)) && who != POT
    requires BalanceOf(Step(After(r), c).state.carbon, a, who) < BalanceOf(After(r).carbon, a, who)
    ensures c.SubmitBurn? || c.Neutralize? || c.Transfer? || c.MakeOrder? || c.TakeOrder?
    ensures c.signer == who && (c.SubmitBurn? ==> Owns(After(r), a, who))
  {
    var s := After(r);
    LinkedAlways(r);
    NoOverflowNoSplit(r);
    CarbonArithmeticInRange(r, c);
    LinkedCarbonMoves(s, c, a, who);
    ReceiptInRange(s, c, a, who);
    GiversSign(s, c, a, who);
  }
}
