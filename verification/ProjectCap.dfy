/**
 * The project-level counter against the assets it should add up. `approve_asset` raises the counter
 * but never stores it, so the counter drifts and the project's `max_supply` stops being a cap.
 */
module ProjectCap {
  import opened U64
  import opened Sums
  import opened Ledger
  import opened Runs
  import CA = CarbonAssets
  import opened Effects
  import opened Integrity
  import opened Supply
  import opened Issuance
  import opened NativeEscrow

  ghost function CounterOf(p: Hash): (Hash, Asset) -> int {
    (id: Hash, a: Asset) => if a.projectId == p then a.totalSupply else 0
  }

  /** What the assets of project `p` really have in supply. */
  ghost function AssetsTotal(s: State, p: Hash): int {
    SumBy(s.assets, CounterOf(p))
  }

  ghost function InitialOf(p: Hash): (Hash, Asset) -> int {
    (id: Hash, a: Asset) => if a.projectId == p && a.status == Approved then a.initialSupply else 0
  }

  /** The initial supplies approved in project `p`. */
  ghost function ApprovedInitials(s: State, p: Hash): int {
    SumBy(s.assets, InitialOf(p))
  }

  function Counter(s: State, p: Hash): u64 {
    if p in s.projects then s.projects[p].totalSupply else 0
  }

  /** The drift: how far the assets' real total is from the project's counter. */
  ghost function Drift(s: State, p: Hash): int {
    AssetsTotal(s, p) - Counter(s, p)
  }

  lemma ApproveAssetDrift(s: State, c: Call, p: Hash)
    requires Linked(s) && c.ApproveAsset?
    ensures Drift(Step(s, c).state, p) - Drift(s, p) ==
            ApprovedInitials(Step(s, c).state, p) - ApprovedInitials(s, p)
    ensures Step(s, c).outcome == Ok ==>
              AssetsTotal(Step(s, c).state, p) == AssetsTotal(s, p)
                + (if s.assets[c.assetId].projectId == p then s.assets[c.assetId].initialSupply else 0)
  {
    if Step(s, c).outcome == Ok {
      assert AssetLinked(s.projects, s.assets, c.assetId);
      var asset := s.assets[c.assetId];
      var approved := asset.(status := Approved, totalSupply := asset.initialSupply);
      SumByInsert(s.assets, CounterOf(p), c.assetId, approved);
      SumByInsert(s.assets, InitialOf(p), c.assetId, approved);
    }
  }

  /** What a change of one asset's counter does to its project's total. */
  lemma CounterSet(assets: map<Hash, Asset>, id: Hash, total: u64, p: Hash)
    requires id in assets
    ensures var assets' := assets[id := assets[id].(totalSupply := total)];
            && SumBy(assets', CounterOf(p)) == SumBy(assets, CounterOf(p))
                 + (if assets[id].projectId == p then total - assets[id].totalSupply else 0)
            && SumBy(assets', InitialOf(p)) == SumBy(assets, InitialOf(p))
  {
    SumByInsert(assets, CounterOf(p), id, assets[id].(totalSupply := total));
    SumByInsert(assets, InitialOf(p), id, assets[id].(totalSupply := total));
  }

  /** The asset whose counter an approved issue or burn moves, and the units it moves it by. */
  function MovedAsset(s: State, c: Call): Hash
    requires (c.ApproveIssue? || c.ApproveBurn?) && Step(s, c).outcome == Ok
  {
    if c.ApproveIssue? then s.issues[c.issueId].assetId else s.burns[c.burnId].assetId
  }

  function MovedUnits(s: State, c: Call): u64
    requires (c.ApproveIssue? || c.ApproveBurn?) && Step(s, c).outcome == Ok
  {
    if c.ApproveIssue? then s.issues[c.issueId].amount else s.burns[c.burnId].amount
  }

  /** The unchecked `+=` or `-=` of an approved issue or burn takes a counter that stands at `q` out of u64. */
  predicate Wraps(s: State, c: Call, q: u64)
    requires (c.ApproveIssue? || c.ApproveBurn?) && Step(s, c).outcome == Ok
  {
    if c.ApproveIssue? then U64_MAX < q + MovedUnits(s, c) else q < MovedUnits(s, c)
  }

  function Moved(s: State, c: Call, q: u64): u64
    requires (c.ApproveIssue? || c.ApproveBurn?) && Step(s, c).outcome == Ok
  {
    if c.ApproveIssue? then Add(q, MovedUnits(s, c)) else Sub(q, MovedUnits(s, c))
  }

  lemma FailedApproval(s: State, c: Call)
    requires c.ApproveAsset? || c.ApproveIssue? || c.ApproveBurn?
    requires Step(s, c).outcome != Ok
    ensures Step(s, c).state == s
  {
  }

  lemma SupplyCallEffect(s: State, c: Call, p: Hash)
    requires (c.ApproveIssue? || c.ApproveBurn?) && Step(s, c).outcome == Ok
    ensures var s', id := Step(s, c).state, MovedAsset(s, c);
            var t, here := Total(s, id), p == s.assets[id].projectId;
            && AssetsTotal(s', p) == AssetsTotal(s, p) + (if here then Moved(s, c, t) - t else 0)
            && Counter(s', p) == (if here then Moved(s, c, Counter(s, p)) else Counter(s, p))
            && ApprovedInitials(s', p) == ApprovedInitials(s, p)
  {
    CounterSet(s.assets, MovedAsset(s, c), Moved(s, c, Total(s, MovedAsset(s, c))), p);
  }

  lemma SupplyCallDrift(s: State, c: Call, p: Hash)
    requires c.ApproveIssue? || c.ApproveBurn?
    ensures ApprovedInitials(Step(s, c).state, p) == ApprovedInitials(s, p)
    ensures Congruent(Drift(Step(s, c).state, p), Drift(s, p))
  {
    if Step(s, c).outcome == Ok {
      SupplyCallEffect(s, c, p);
      DriftsTogether(Total(s, MovedAsset(s, c)), Counter(s, p), MovedUnits(s, c), Drift(s, p));
    } else {
      FailedApproval(s, c);
    }
  }

  /** Two counters raised or lowered by the same amount differ, modulo 2^64, by what they did before. */
  lemma DriftsTogether(t: u64, q: u64, amount: u64, drift: int)
    ensures Congruent(drift + Add(t, amount) - t - (Add(q, amount) - q as int), drift)
    ensures Congruent(drift + Sub(t, amount) - t - (Sub(q, amount) - q as int), drift)
  {
    assert Turns(1) == U64_MAX + 1 && Turns(-1) == -U64_MAX - 1;
  }

  lemma SubmissionDrift(s: State, c: Call, p: Hash)
    requires c.SubmitAsset? || c.SubmitIssue?
    ensures AssetsTotal(Step(s, c).state, p) == AssetsTotal(s, p)
    ensures ApprovedInitials(Step(s, c).state, p) == ApprovedInitials(s, p)
    ensures Counter(Step(s, c).state, p) == Counter(s, p)
  {
    SubmissionEffect(s, c);
    if c.SubmitAsset? {
      var asset := Asset(c.projectId, c.initialSupply, 0, Submitted);
      SumByInsert(s.assets, CounterOf(p), c.assetId, asset);
      SumByInsert(s.assets, InitialOf(p), c.assetId, asset);
    }
  }

  lemma OtherCallsDrift(s: State, c: Call, p: Hash)
    requires !c.ApproveAsset? && !c.ApproveIssue? && !c.ApproveBurn?
    ensures var s' := Step(s, c).state;
            && AssetsTotal(s', p) == AssetsTotal(s, p)
            && ApprovedInitials(s', p) == ApprovedInitials(s, p)
            && Counter(s', p) == Counter(s, p)
  {
    if c.MakeOrder? || c.TakeOrder? || c.CancelOrder? {
      ExchangeLeavesRegistry(s, c);
    } else if c.SubmitAsset? || c.SubmitIssue? {
      SubmissionDrift(s, c, p);
    } else if c.SubmitProject? || c.ApproveProject? {
      ProjectCallEffect(s, c);
    } else {
      BalanceCallEffect(s, c);
    }
  }

  lemma DriftStep(s: State, c: Call, p: Hash)
    requires Linked(s)
    ensures var s' := Step(s, c).state;
            Congruent(Drift(s', p) - Drift(s, p), ApprovedInitials(s', p) - ApprovedInitials(s, p))
  {
    if c.ApproveAsset? {
      ApproveAssetDrift(s, c, p);
    } else if c.ApproveIssue? || c.ApproveBurn? {
      SupplyCallDrift(s, c, p);
      CongruentAdd(Drift(Step(s, c).state, p), Drift(s, p), Drift(s, p), Drift(s, p));
    } else {
      OtherCallsDrift(s, c, p);
    }
  }

  /**
   * The drift theorem, over every run: modulo 2^64 the real total of a project's assets is its counter
   * plus all the initial supplies approved in it.
   */
  lemma {:induction false} DriftIsInitials(r: Run, p: Hash)
    requires Admissible(r)
    ensures Congruent(Drift(After(r), p), ApprovedInitials(After(r), p))
  {
    match r
    case Genesis(_) =>
    case Then(past, c) =>
      var s, s' := After(past), After(r);
      DriftIsInitials(past, p);
      LinkedAlways(past);
      DriftStep(s, c, p);
      CongruentAdd(Drift(s, p), ApprovedInitials(s, p),
                   Drift(s', p) - Drift(s, p), ApprovedInitials(s', p) - ApprovedInitials(s, p));
  }

  /** So the stored counter is the real total, modulo 2^64, just when the initial supplies cancel out. */
  lemma CounterRightIff(r: Run, p: Hash)
    requires Admissible(r)
    ensures Congruent(AssetsTotal(After(r), p), Counter(After(r), p)) <==>
            Congruent(ApprovedInitials(After(r), p), 0)
  {
    DriftIsInitials(r, p);
    var d, i := Drift(After(r), p), ApprovedInitials(After(r), p);
    CongruentMeansSameResidue(d, i);
    CongruentMeansSameResidue(i, 0);
    CongruentMeansSameResidue(d, 0);
    if Congruent(d, 0) {
      CongruentAdd(d, 0, Counter(After(r), p), Counter(After(r), p));
    }
    if Congruent(AssetsTotal(After(r), p), Counter(After(r), p)) {
      CongruentAdd(AssetsTotal(After(r), p), Counter(After(r), p), Counter(After(r), p), Counter(After(r), p));
    }
  }

  // ---- the counter as an integer ----

  ghost predicate DriftExact(s: State, p: Hash) {
    AssetsTotal(s, p) == Counter(s, p) + ApprovedInitials(s, p)
  }

  ghost predicate DriftsExact(s: State) {
    forall p :: DriftExact(s, p)
  }

  /** The approval takes the stored counter of the asset's project out of u64. */
  predicate CounterWraps(s: State, c: Call) {
    && (c.ApproveIssue? || c.ApproveBurn?)
    && Step(s, c).outcome == Ok
    && Wraps(s, c, Counter(s, s.assets[MovedAsset(s, c)].projectId))
  }

  /** It takes one of the two counters, the asset's and its project's, out of u64, and not the other. */
  predicate CountersPart(s: State, c: Call) {
    && (c.ApproveIssue? || c.ApproveBurn?)
    && Step(s, c).outcome == Ok
    && Wraps(s, c, Total(s, MovedAsset(s, c))) != CounterWraps(s, c)
  }

  lemma DriftExactStep(s: State, c: Call)
    requires Linked(s) && DriftsExact(s)
    ensures DriftsExact(Step(s, c).state) <==> !CountersPart(s, c)
  {
    var s' := Step(s, c).state;
    forall p ensures DriftExact(s', p) <==>
                     !(CountersPart(s, c) && p == s.assets[MovedAsset(s, c)].projectId)
    {
      assert DriftExact(s, p);
      if c.ApproveAsset? {
        ApproveAssetDrift(s, c, p);
      } else if !c.ApproveIssue? && !c.ApproveBurn? {
        OtherCallsDrift(s, c, p);
      } else if Step(s, c).outcome == Ok {
        SupplyCallEffect(s, c, p);
      } else {
        FailedApproval(s, c);
      }
    }
    if CountersPart(s, c) {
      assert !DriftExact(s', s.assets[MovedAsset(s, c)].projectId);
    }
  }

  ghost predicate NeverPart(r: Run) {
    r.Then? ==> NeverPart(r.past) && !CountersPart(After(r.past), r.call)
  }

  ghost predicate NeverWraps(r: Run) {
    r.Then? ==> NeverWraps(r.past) && !CounterWraps(After(r.past), r.call)
  }

  ghost predicate AlwaysDriftExact(r: Run) {
    DriftsExact(After(r)) && (r.Then? ==> AlwaysDriftExact(r.past))
  }

  /**
   * As integers, the real total of every project's assets is its counter plus the initial supplies
   * approved in it, after every call, if and only if no approval wrapped just one of the counters of an
   * asset and of its project.
   */
  lemma {:induction false} DriftExactIff(r: Run)
    requires Admissible(r)
    ensures AlwaysDriftExact(r) <==> NeverPart(r)
  {
    match r
    case Genesis(_) =>
      forall p ensures DriftExact(After(r), p) {}
    case Then(past, c) =>
      DriftExactIff(past);
      if AlwaysDriftExact(past) {
        LinkedAlways(past);
        DriftExactStep(After(past), c);
      }
  }

  /** A bounded asset's counter never wraps on a burn, nor on an issue that does not overflow it. */
  lemma OnlyProjectWraps(s: State, c: Call)
    requires Bounded(s) && !Overflows(s, c)
    ensures CountersPart(s, c) <==> CounterWraps(s, c)
  {
    if c.ApproveBurn? && Step(s, c).outcome == Ok {
      PendingWithinTotal(s, c.burnId);
    }
  }

  /**
   * While no asset's counter overflows, that equation is exactly the range safety of the project's
   * counter: it holds after every call if and only if no approved issue took the stored counter past
   * 2^64 and no approved burn took it below zero.
   */
  lemma {:induction false} CounterInRangeIff(r: Run)
    requires Admissible(r) && NeverOverflows(r)
    ensures AlwaysDriftExact(r) <==> NeverWraps(r)
  {
    DriftExactIff(r);
    if r.Then? {
      CounterInRangeIff(r.past);
      DriftExactIff(r.past);
      NoOverflowNoSplit(r.past);
      CarbonArithmeticInRange(r.past, r.call);
      OnlyProjectWraps(After(r.past), r.call);
    }
  }

  // ---- unchecked arithmetic ----

  /** The unchecked operations of an approval stay in u64: on both counters, and on the owner's balance. */
  predicate ApprovalInRange(s: State, c: Call) {
    Step(s, c).outcome == Ok ==>
      match c
      case ApproveAsset(_, id) => s.assets[id].initialSupply + Counter(s, s.assets[id].projectId) <= U64_MAX
      case ApproveIssue(_, id) =>
        var a, amount := s.issues[id].assetId, s.issues[id].amount;
        && amount + Counter(s, s.assets[a].projectId) <= U64_MAX
        && amount + Total(s, a) <= U64_MAX
        && amount + BalanceOf(s.carbon, a, s.projects[s.assets[a].projectId].owner) <= U64_MAX
      case ApproveBurn(_, id) =>
        var a, amount := s.burns[id].assetId, s.burns[id].amount;
        amount <= Counter(s, s.assets[a].projectId) && amount <= Total(s, a)
      case _ => true
  }

  /** The raise of the project's counter that `approve_asset` computes, and does not store, wraps. */
  predicate UnstoredWraps(s: State, c: Call) {
    && c.ApproveAsset?
    && Step(s, c).outcome == Ok
    && U64_MAX < s.assets[c.assetId].initialSupply + Counter(s, s.assets[c.assetId].projectId)
  }

  /** In a bounded state an owner's balance is in range when the asset's counter is. */
  lemma ApprovalInRangeIff(s: State, c: Call)
    requires Bounded(s)
    ensures ApprovalInRange(s, c) <==> !Overflows(s, c) && !CounterWraps(s, c) && !UnstoredWraps(s, c)
  {
    if c.ApproveIssue? && Step(s, c).outcome == Ok {
      var a := s.issues[c.issueId].assetId;
      assert Held(s, a) <= Total(s, a);
      HeldNonNegative(s, a);
      BalanceWithinHoldings(s.carbon, a, s.projects[s.assets[a].projectId].owner);
    } else if c.ApproveBurn? && Step(s, c).outcome == Ok {
      PendingWithinTotal(s, c.burnId);
    }
  }

  ghost predicate NeverUnstoredWraps(r: Run) {
    r.Then? ==> NeverUnstoredWraps(r.past) && !UnstoredWraps(After(r.past), r.call)
  }

  /** No call of the run took an unchecked operation on a counter or on a carbon balance out of u64. */
  ghost predicate AlwaysInRange(r: Run) {
    r.Then? ==>
      && AlwaysInRange(r.past)
      && CarbonInRange(After(r.past), r.call)
      && ApprovalInRange(After(r.past), r.call)
  }

  /**
   * Range safety of the registry as written: every unchecked operation on counters and carbon balances
   * stays in u64 if and only if no approved issue takes a counter of its asset or its project past 2^64,
   * no approved burn takes its project's counter below zero, and no raise that is not stored wraps.
   */
  lemma {:induction false} AlwaysInRangeIff(r: Run)
    requires Admissible(r)
    ensures AlwaysInRange(r) <==> NeverOverflows(r) && NeverWraps(r) && NeverUnstoredWraps(r)
  {
    if r.Then? {
      AlwaysInRangeIff(r.past);
      if NeverOverflows(r.past) {
        NoOverflowNoSplit(r.past);
        CarbonArithmeticInRange(r.past, r.call);
        ApprovalInRangeIff(After(r.past), r.call);
      }
    }
  }

  // ---- the cap ----

  ghost predicate CapHolds(s: State, p: Hash) {
    p in s.projects ==> AssetsTotal(s, p) <= s.projects[p].maxSupply
  }

  ghost predicate Capped(s: State) {
    forall p :: CapHolds(s, p)
  }

  /** The project and the units that a successful approval adds to. */
  function ApprovedProject(s: State, c: Call): Hash
    requires (c.ApproveAsset? || c.ApproveIssue?) && Step(s, c).outcome == Ok
  {
    s.assets[if c.ApproveAsset? then c.assetId else s.issues[c.issueId].assetId].projectId
  }

  function ApprovedUnits(s: State, c: Call): u64
    requires (c.ApproveAsset? || c.ApproveIssue?) && Step(s, c).outcome == Ok
  {
    if c.ApproveAsset? then s.assets[c.assetId].initialSupply else s.issues[c.issueId].amount
  }

  /** The project's total as its records give it: the counter, and the initial supplies it misses. */
  ghost function RecordedTotal(s: State, p: Hash): u64 {
    Residue(Counter(s, p) + ApprovedInitials(s, p))
  }

  /** The approval passes the limit test, but would not if the test counted the initial supplies. */
  ghost predicate Exceeds(s: State, c: Call) {
    && (c.ApproveAsset? || c.ApproveIssue?)
    && Step(s, c).outcome == Ok
    && var p := ApprovedProject(s, c);
       p in s.projects && s.projects[p].maxSupply < ApprovedUnits(s, c) + RecordedTotal(s, p)
  }

  ghost predicate RecordSound(s: State, p: Hash) {
    0 <= AssetsTotal(s, p) <= U64_MAX ==> RecordedTotal(s, p) == AssetsTotal(s, p)
  }

  ghost predicate Recorded(s: State) {
    forall p :: RecordSound(s, p)
  }

  lemma CounterPlusDrift(total: int, counter: int, initials: int)
    requires Congruent(total - counter, initials)
    ensures Congruent(total, counter + initials)
  {
    CongruentAdd(total - counter, initials, counter, counter);
  }

  lemma TotalRecorded(s: State, p: Hash)
    requires Congruent(Drift(s, p), ApprovedInitials(s, p))
    ensures RecordSound(s, p)
  {
    var total, n := AssetsTotal(s, p), Counter(s, p) + ApprovedInitials(s, p);
    CounterPlusDrift(total, Counter(s, p), ApprovedInitials(s, p));
    if 0 <= total <= U64_MAX {
      ResidueRecovers(total, n);
    }
  }

  /** After every run the records give the real total of any project for which it fits in u64. */
  lemma TotalsRecorded(r: Run)
    requires Admissible(r)
    ensures Recorded(After(r))
  {
    forall p ensures RecordSound(After(r), p) {
      DriftIsInitials(r, p);
      TotalRecorded(After(r), p);
    }
  }

  lemma ApprovalTotals(s: State, c: Call, p: Hash)
    requires Linked(s) && (c.ApproveAsset? || c.ApproveIssue?) && Step(s, c).outcome == Ok
    requires !Overflows(s, c)
    ensures AssetsTotal(Step(s, c).state, p) == AssetsTotal(s, p)
              + (if p == ApprovedProject(s, c) then ApprovedUnits(s, c) else 0)
    ensures ApprovedProject(s, c) in s.projects
  {
    if c.ApproveAsset? {
      ApproveAssetDrift(s, c, p);
    } else {
      var id := s.issues[c.issueId].assetId;
      CounterSet(s.assets, id, Add(s.assets[id].totalSupply, s.issues[c.issueId].amount), p);
    }
  }

  lemma BurnTotals(s: State, c: Call, p: Hash)
    requires Linked(s) && c.ApproveBurn?
    requires forall a :: Held(s, a) <= Total(s, a)
    ensures AssetsTotal(Step(s, c).state, p) <= AssetsTotal(s, p)
  {
    if Step(s, c).outcome == Ok {
      var burn := s.burns[c.burnId];
      SumByBoundsOne(s.burns, PendingOf(burn.assetId), c.burnId);
      HeldNonNegative(s, burn.assetId);
      assert Held(s, burn.assetId) <= Total(s, burn.assetId);
      CounterSet(s.assets, burn.assetId, Sub(s.assets[burn.assetId].totalSupply, burn.amount), p);
    }
  }

  lemma UnknownProjectEmpty(s: State, p: Hash)
    requires Linked(s) && p !in s.projects
    ensures AssetsTotal(s, p) == 0
  {
    forall a | a in s.assets ensures CounterOf(p)(a, s.assets[a]) == 0 {
      assert AssetLinked(s.projects, s.assets, a);
    }
    SumByZero(s.assets, CounterOf(p));
  }

  lemma CapStep(s: State, c: Call)
    requires Linked(s) && Capped(s) && Recorded(s) && !Overflows(s, c)
    requires forall a :: Held(s, a) <= Total(s, a)
    ensures Capped(Step(s, c).state) <==> !Exceeds(s, c)
  {
    var s' := Step(s, c).state;
    forall p ensures CapHolds(s', p) <==> !(Exceeds(s, c) && p == ApprovedProject(s, c)) {
      assert CapHolds(s, p) && RecordSound(s, p);
      SumByNonNegative(s.assets, CounterOf(p));
      ProjectsPersistStep(s, c, p);
      if p !in s.projects {
        UnknownProjectEmpty(s, p);
      }
      if (c.ApproveAsset? || c.ApproveIssue?) && Step(s, c).outcome == Ok {
        ApprovalTotals(s, c, p);
      } else if c.ApproveBurn? {
        BurnTotals(s, c, p);
      } else if c.ApproveAsset? || c.ApproveIssue? {
        FailedApproval(s, c);
      } else {
        OtherCallsDrift(s, c, p);
      }
    }
    if Exceeds(s, c) {
      assert !CapHolds(s', ApprovedProject(s, c));
    }
  }

  ghost predicate NeverExceeds(r: Run) {
    r.Then? ==> NeverExceeds(r.past) && !Exceeds(After(r.past), r.call)
  }

  ghost predicate AlwaysCapped(r: Run) {
    Capped(After(r)) && (r.Then? ==> AlwaysCapped(r.past))
  }

  /** An approval that takes an asset's counter past 2^64 takes its project's real total there as well. */
  lemma OverflowExceeds(s: State, c: Call)
    requires Linked(s) && Overflows(s, c)
    ensures ApprovedProject(s, c) in s.projects
    ensures s.projects[ApprovedProject(s, c)].maxSupply
            < ApprovedUnits(s, c) + AssetsTotal(s, ApprovedProject(s, c))
  {
    var id := s.issues[c.issueId].assetId;
    SumByBoundsOne(s.assets, CounterOf(s.assets[id].projectId), id);
  }

  /**
   * Exactly when `max_supply` caps what is in supply after every call, with no asset's counter
   * overflowing: if and only if no approval went through that the limit test would have refused had it
   * counted the initial supplies that the stored counter misses.
   */
  lemma {:induction false} CapIff(r: Run)
    requires Admissible(r)
    ensures AlwaysCapped(r) && NeverOverflows(r) <==> NeverExceeds(r)
  {
    match r
    case Genesis(_) =>
      forall p ensures CapHolds(After(r), p) {}
    case Then(past, c) =>
      CapIff(past);
      if NeverExceeds(past) {
        LinkedAlways(past);
        NoOverflowNoSplit(past);
        CarbonArithmeticInRange(past, c);
        TotalsRecorded(past);
        if Overflows(After(past), c) {
          var s, p := After(past), ApprovedProject(After(past), c);
          OverflowExceeds(s, c);
          SumByNonNegative(s.assets, CounterOf(p));
          assert CapHolds(s, p) && RecordSound(s, p);
        } else {
          CapStep(After(past), c);
        }
      }
  }

  // ---- the same registry with the counter stored ----

  /** `approve_asset` with its raised counter written back. */
  function ApproveAssetStored(s: State, authorized: bool, assetId: Hash): Post {
    var post := CA.ApproveAsset(s, authorized, assetId);
    if post.outcome == Ok then
      var p := s.assets[assetId].projectId;
      var raised := Add(s.projects[p].totalSupply, s.assets[assetId].initialSupply);
      Post(post.state.(projects := s.projects[p := s.projects[p].(totalSupply := raised)]), Ok)
    else post
  }

  function StoredStep(s: State, c: Call): Post {
    if c.ApproveAsset? then ApproveAssetStored(s, c.authorized, c.assetId) else Step(s, c)
  }

  function AfterStored(r: Run): State {
    match r
    case Genesis(_) => After(r)
    case Then(past, c) => StoredStep(AfterStored(past), c).state
  }

  /** The limit test of a successful approval did not pass by wrapping. */
  predicate GuardUnwrapped(s: State, c: Call) {
    (c.ApproveAsset? || c.ApproveIssue?) && Step(s, c).outcome == Ok ==>
      ApprovedUnits(s, c) + Counter(s, ApprovedProject(s, c)) <= U64_MAX
  }

  ghost predicate AdmissibleStored(r: Run) {
    r.Then? ==> AdmissibleStored(r.past) && Allowed(AfterStored(r.past), r.call)
  }

  ghost predicate GuardsUnwrapped(r: Run) {
    r.Then? ==> GuardsUnwrapped(r.past) && GuardUnwrapped(AfterStored(r.past), r.call)
  }

  ghost predicate CounterCaps(s: State, p: Hash) {
    p in s.projects ==> AssetsTotal(s, p) == s.projects[p].totalSupply <= s.projects[p].maxSupply
  }

  ghost predicate CountersCap(s: State) {
    forall p :: CounterCaps(s, p)
  }

  ghost predicate Balanced(s: State) {
    Linked(s) && Bounded(s) && CountersCap(s)
  }

  lemma BalancedRefusesOverflow(s: State, c: Call)
    requires Balanced(s) && GuardUnwrapped(s, c)
    ensures !Overflows(s, c)
  {
    if c.ApproveIssue? && Step(s, c).outcome == Ok {
      assert CounterCaps(s, ApprovedProject(s, c));
      if Overflows(s, c) {
        OverflowExceeds(s, c);
      }
    }
  }

  /** Units in accounts and pending burns stay within each counter. */
  lemma BoundedStep(s: State, c: Call)
    requires Linked(s) && Bounded(s) && Allowed(s, c) && !Overflows(s, c)
    ensures Bounded(Step(s, c).state)
  {
    forall a ensures Holdings(s.carbon, a) <= U64_MAX {
      HeldNonNegative(s, a);
      assert Held(s, a) <= Total(s, a);
    }
    NothingDrains(s, c);
    CoverStep(s, c);
    forall a ensures Held(Step(s, c).state, a) <= Total(Step(s, c).state, a) {
      assert Held(s, a) <= Total(s, a) && PotCovers(s, a) && Holdings(s.carbon, a) <= U64_MAX;
      UnitsMoveExactly(s, c, a);
    }
  }

  /** An approved issue or burn moves the counters of the asset and of its project alike. */
  lemma CounterMovesWithAsset(s: State, c: Call, p: Hash)
    requires Balanced(s) && GuardUnwrapped(s, c) && !Overflows(s, c)
    requires c.ApproveIssue? || c.ApproveBurn?
    ensures CounterCaps(Step(s, c).state, p)
  {
    assert CounterCaps(s, p);
    if Step(s, c).outcome == Ok {
      var id := if c.ApproveIssue? then s.issues[c.issueId].assetId else s.burns[c.burnId].assetId;
      var t := s.assets[id].totalSupply;
      SumByBoundsOne(s.assets, CounterOf(p), id);
      if c.ApproveIssue? {
        CounterSet(s.assets, id, Add(t, s.issues[c.issueId].amount), p);
      } else {
        PendingWithinTotal(s, c.burnId);
        CounterSet(s.assets, id, Sub(t, s.burns[c.burnId].amount), p);
      }
    }
  }

  lemma CountersStep(s: State, c: Call)
    requires Balanced(s) && GuardUnwrapped(s, c) && !c.ApproveAsset?
    ensures CountersCap(Step(s, c).state)
  {
    BalancedRefusesOverflow(s, c);
    forall p ensures CounterCaps(Step(s, c).state, p) {
      assert CounterCaps(s, p);
      ProjectsPersistStep(s, c, p);
      if p !in s.projects {
        UnknownProjectEmpty(s, p);
      }
      if c.ApproveIssue? || c.ApproveBurn? {
        CounterMovesWithAsset(s, c, p);
      } else {
        OtherCallsDrift(s, c, p);
      }
    }
  }

  lemma StoredApprovalBalanced(s: State, c: Call)
    requires Balanced(s) && Allowed(s, c) && GuardUnwrapped(s, c) && c.ApproveAsset?
    ensures Balanced(StoredStep(s, c).state)
  {
    var s1, s2 := Step(s, c).state, StoredStep(s, c).state;
    LinkedStep(s, c);
    BoundedStep(s, c);
    if Step(s, c).outcome == Ok {
      forall p ensures OwnerSound(s2.projects, p) {
        assert OwnerSound(s1.projects, p);
      }
      forall a ensures AssetLinked(s2.projects, s2.assets, a) {
        assert AssetLinked(s1.projects, s1.assets, a);
      }
      forall a ensures PotCovers(s2, a) {
        assert PotCovers(s1, a);
      }
      forall a ensures Held(s2, a) <= Total(s2, a) {
        assert Held(s1, a) <= Total(s1, a);
      }
      forall p ensures CounterCaps(s2, p) {
        assert CounterCaps(s, p);
        ApproveAssetDrift(s, c, p);
      }
    } else {
      FailedApproval(s, c);
    }
  }

  lemma StoredStepBalanced(s: State, c: Call)
    requires Balanced(s) && Allowed(s, c) && GuardUnwrapped(s, c)
    ensures Balanced(StoredStep(s, c).state)
  {
    if c.ApproveAsset? {
      StoredApprovalBalanced(s, c);
    } else {
      BalancedRefusesOverflow(s, c);
      LinkedStep(s, c);
      BoundedStep(s, c);
      CountersStep(s, c);
    }
  }

  /** A test that passed by wrapping lets the project's total beyond what its counter can count. */
  lemma WrappedGuardBreaks(s: State, c: Call)
    requires Balanced(s) && !GuardUnwrapped(s, c) && !Overflows(s, c)
    ensures !CountersCap(StoredStep(s, c).state)
  {
    var p := ApprovedProject(s, c);
    assert CounterCaps(s, p);
    ApprovalTotals(s, c, p);
    assert !CounterCaps(StoredStep(s, c).state, p);
  }

  /** After every call the counters cap their assets, and no approved issue has overflowed its asset's counter. */
  ghost predicate AlwaysCountersCap(r: Run) {
    && CountersCap(AfterStored(r))
    && (r.Then? ==> AlwaysCountersCap(r.past) && !Overflows(AfterStored(r.past), r.call))
  }

  /**
   * With the counter written back, each project's counter is the total of its assets and within its
   * cap after every call, and no asset's counter overflows, if and only if no limit test passed by
   * wrapping: the unstored write is the whole drift. The other books are sound then as well.
   */
  lemma {:induction false} StoredCounterCapsIff(r: Run)
    requires AdmissibleStored(r)
    ensures AlwaysCountersCap(r) <==> GuardsUnwrapped(r)
    ensures GuardsUnwrapped(r) ==> Balanced(AfterStored(r))
  {
    match r
    case Genesis(_) =>
      forall a ensures Held(AfterStored(r), a) <= Total(AfterStored(r), a) && PotCovers(AfterStored(r), a) {}
      forall p ensures CounterCaps(AfterStored(r), p) {}
    case Then(past, c) =>
      var s := AfterStored(past);
      StoredCounterCapsIff(past);
      if GuardsUnwrapped(past) {
        if GuardUnwrapped(s, c) {
          StoredStepBalanced(s, c);
          BalancedRefusesOverflow(s, c);
        } else if !Overflows(s, c) {
          WrappedGuardBreaks(s, c);
        }
      }
  }

  lemma BalancedApprovalInRange(s: State, c: Call)
    requires Balanced(s) && GuardUnwrapped(s, c)
    ensures ApprovalInRange(s, c)
  {
    BalancedRefusesOverflow(s, c);
    ApprovalInRangeIff(s, c);
    if c.ApproveBurn? && Step(s, c).outcome == Ok {
      var a := s.burns[c.burnId].assetId;
      PendingWithinTotal(s, c.burnId);
      assert CounterCaps(s, s.assets[a].projectId);
      SumByBoundsOne(s.assets, CounterOf(s.assets[a].projectId), a);
    }
  }

  /** No BID of the run had its lock clipped. */
  ghost predicate NeverSaturatesStored(r: Run) {
    r.Then? ==> NeverSaturatesStored(r.past) && !Saturates(AfterStored(r.past), r.call)
  }

  lemma {:induction false} StoredLocksExact(r: Run)
    requires AdmissibleStored(r) && GuardsUnwrapped(r) && NeverSaturatesStored(r)
    ensures LocksExact(AfterStored(r))
  {
    match r
    case Genesis(_) =>
      forall id ensures LockExact(AfterStored(r).orders, id) {}
    case Then(past, c) =>
      StoredLocksExact(past);
      StoredCounterCapsIff(past);
      LocksStep(AfterStored(past), c);
  }

  /**
   * Then no unchecked `+=` or `-=` on counters, carbon balances or locks leaves u64: in approvals, burns,
   * retirements and moves while no limit test wraps, and in any fill of a BID while no lock is clipped.
   */
  lemma StoredArithmeticInRange(r: Run, c: Call)
    requires AdmissibleStored(Then(r, c)) && GuardsUnwrapped(Then(r, c))
    ensures CarbonInRange(AfterStored(r), c) && ApprovalInRange(AfterStored(r), c)
    ensures NeverSaturatesStored(r) ==> forall id, amount :: FillCovered(AfterStored(r).orders, id, amount)
  {
    StoredCounterCapsIff(r);
    BoundedInRange(AfterStored(r), c);
    BalancedApprovalInRange(AfterStored(r), c);
    if NeverSaturatesStored(r) {
      StoredLocksExact(r);
      FillsCovered(AfterStored(r));
    }
  }
}
