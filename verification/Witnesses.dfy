/** Concrete runs that show the conditions of the theorems to be needed. */
module Witnesses {
  import opened U64
  import opened Sums
  import opened Ledger
  import opened NativeBalances
  import opened Runs
  import CX = CarbonExchange
  import CA = CarbonAssets
  import opened Effects
  import opened Answers
  import opened Integrity
  import opened OrderLife
  import opened FillPaths
  import opened Supply
  import opened Issuance
  import opened NativeEscrow
  import opened Atomicity
  import opened ProjectCap
  import opened EventIndex
  import opened IndexAgreement
  import opened IndexCoverage
  import SA = StandardAssets

  const ALICE := AccountId("alice")
  const BOB := AccountId("bob")
  const PROJECT := Hash("project")
  const ASSET := Hash("asset")
  const ASSET2 := Hash("asset2")
  const ORDER := Hash("order")
  const ISSUE := Hash("issue")
  const BURN := Hash("burn")

  /** The index can know of nobody's units but those that Alice got at the approval. */
  ghost predicate OnlyAliceCredited(r: Run) {
    forall doc :: EverCredited(r, doc) ==> doc == BalanceDoc(ALICE, ASSET)
  }

  lemma NobodyElseCredited(past: Run, c: Call)
    requires OnlyAliceCredited(past)
    requires var doc := CreditBy(After(past), c); doc == None || doc == Some(BalanceDoc(ALICE, ASSET))
    ensures OnlyAliceCredited(Then(past, c))
  {
  }

  /** Alice registers a project. */
  lemma ProjectOpened(native: Accounts, maxSupply: u64) returns (r: Run)
    requires TotalIssuance(native) <= U128_MAX
    ensures Admissible(r) && NeverSaturates(r) && Origin(r) == native && Lost(r, ASSET) == 0
    ensures OnlyAliceCredited(r)
    ensures var s := After(r);
            && s.projects == map[PROJECT := Project(maxSupply, 0, Approved, ALICE)]
            && s.assets == map[] && s.carbon == map[] && s.native == native
            && s.issues == map[] && s.burns == map[] && s.orders == map[]
  {
    var r0 := Genesis(native);
    var r1 := Then(r0, SubmitProject(ALICE, PROJECT, maxSupply));
    assert ALICE != POT;
    assert Admissible(r0) && NeverSaturates(r0) && Origin(r0) == native && Lost(r0, ASSET) == 0;
    assert After(r1).projects == map[PROJECT := Project(maxSupply, 0, Submitted, ALICE)];
    assert Admissible(r1) && NeverSaturates(r1) && Origin(r1) == native && Lost(r1, ASSET) == 0;
    NobodyElseCredited(r0, r1.call);
    r := Then(r1, ApproveProject(true, PROJECT));
    NobodyElseCredited(r1, r.call);
  }

  /** She has one asset of it approved. */
  lemma Opening(native: Accounts, maxSupply: u64, initialSupply: u64) returns (r: Run)
    requires 0 < initialSupply <= maxSupply && TotalIssuance(native) <= U128_MAX
    ensures Admissible(r) && NeverSaturates(r) && Origin(r) == native && Lost(r, ASSET) == 0
    ensures OnlyAliceCredited(r)
    ensures var s := After(r);
            && s.projects == map[PROJECT := Project(maxSupply, 0, Approved, ALICE)]
            && s.assets == map[ASSET := Asset(PROJECT, initialSupply, initialSupply, Approved)]
            && s.carbon == map[(ASSET, ALICE) := initialSupply]
            && s.issues == map[] && s.burns == map[] && s.orders == map[] && s.native == native
  {
    var r2 := ProjectOpened(native, maxSupply);
    var r3 := Then(r2, SubmitAsset(ALICE, PROJECT, initialSupply, ASSET));
    assert ALICE != POT;
    assert After(r3).assets == map[ASSET := Asset(PROJECT, initialSupply, 0, Submitted)];
    assert Admissible(r3) && NeverSaturates(r3) && Origin(r3) == native && Lost(r3, ASSET) == 0;
    NobodyElseCredited(r2, r3.call);
    r := Then(r3, ApproveAsset(true, ASSET));
    NobodyElseCredited(r3, r.call);
  }

  /** A second asset of the same project passes the limit test that the first one used up. */
  lemma CapIsNotEnforced() returns (r: Run)
    ensures Admissible(r) && !Capped(After(r))
  {
    var r0 := Opening(map[], 10, 10);
    var r1 := Then(r0, SubmitAsset(ALICE, PROJECT, 10, ASSET2));
    r := Then(r1, ApproveAsset(true, ASSET2));
    assert ALICE != POT && ASSET != ASSET2;
    assert After(r1).assets == map[ASSET := Asset(PROJECT, 10, 10, Approved),
                                   ASSET2 := Asset(PROJECT, 10, 0, Submitted)];
    var s := After(r);
    assert s.assets == map[ASSET := Asset(PROJECT, 10, 10, Approved),
                           ASSET2 := Asset(PROJECT, 10, 10, Approved)];
    SumBySplit(s.assets, CounterOf(PROJECT), ASSET);
    SumBySplit(s.assets - {ASSET}, CounterOf(PROJECT), ASSET2);
    assert s.assets - {ASSET} - {ASSET2} == map[];
    assert !CapHolds(s, PROJECT);
    assert Admissible(r1) && Admissible(r);
  }

  lemma AliceBurns(s: State, held: u64)
    requires s.projects == map[PROJECT := Project(10, 0, Approved, ALICE)]
    requires s.assets == map[ASSET := Asset(PROJECT, 10, 10, Approved)]
    requires held > 4 && s.carbon == map[(ASSET, ALICE) := held]
    ensures var post := CA.SubmitBurn(s, ALICE, ASSET, 4, BURN);
            && post.outcome == Ok
            && post.state.projects == s.projects && post.state.assets == s.assets
            && post.state.carbon == map[(ASSET, ALICE) := held - 4]
            && post.state.burns == s.burns[BURN := BurnInfo(ASSET, 4, Submitted)]
  {
    assert BURN != PROJECT;
  }

  const FOUR_BURNT := SubmitBurn(ALICE, ASSET, 4, BURN)

  /** Alice submits a burn of four of her ten units. */
  lemma BurnAsked() returns (r: Run)
    ensures Admissible(r) && Lost(r, ASSET) == 0
    ensures var s := After(r);
            && s.projects == map[PROJECT := Project(10, 0, Approved, ALICE)]
            && s.assets == map[ASSET := Asset(PROJECT, 10, 10, Approved)]
            && s.carbon == map[(ASSET, ALICE) := 6]
            && s.burns == map[BURN := BurnInfo(ASSET, 4, Submitted)]
  {
    var r0 := Opening(map[], 10, 10);
    assert ALICE != POT;
    AliceBurns(After(r0), 10);
    r := Then(r0, FOUR_BURNT);
    assert Step(After(r0), FOUR_BURNT) == CA.SubmitBurn(After(r0), ALICE, ASSET, 4, BURN);
  }

  lemma FourBurnt(s: State)
    requires s.projects == map[PROJECT := Project(10, 0, Approved, ALICE)]
    requires s.assets == map[ASSET := Asset(PROJECT, 10, 10, Approved)]
    requires s.burns == map[BURN := BurnInfo(ASSET, 4, Submitted)]
    ensures CountersPart(s, ApproveBurn(true, BURN))
    ensures var projects' := Step(s, ApproveBurn(true, BURN)).state.projects;
            PROJECT in projects' && projects'[PROJECT].totalSupply == U64_MAX - 3 && projects'[PROJECT].maxSupply == 10
  {
    assert Step(s, ApproveBurn(true, BURN)) == CA.ApproveBurn(s, true, BURN);
  }

  lemma PartsOutOfRange(past: Run, c: Call)
    requires Admissible(Then(past, c)) && CountersPart(After(past), c)
    ensures !AlwaysDriftExact(Then(past, c)) && !AlwaysInRange(Then(past, c))
  {
    DriftExactIff(Then(past, c));
  }

  /** Burning initial supply takes the project's counter below zero: it wraps, and the asset's does not. */
  lemma ProjectCounterWraps() returns (r: Run)
    ensures Admissible(r) && PROJECT in After(r).projects
    ensures After(r).projects[PROJECT].totalSupply > After(r).projects[PROJECT].maxSupply
    ensures !AlwaysDriftExact(r) && !AlwaysInRange(r)
  {
    var r1 := BurnAsked();
    r := Then(r1, ApproveBurn(true, BURN));
    FourBurnt(After(r1));
    PartsOutOfRange(r1, r.call);
  }

  lemma BurnPendsFour(burns: map<Hash, BurnInfo>)
    requires burns == map[BURN := BurnInfo(ASSET, 4, Submitted)]
    ensures Pending(burns, ASSET) == 4
  {
    SumBySplit(burns, PendingOf(ASSET), BURN);
    assert burns - {BURN} == map[];
  }

  /** The same burn submitted twice takes the units twice and remembers them once. */
  lemma RepeatedBurnLosesUnits() returns (r: Run)
    ensures Admissible(r) && Lost(r, ASSET) == 4 && Pending(After(r).burns, ASSET) == 4
    ensures BalanceOf(After(r).carbon, ASSET, ALICE) == 2
    ensures !AlwaysWhole(r)
  {
    var r1 := BurnAsked();
    assert ALICE != POT;
    AliceBurns(After(r1), 6);
    r := Then(r1, FOUR_BURNT);
    assert Step(After(r1), FOUR_BURNT) == CA.SubmitBurn(After(r1), ALICE, ASSET, 4, BURN);
    BurnPendsFour(After(r).burns);
    assert Overwrites(After(r1), FOUR_BURNT);
    NothingMissingIff(r);
  }

  const FULL_ASK := Order(ASSET, NATIVE_MONEY, ALICE, U64_MAX, 1, U64_MAX, ASK, 0)

  /** Alice has asked for a buyer of the whole u64 supply, and submitted an issue of five units more. */
  lemma WholeSupplyAsked() returns (r: Run)
    ensures Admissible(r)
    ensures var s := After(r);
            && s.orders == map[ORDER := FULL_ASK]
            && s.carbon == map[(ASSET, POT) := U64_MAX]
            && s.projects == map[PROJECT := Project(U64_MAX, 0, Approved, ALICE)]
            && s.assets == map[ASSET := Asset(PROJECT, U64_MAX, U64_MAX, Approved)]
            && s.issues == map[ISSUE := IssueInfo(ASSET, 5, Submitted)]
  {
    var r0 := Opening(map[], U64_MAX, U64_MAX);
    var ask := MakeOrder(ALICE, ASSET, NATIVE_MONEY, 1, U64_MAX, ASK, ORDER, false);
    var r1 := Then(r0, ask);
    assert ALICE != POT;
    MakeEffect(After(r0), ask);
    assert After(r1).carbon == map[(ASSET, POT) := U64_MAX];
    r := Then(r1, SubmitIssue(ALICE, ASSET, 5, ISSUE));
  }

  /** It is approved on top of the full counter. */
  lemma OverIssued() returns (r: Run)
    ensures Admissible(r)
    ensures var s := After(r);
            s.orders == map[ORDER := FULL_ASK] && s.carbon == map[(ASSET, POT) := U64_MAX, (ASSET, ALICE) := 5]
  {
    var r2 := WholeSupplyAsked();
    assert ALICE != POT;
    r := Then(r2, ApproveIssue(true, ISSUE));
  }

  lemma OneMoreEmptiesPot(s: State)
    requires s.orders == map[ORDER := FULL_ASK] && s.carbon == map[(ASSET, POT) := U64_MAX, (ASSET, ALICE) := 5]
    ensures !PotCovers(CA.Transfer(s, ALICE, ASSET, POT, 1).state, ASSET)
  {
    assert ALICE != POT;
    assert BalanceOf(CA.Transfer(s, ALICE, ASSET, POT, 1).state.carbon, ASSET, POT) == 0;
    SumBySplit(s.orders, AskLeftOf(ASSET), ORDER);
    assert s.orders - {ORDER} == map[];
  }

  /**
   * Without the condition on issues the books come apart: an approved issue past 2^64 puts more units in
   * accounts than a u64 can count. Then one unit sent to a full pot empties it, and leaves the ASK short.
   */
  lemma OverIssueDrainsPot() returns (r: Run)
    ensures Admissible(r) && !PotCovers(After(r), ASSET)
    ensures !AlwaysEscrowExact(r) && !AlwaysCovered(r) && !AlwaysIdentity(r) && !AlwaysIssuanceExact(r)
  {
    assert ALICE != POT;
    var r3 := OverIssued();
    r := Then(r3, Transfer(ALICE, ASSET, POT, 1));
    OneMoreEmptiesPot(After(r3));
    assert After(r) == CA.Transfer(After(r3), ALICE, ASSET, POT, 1).state;
    UncoveredMeansSplit(r);
  }

  lemma UncoveredMeansSplit(r: Run)
    requires Admissible(r) && !PotCovers(After(r), ASSET)
    ensures !AlwaysEscrowExact(r) && !AlwaysCovered(r) && !AlwaysIdentity(r) && !AlwaysIssuanceExact(r)
  {
    if NeverSplits(r) {
      CarbonEscrowSolvent(r, ASSET);
    }
    assert !EscrowExact(r, ASSET);
    SupplyIdentityIff(r);
    IssuanceExactIff(r);
    if NeverOverflows(r) {
      NoOverflowNoSplit(r);
    }
  }

  /** Two accounts with money, and no others. */
  lemma TwoRich(native: Accounts, x: AccountId, y: AccountId)
    requires x != y && native.Keys == {x, y} && native[x] + native[y] <= U128_MAX
    ensures TotalIssuance(native) <= U128_MAX
  {
    SumBySplit(native, FreeOf(), x);
    SumBySplit(native - {x}, FreeOf(), y);
    assert native - {x} - {y} == map[];
  }

  function BobsBid(price: u64, amount: u64): Call {
    MakeOrder(BOB, ASSET, NATIVE_MONEY, price, amount, BID, ORDER, false)
  }

  lemma BobBids(s: State, paid: Accounts, price: u64, amount: u64)
    requires price > 0 && amount > 0 && ORDER !in s.orders && CA.HasAsset(s.assets, ASSET)
    requires MakePayment(s.native, BOB, POT, SaturatingMul(amount, price), false) == Moved(paid)
    ensures Step(s, BobsBid(price, amount)).outcome == Ok
    ensures Step(s, BobsBid(price, amount)).state.native == paid
  {
    assert Step(s, BobsBid(price, amount)) ==
           CX.MakeOrder(s, BOB, ASSET, NATIVE_MONEY, price, amount, BID, ORDER, false);
  }

  lemma BobSaturates(past: Run, price: u64, amount: u64)
    requires NeverSaturates(past) && Step(After(past), BobsBid(price, amount)).outcome == Ok
    ensures NeverSaturates(Then(past, BobsBid(price, amount))) <==> amount * price <= U64_MAX
  {
    assert Saturates(After(past), BobsBid(price, amount)) <==> U64_MAX < amount * price;
  }

  /** On top of that, Bob makes a BID, and the payment to the pot goes through. */
  lemma WithBid(native: Accounts, paid: Accounts, price: u64, amount: u64) returns (r: Run)
    requires price > 0 && amount > 0 && TotalIssuance(native) <= U128_MAX
    requires MakePayment(native, BOB, POT, SaturatingMul(amount, price), false) == Moved(paid)
    ensures Admissible(r) && Origin(r) == native && OnlyAliceCredited(r)
    ensures NeverSaturates(r) <==> amount * price <= U64_MAX
    ensures var s := After(r);
            && s.orders == map[ORDER := MadeOrder(BobsBid(price, amount))]
            && s.native == paid
            && s.carbon == map[(ASSET, ALICE) := 10]
  {
    var r0 := Opening(native, 10, 10);
    var bid := BobsBid(price, amount);
    r := Then(r0, bid);
    BobBids(After(r0), paid, price, amount);
    MakeEffect(After(r0), bid);
    BobSaturates(r0, price, amount);
    NobodyElseCredited(r0, bid);
    assert BOB != POT;
  }

  const RICH: u128 := 0x4_0000_0000_0000_0000

  lemma FirstPayout()
    ensures MakePayment(map[POT := RICH + U64_MAX, BOB := RICH - U64_MAX], POT, ALICE, U64_MAX, false)
         == Moved(map[POT := RICH, BOB := RICH - U64_MAX, ALICE := U64_MAX])
  {
    assert ALICE != POT && BOB != POT && ALICE != BOB;
  }

  const TWO_UNITS := Order(ASSET, NATIVE_MONEY, BOB, 2, U64_MAX, 2, BID, U64_MAX)

  lemma ClippedCosts()
    ensures SaturatingMul(2, U64_MAX) == U64_MAX && SaturatingMul(1, U64_MAX) == U64_MAX
    ensures Sub(U64_MAX, U64_MAX) == 0
  {
  }

  lemma HalfFilled()
    ensures CX.BookAfterFill(map[ORDER := TWO_UNITS], ORDER, Paid(TWO_UNITS, U64_MAX), 1)
         == map[ORDER := Order(ASSET, NATIVE_MONEY, BOB, 2, U64_MAX, 1, BID, 0)]
  {
    ClippedCosts();
  }

  const TAKE_ONE := TakeOrder(ALICE, ORDER, 1, false)

  lemma TakesOne(s: State)
    ensures Step(s, TAKE_ONE) == CX.TakeOrder(s, ALICE, ORDER, 1, false)
  {
  }

  lemma HalfTaken(s: State)
    requires s.orders == map[ORDER := TWO_UNITS] && s.carbon == map[(ASSET, ALICE) := 10]
    requires s.native == map[POT := RICH + U64_MAX, BOB := RICH - U64_MAX]
    ensures var s' := CX.TakeOrder(s, ALICE, ORDER, 1, false).state;
            && s'.orders == map[ORDER := Order(ASSET, NATIVE_MONEY, BOB, 2, U64_MAX, 1, BID, 0)]
            && s'.native == map[POT := RICH, BOB := RICH - U64_MAX, ALICE := U64_MAX]
            && BalanceOf(s'.carbon, ASSET, ALICE) == 9
  {
    ClippedCosts();
    FirstPayout();
    HalfFilled();
    assert ALICE != BOB;
  }

  /** Bob's BID for two units locks 2^64 - 1 instead of twice that. */
  lemma ClippedBidMade() returns (r: Run)
    ensures Admissible(r) && Free(Origin(r), POT) == RICH && !NeverSaturates(r)
    ensures var s := After(r);
            && s.orders == map[ORDER := TWO_UNITS]
            && s.native == map[POT := RICH + U64_MAX, BOB := RICH - U64_MAX]
            && s.carbon == map[(ASSET, ALICE) := 10]
  {
    var native: Accounts, paid: Accounts := map[POT := RICH, BOB := RICH],
                                            map[POT := RICH + U64_MAX, BOB := RICH - U64_MAX];
    ClippedCosts();
    assert BOB != POT;
    TwoRich(native, POT, BOB);
    assert MakePayment(native, BOB, POT, U64_MAX, false) == Moved(paid);
    r := WithBid(native, paid, U64_MAX, 2);
  }

  /** One fill spends all of it, and leaves a unit. */
  lemma ClippedBidHalfTaken() returns (r: Run)
    ensures Admissible(r) && Free(Origin(r), POT) == RICH && !NeverSaturates(r)
    ensures var s := After(r);
            && s.orders == map[ORDER := Order(ASSET, NATIVE_MONEY, BOB, 2, U64_MAX, 1, BID, 0)]
            && s.native == map[POT := RICH, BOB := RICH - U64_MAX, ALICE := U64_MAX]
            && BalanceOf(s.carbon, ASSET, ALICE) == 9
  {
    var r1 := ClippedBidMade();
    r := Then(r1, TAKE_ONE);
    HalfTaken(After(r1));
    TakesOne(After(r1));
    assert ALICE != POT;
  }

  lemma LastTaken(s: State)
    requires s.orders == map[ORDER := Order(ASSET, NATIVE_MONEY, BOB, 2, U64_MAX, 1, BID, 0)]
    requires s.native == map[POT := RICH, BOB := RICH - U64_MAX, ALICE := U64_MAX]
    requires BalanceOf(s.carbon, ASSET, ALICE) == 9
    ensures var s' := CX.TakeOrder(s, ALICE, ORDER, 1, false).state;
            s'.orders == map[] && Free(s'.native, POT) == RICH - U64_MAX
  {
    ClippedCosts();
    assert ALICE != POT;
  }

  /**
   * Without the condition on BIDs an order can be paid more than it locked: with the lock clipped at
   * 2^64 - 1, two fills of one unit cost that much each, and the pot ends below where it started.
   */
  lemma ClippedBidOverspends() returns (r: Run)
    ensures Admissible(r) && After(r).orders == map[]
    ensures Free(After(r).native, POT) < Free(Origin(r), POT)
    ensures !AlwaysLocksExact(r)
  {
    var r2 := ClippedBidHalfTaken();
    r := Then(r2, TAKE_ONE);
    LastTaken(After(r2));
    TakesOne(After(r2));
    assert ALICE != POT;
    ClippedNeverExact(r2, r.call);
  }

  lemma ClippedNeverExact(past: Run, c: Call)
    requires Admissible(Then(past, c)) && !NeverSaturates(past)
    ensures !AlwaysLocksExact(Then(past, c))
  {
    LocksExactIff(Then(past, c));
  }

  lemma OneUnitRefused(s: State)
    requires s.orders == map[ORDER := Order(ASSET, NATIVE_MONEY, BOB, 1, 1, 1, BID, 1)]
    requires s.carbon == map[(ASSET, ALICE) := 10] && s.native == map[POT := 501, BOB := 999]
    ensures var post := CX.TakeOrder(s, ALICE, ORDER, 1, false);
            && post.outcome == Err(ExistentialDeposit)
            && post.state == s.(carbon := map[(ASSET, ALICE) := 9, (ASSET, BOB) := 1])
  {
    assert ALICE != POT && ALICE != BOB;
    assert MakeTransfer(s.carbon, ASSET, ALICE, BOB, 1) == map[(ASSET, ALICE) := 9, (ASSET, BOB) := 1];
  }

  lemma SmallBidMade() returns (r: Run)
    ensures Endowed(r) && OnlyAliceCredited(r)
    ensures var s := After(r);
            && s.orders == map[ORDER := Order(ASSET, NATIVE_MONEY, BOB, 1, 1, 1, BID, 1)]
            && s.carbon == map[(ASSET, ALICE) := 10]
            && s.native == map[POT := 501, BOB := 999]
  {
    var native: Accounts := map[POT := 500, BOB := 1000];
    assert BOB != POT;
    TwoRich(native, POT, BOB);
    assert MakePayment(native, BOB, POT, 1, false) == Moved(map[POT := 501, BOB := 999]);
    r := WithBid(native, map[POT := 501, BOB := 999], 1, 1);
  }

  /**
   * A taker without an account gives the carbon and is not paid: a failure that leaves a trace, and a
   * holder that the index has no entry for.
   */
  lemma SmallTakerIsStranded() returns (r: Run)
    ensures Endowed(r) && Last(r).Err? && !FailuresClean(r)
    ensures BalanceOf(After(r).carbon, ASSET, BOB) == 1
    ensures Free(After(r).native, ALICE) == 0
    ensures ORDER in After(r).orders && After(r).orders[ORDER].leftAmount == 1
    ensures KeysDistinct(r) && !HoldersKnown(r)
  {
    assert ALICE != POT && ALICE != BOB;
    var r1 := SmallBidMade();
    r := Then(r1, TAKE_ONE);
    OneUnitRefused(After(r1));
    TakesOne(After(r1));
    NobodyElseCredited(r1, TAKE_ONE);
    BobIsUnknown(r);
  }

  lemma BobIsUnknown(r: Run)
    requires Admissible(r) && OnlyAliceCredited(r) && BalanceOf(After(r).carbon, ASSET, BOB) > 0
    ensures KeysDistinct(r) && !HoldersKnown(r)
  {
    assert BOB != POT && BOB != ALICE;
    KnownIffCredited(r, BalanceDoc(BOB, ASSET));
    HolderWithoutEntry(r, BOB);
  }

  // ---- a pot with no endowment ----

  lemma BareBidMade() returns (r: Run)
    ensures Admissible(r) && NeverSaturates(r)
    ensures var s := After(r);
            && s.orders == map[ORDER := Order(ASSET, NATIVE_MONEY, BOB, 2, 300, 2, BID, 600)]
            && s.carbon == map[(ASSET, ALICE) := 10]
            && s.native == map[POT := 600, BOB := 1400, ALICE := 1000]
  {
    var native: Accounts := map[BOB := 2000, ALICE := 1000];
    assert BOB != POT && ALICE != POT && ALICE != BOB;
    TwoRich(native, BOB, ALICE);
    assert MakePayment(native, BOB, POT, 600, false) == Moved(map[POT := 600, BOB := 1400, ALICE := 1000]);
    r := WithBid(native, map[POT := 600, BOB := 1400, ALICE := 1000], 300, 2);
  }

  lemma BidLocks(orders: Orders, o: Order)
    requires orders == map[ORDER := o]
    ensures Locked(orders) == o.lockedBalance
  {
    SumBySplit(orders, LockedOf(), ORDER);
    assert orders - {ORDER} == map[];
  }

  lemma HalfPayoutReaps(s: State)
    requires s.orders == map[ORDER := Order(ASSET, NATIVE_MONEY, BOB, 2, 300, 2, BID, 600)]
    requires s.carbon == map[(ASSET, ALICE) := 10] && s.native == map[POT := 600, BOB := 1400, ALICE := 1000]
    ensures Defaults(s, TAKE_ONE)
  {
    assert ALICE != POT && BOB != POT && ALICE != BOB;
    BidLocks(s.orders, s.orders[ORDER]);
    FillIs(s, ALICE, ORDER, 1, 300, false);
    TakesOne(s);
  }

  /** Without an endowment the first payout can reap the pot, and the rest of the lock is gone. */
  lemma BarePotIsReaped() returns (r: Run)
    ensures Admissible(r) && NeverSaturates(r) && !AlwaysSolvent(r)
  {
    var r1 := BareBidMade();
    HalfPayoutReaps(After(r1));
    assert ALICE != POT;
    r := Then(r1, TAKE_ONE);
    BareSolvencyIff(r);
  }

  /** Two units at once make the taker's account live; one after the other are both refused. */
  lemma PartsCanBeTooSmall() returns (r: Run)
    ensures Admissible(r) && Unclipped(After(r), ALICE, ORDER, 2, false)
    ensures Stored(FillAll(After(r), ALICE, ORDER, [1, 1], false))
         != Stored(CX.TakeOrder(After(r), ALICE, ORDER, 2, false).state)
  {
    var native: Accounts, paid: Accounts := map[POT := 1000, BOB := 2000], map[POT := 1600, BOB := 1400];
    assert BOB != POT && ALICE != POT && ALICE != BOB;
    TwoRich(native, POT, BOB);
    assert MakePayment(native, BOB, POT, 600, false) == Moved(paid);
    r := WithBid(native, paid, 300, 2);
    TwoUnitsPay(After(r));
    LinkedAlways(r);
    FillPathIndependenceIff(After(r), ALICE, ORDER, [1, 1], false);
  }

  lemma TwoUnitsPay(s: State)
    requires s.orders == map[ORDER := Order(ASSET, NATIVE_MONEY, BOB, 2, 300, 2, BID, 600)]
    requires s.carbon == map[(ASSET, ALICE) := 10] && s.native == map[POT := 1600, BOB := 1400]
    ensures Sum([1, 1]) == 2
    ensures Unclipped(s, ALICE, ORDER, 2, false) && !PartsPay(s, ALICE, ORDER, [1, 1])
  {
    assert ALICE != POT && ALICE != BOB;
    assert [1, 1][1..] == [1] && [1][1..] == [];
    assert Sum([1]) == 1;
    FillIs(s, ALICE, ORDER, 2, 600, false);
  }

  // ---- the index ----

  /** What sending one unit of `a` from `x` to `y` does to every balance of it. */
  ghost predicate OnePaid(b: Carbon, b': Carbon, a: Hash, x: AccountId, y: AccountId) {
    forall who :: BalanceOf(b', a, who) ==
                  BalanceOf(b, a, who) - (if who == x then 1 else 0) + (if who == y then 1 else 0)
  }

  lemma TransferPays(s: State, a: Hash, x: AccountId, y: AccountId)
    requires x != y && 0 < BalanceOf(s.carbon, a, x) && BalanceOf(s.carbon, a, y) == 0
    ensures CA.Transfer(s, x, a, y, 1).outcome == Ok
    ensures OnePaid(s.carbon, CA.Transfer(s, x, a, y, 1).state.carbon, a, x, y)
  {
    forall who
      ensures BalanceOf(MakeTransfer(s.carbon, a, x, y, 1), a, who) ==
              BalanceOf(s.carbon, a, who) - (if who == x then 1 else 0) + (if who == y then 1 else 0)
    {
      BalanceAfterTransfer(s.carbon, a, x, y, 1, a, who);
    }
  }

  /** Alice sends one unit to `to`, and the index gets an entry for `to`. */
  lemma AlicePays(past: Run, to: AccountId) returns (r: Run)
    requires Admissible(past) && to != ALICE
    requires 0 < BalanceOf(After(past).carbon, ASSET, ALICE) && BalanceOf(After(past).carbon, ASSET, to) == 0
    ensures Admissible(r) && r.Then? && r.past == past
    ensures CreditBy(After(past), r.call) == Some(BalanceDoc(to, ASSET))
    ensures BalancesOf(r) == Credit(BalancesOf(past), Some(BalanceDoc(to, ASSET)))
    ensures OnePaid(After(past).carbon, After(r).carbon, ASSET, ALICE, to)
  {
    assert ALICE != POT;
    r := Then(past, Transfer(ALICE, ASSET, to, 1));
    TransferPays(After(past), ASSET, ALICE, to);
    assert Step(After(past), r.call) == CA.Transfer(After(past), ALICE, ASSET, to, 1);
    BalancesThen(past, r.call);
  }

  lemma TwoKeys()
    ensures Key(BalanceDoc(ALICE, ASSET)) != Key(BalanceDoc(ALICE, ASSET2))
  {
    assert |Key(BalanceDoc(ALICE, ASSET))| == 11 && |Key(BalanceDoc(ALICE, ASSET2))| == 12;
  }

  lemma TwoSubmitted() returns (r: Run)
    ensures Admissible(r)
    ensures After(r).projects == map[PROJECT := Project(10, 0, Approved, ALICE)]
    ensures After(r).assets == map[ASSET := Asset(PROJECT, 5, 0, Submitted), ASSET2 := Asset(PROJECT, 5, 0, Submitted)]
  {
    var r0 := ProjectOpened(map[], 10);
    assert ALICE != POT && ASSET != ASSET2;
    var r1 := Then(r0, SubmitAsset(ALICE, PROJECT, 5, ASSET));
    assert After(r1).assets == map[ASSET := Asset(PROJECT, 5, 0, Submitted)];
    assert After(r1).projects == map[PROJECT := Project(10, 0, Approved, ALICE)] && Admissible(r1);
    r := Then(r1, SubmitAsset(ALICE, PROJECT, 5, ASSET2));
  }

  /** One account that owns two assets is known to the index for both. */
  lemma TwoAssetsKnown() returns (r: Run)
    ensures Admissible(r)
    ensures Known(BalancesOf(r), BalanceDoc(ALICE, ASSET)) && Known(BalancesOf(r), BalanceDoc(ALICE, ASSET2))
  {
    var r0 := TwoSubmitted();
    var r1 := Then(r0, ApproveAsset(true, ASSET));
    assert ASSET != ASSET2;
    assert CreditBy(After(r0), r1.call) == Some(BalanceDoc(ALICE, ASSET));
    BalancesThen(r0, r1.call);
    r := Then(r1, ApproveAsset(true, ASSET2));
    assert CreditBy(After(r1), r.call) == Some(BalanceDoc(ALICE, ASSET2));
    BalancesThen(r1, r.call);
    TwoKeys();
  }

  lemma SecondReplacesFirst(balances: map<string, BalanceDoc>, d: BalanceDoc, e: BalanceDoc)
    requires d != e && Key(d) == Key(e)
    ensures var first := Credit(balances, Some(d));
            Clobbers(first, Some(e)) && !Known(Credit(first, Some(e)), d)
  {
  }

  /** Of two accounts with one key, the entry of the second replaces that of the first, a holder still. */
  lemma SameKeysCollide(x: AccountId, y: AccountId) returns (r: Run)
    requires x != y && x != ALICE && y != ALICE && x != POT
    requires Key(BalanceDoc(x, ASSET)) == Key(BalanceDoc(y, ASSET))
    ensures Admissible(r) && !NeverClobbers(r) && !HoldersKnown(r)
  {
    var r0 := Opening(map[], 10, 10);
    assert forall who :: who != ALICE ==> BalanceOf(After(r0).carbon, ASSET, who) == 0;
    var r1 := AlicePays(r0, x);
    r := AlicePays(r1, y);
    SecondReplacesFirst(BalancesOf(r0), BalanceDoc(x, ASSET), BalanceDoc(y, ASSET));
    HolderWithoutEntry(r, x);
  }

  lemma HolderWithoutEntry(r: Run, x: AccountId)
    requires x != POT && BalanceOf(After(r).carbon, ASSET, x) > 0 && !Known(BalancesOf(r), BalanceDoc(x, ASSET))
    ensures !HoldersKnown(r)
  {
  }

  const SHARON1 := AccountId("sharon-1")
  const SHARON2 := AccountId("sharon-2")

  /** It takes no more than two accounts that begin alike. */
  lemma KeysCollide() returns (r: Run)
    ensures Admissible(r) && !NeverClobbers(r) && !HoldersKnown(r)
  {
    assert Slice(SHARON1.text, 6) == "sharon" == Slice(SHARON2.text, 6);
    assert SHARON1.text[7] != SHARON2.text[7];
    assert SHARON1 != POT && |ALICE.text| == 5;
    r := SameKeysCollide(SHARON1, SHARON2);
  }

  const RESALE := MakeOrder(ALICE, ASSET, NATIVE_MONEY, 1, 10, ASK, ORDER, false)

  lemma AskedOnce() returns (r: Run)
    ensures Admissible(r) && TimesMade(r, ORDER) >= 1
    ensures var s := After(r);
            && s.orders == map[ORDER := MadeOrder(RESALE)]
            && s.carbon == map[(ASSET, POT) := 10]
            && CA.HasAsset(s.assets, ASSET)
  {
    var r0 := Opening(map[], 10, 10);
    assert ALICE != POT;
    r := Then(r0, RESALE);
    MakeEffect(After(r0), RESALE);
  }

  lemma AskedAndCancelled() returns (r: Run)
    ensures Admissible(r) && TimesMade(r, ORDER) >= 1
    ensures var s := After(r);
            s.orders == map[] && s.carbon == map[(ASSET, ALICE) := 10] && CA.HasAsset(s.assets, ASSET)
  {
    var r1 := AskedOnce();
    assert ALICE != POT;
    r := Then(r1, CancelOrder(ALICE, ORDER));
    CancelEffect(After(r1), CancelOrder(ALICE, ORDER));
  }

  lemma ResaleSucceeds(s: State)
    requires s.orders == map[] && s.carbon == map[(ASSET, ALICE) := 10] && CA.HasAsset(s.assets, ASSET)
    ensures Makes(s, RESALE, ORDER) && ORDER in Step(s, RESALE).state.orders
  {
    MakeAnswers(s, RESALE);
    MakeEffect(s, RESALE);
  }

  lemma MadeAgainStaysClosed(past: Run, c: Call)
    requires Admissible(Then(past, c)) && TimesMade(past, ORDER) >= 1 && Makes(After(past), c, ORDER)
    ensures !Open(IndexOf(Then(past, c)).orders, ORDER)
  {
    OrdersAlwaysIndexed(Then(past, c), ORDER);
  }

  /** An order id made again after a cancel is live on chain and stays closed in the index. */
  lemma ReusedIdStaysClosed() returns (r: Run)
    ensures Admissible(r) && ORDER in After(r).orders && !Open(IndexOf(r).orders, ORDER)
  {
    var r2 := AskedAndCancelled();
    assert ALICE != POT;
    r := Then(r2, RESALE);
    ResaleSucceeds(After(r2));
    MadeAgainStaysClosed(r2, RESALE);
  }

  // ---- the registry with its counter stored ----

  /** Two assets are submitted to a project with the largest cap, and the first takes all of it. */
  lemma FullProject() returns (r: Run)
    ensures AdmissibleStored(r)
    ensures var s := AfterStored(r);
            && s.projects == map[PROJECT := Project(U64_MAX, U64_MAX, Approved, ALICE)]
            && s.assets == map[ASSET := Asset(PROJECT, U64_MAX, U64_MAX, Approved),
                               ASSET2 := Asset(PROJECT, 5, 0, Submitted)]
  {
    var r0 := Genesis(map[]);
    var r1 := Then(r0, SubmitProject(ALICE, PROJECT, U64_MAX));
    var r2 := Then(r1, ApproveProject(true, PROJECT));
    var r3 := Then(r2, SubmitAsset(ALICE, PROJECT, U64_MAX, ASSET));
    var r4 := Then(r3, SubmitAsset(ALICE, PROJECT, 5, ASSET2));
    r := Then(r4, ApproveAsset(true, ASSET));
    assert ALICE != POT && ASSET != ASSET2;
    assert AfterStored(r1).projects == map[PROJECT := Project(U64_MAX, 0, Submitted, ALICE)];
    assert AfterStored(r1).assets == map[] && AdmissibleStored(r1);
    assert AfterStored(r2).projects == map[PROJECT := Project(U64_MAX, 0, Approved, ALICE)];
    assert AfterStored(r2).assets == map[] && AdmissibleStored(r2);
    assert AfterStored(r3).assets == map[ASSET := Asset(PROJECT, U64_MAX, 0, Submitted)] && AdmissibleStored(r3);
    assert AfterStored(r4).assets == map[ASSET := Asset(PROJECT, U64_MAX, 0, Submitted),
                                         ASSET2 := Asset(PROJECT, 5, 0, Submitted)] && AdmissibleStored(r4);
  }

  /** Even with its counter stored, the registry lets the second in: the limit test wraps. */
  lemma StoredGuardWraps() returns (r: Run)
    ensures AdmissibleStored(r) && !AlwaysCountersCap(r)
  {
    var r1 := FullProject();
    r := Then(r1, ApproveAsset(true, ASSET2));
    assert !GuardUnwrapped(AfterStored(r1), r.call);
    StoredCounterCapsIff(r);
  }

  // ---- standard assets ----

  /** Bob mints units of an id before Alice issues it, and they are never counted. */
  lemma MintedBeforeIssue() returns (r: SA.Run)
    ensures !SA.AlwaysModular(r)
  {
    var r1 := SA.Then(SA.Genesis, SA.Mint(BOB, ASSET, 5));
    var issue := SA.Issue(ALICE, ASSET, 10, 10);
    r := SA.Then(r1, issue);
    assert BOB != ALICE;
    assert SA.After(r1).balances == map[(ASSET, BOB) := 5];
    HoldingsAfterSet(map[], ASSET, BOB, 5, ASSET);
    CongruentMeansSameResidue(5, 0);
    assert SA.Clashes(SA.After(r1), issue);
    SA.ModularSupplyIff(r);
  }

  /** Alice issues all that a u64 can count, and Bob mints more: the supply wraps, his balance does not. */
  lemma MintedPastTheTop() returns (r: SA.Run)
    ensures !SA.AlwaysExact(r) && SA.NeverClashes(r)
  {
    var r1 := SA.Then(SA.Genesis, SA.Issue(ALICE, ASSET, U64_MAX, U64_MAX));
    var mint := SA.Mint(BOB, ASSET, 5);
    r := SA.Then(r1, mint);
    assert BOB != ALICE;
    assert SA.After(r1).balances == map[(ASSET, ALICE) := U64_MAX];
    assert SA.MintSplits(SA.After(r1), mint);
    SA.ExactSupplyIff(r);
    SA.MintingAfterIssueNeverClashes(r);
  }
}
