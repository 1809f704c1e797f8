/** The standard assets: anybody issues, mints and burns, and `TotalSupply` should be what is held. */
module StandardAssets {
  import opened U64
  import opened Ledger

  datatype Info = Info(maxSupply: u64)

  datatype Store = Store(infos: map<Hash, Info>, balances: Carbon, supply: map<Hash, u64>)

  datatype Call =
    | Issue(origin: AccountId, id: Hash, maxSupply: u64, firstSupply: u64)
    | Transfer(origin: AccountId, id: Hash, target: AccountId, amount: u64)
    | Mint(origin: AccountId, id: Hash, amount: u64)
    | Burn(origin: AccountId, id: Hash, amount: u64)

  datatype Result = Result(store: Store, outcome: Outcome)

  function TotalSupply(supply: map<Hash, u64>, id: Hash): u64 {
    if id in supply then supply[id] else 0
  }

  function Step(s: Store, c: Call): Result {
    match c
    case Issue(origin, id, maxSupply, firstSupply) =>
      if id in s.infos then Result(s, Err(DuplicatedKey))
      else Result(Store(s.infos[id := Info(maxSupply)], SetBalance(s.balances, id, origin, firstSupply),
                      s.supply[id := firstSupply]), Ok)
    case Transfer(origin, id, target, amount) =>
      if amount == 0 then Result(s, Err(AmountZero))
      else if BalanceOf(s.balances, id, origin) < amount then Result(s, Err(BalanceLow))
      else
        var debited := SetBalance(s.balances, id, origin, BalanceOf(s.balances, id, origin) - amount);
        Result(s.(balances := SetBalance(debited, id, target, Add(BalanceOf(debited, id, target), amount))), Ok)
    case Mint(origin, id, amount) =>
      Result(s.(balances := SetBalance(s.balances, id, origin, Add(BalanceOf(s.balances, id, origin), amount)),
              supply := s.supply[id := Add(TotalSupply(s.supply, id), amount)]), Ok)
    case Burn(origin, id, amount) =>
      if amount == 0 then Result(s, Err(AmountZero))
      else if BalanceOf(s.balances, id, origin) < amount then Result(s, Err(BalanceLow))
      else
        Result(s.(balances := SetBalance(s.balances, id, origin, BalanceOf(s.balances, id, origin) - amount),
                supply := s.supply[id := Sub(TotalSupply(s.supply, id), amount)]), Ok)
  }

  // ---- what each call answers and moves ----

  /** The tests of a call in order; a mint has none. */
  function Answer(s: Store, c: Call): Outcome {
    match c
    case Issue(_, id, _, _) => Ok.Ensure(id !in s.infos, DuplicatedKey)
    case Transfer(origin, id, _, amount) =>
      Ok.Ensure(0 < amount, AmountZero).Ensure(amount <= BalanceOf(s.balances, id, origin), BalanceLow)
    case Mint(_, _, _) => Ok
    case Burn(origin, id, amount) =>
      Ok.Ensure(0 < amount, AmountZero).Ensure(amount <= BalanceOf(s.balances, id, origin), BalanceLow)
  }

  /** Units that the call gives an account, and takes from it. */
  function Received(c: Call, id: Hash, who: AccountId): int {
    match c
    case Issue(_, _, _, _) => 0
    case Transfer(_, i, target, amount) => if i == id && target == who then amount else 0
    case Mint(origin, i, amount) => if i == id && origin == who then amount else 0
    case Burn(_, _, _) => 0
  }

  function Given(c: Call, id: Hash, who: AccountId): int {
    match c
    case Issue(_, _, _, _) => 0
    case Transfer(origin, i, _, amount) => if i == id && origin == who then amount else 0
    case Mint(_, _, _) => 0
    case Burn(origin, i, amount) => if i == id && origin == who then amount else 0
  }

  /** What every call does to every balance: a failed one nothing, an issue an overwrite, the others a move. */
  lemma CallsMove(s: Store, c: Call, id: Hash, who: AccountId)
    ensures Step(s, c).outcome == Answer(s, c)
    ensures Answer(s, c) != Ok ==> Step(s, c).store == s
    ensures Answer(s, c) == Ok ==>
              BalanceOf(Step(s, c).store.balances, id, who) ==
              if c.Issue? && c.id == id && c.origin == who then c.firstSupply
              else Wrapped(BalanceOf(s.balances, id, who) + Received(c, id, who) - Given(c, id, who))
  {
  }

  /** And to every supply, and to what is stored of every id. */
  lemma SuppliesMove(s: Store, c: Call, id: Hash)
    requires Answer(s, c) == Ok
    ensures var s' := Step(s, c).store;
            && TotalSupply(s'.supply, id) ==
               (if c.id != id || c.Transfer? then TotalSupply(s.supply, id)
                else if c.Issue? then c.firstSupply
                else Wrapped(TotalSupply(s.supply, id) + (if c.Mint? then c.amount else 0)
                             - (if c.Burn? then c.amount else 0)))
            && (id in s'.infos <==> id in s.infos || (c.Issue? && c.id == id))
            && (id in s'.infos ==>
                  s'.infos[id] == if c.Issue? && c.id == id then Info(c.maxSupply) else s.infos[id])
  {
  }

  class Pallet {
    var infos: map<Hash, Info>
    var balances: Carbon
    var supply: map<Hash, u64>

    function Stored(): Store
      reads this
    {
      Store(infos, balances, supply)
    }

    constructor ()
      ensures Stored() == Store(map[], map[], map[])
    {
      infos, balances, supply := map[], map[], map[];
    }

    method Issue(origin: AccountId, id: Hash, maxSupply: u64, firstSupply: u64) returns (r: Outcome)
      modifies this
      ensures Result(Stored(), r) == Step(old(Stored()), Call.Issue(origin, id, maxSupply, firstSupply))
    {
      if id in infos {
        return Err(DuplicatedKey);
      }
      infos := infos[id := Info(maxSupply)];
      balances := SetBalance(balances, id, origin, firstSupply);
      supply := supply[id := firstSupply];
      return Ok;
    }

    method Transfer(origin: AccountId, id: Hash, target: AccountId, amount: u64) returns (r: Outcome)
      modifies this`balances
      ensures Result(Stored(), r) == Step(old(Stored()), Call.Transfer(origin, id, target, amount))
    {
      var originBalance := BalanceOf(balances, id, origin);
      if amount == 0 {
        return Err(AmountZero);
      }
      if originBalance < amount {
        return Err(BalanceLow);
      }
      balances := SetBalance(balances, id, origin, originBalance - amount);
      balances := SetBalance(balances, id, target, Add(BalanceOf(balances, id, target), amount));
      return Ok;
    }

    method Mint(origin: AccountId, id: Hash, amount: u64) returns (r: Outcome)
      modifies this`balances, this`supply
      ensures Result(Stored(), r) == Step(old(Stored()), Call.Mint(origin, id, amount))
    {
      balances := SetBalance(balances, id, origin, Add(BalanceOf(balances, id, origin), amount));
      supply := supply[id := Add(TotalSupply(supply, id), amount)];
      return Ok;
    }

    method Burn(origin: AccountId, id: Hash, amount: u64) returns (r: Outcome)
      modifies this`balances, this`supply
      ensures Result(Stored(), r) == Step(old(Stored()), Call.Burn(origin, id, amount))
    {
      if amount == 0 {
        return Err(AmountZero);
      }
      var originBalance := BalanceOf(balances, id, origin);
      if originBalance < amount {
        return Err(BalanceLow);
      }
      balances := SetBalance(balances, id, origin, originBalance - amount);
      supply := supply[id := Sub(TotalSupply(supply, id), amount)];
      return Ok;
    }
  }

  datatype Run = Genesis | Then(past: Run, call: Call)

  function After(r: Run): Store {
    match r
    case Genesis => Store(map[], map[], map[])
    case Then(past, c) => Step(After(past), c).store
  }

  /** How far what is held of `id` is from its `TotalSupply`. */
  ghost function Gap(s: Store, id: Hash): int {
    Holdings(s.balances, id) - TotalSupply(s.supply, id)
  }

  // ---- what each call does to the gap ----

  /** Units of `id` that accounts other than the issuer already hold when it is issued. */
  ghost function HeldByOthers(s: Store, c: Call): int
    requires c.Issue?
  {
    Holdings(s.balances, c.id) - BalanceOf(s.balances, c.id, c.origin)
  }

  lemma IssueGap(s: Store, c: Call, id: Hash)
    requires c.Issue?
    ensures Gap(Step(s, c).store, id) ==
            if Step(s, c).outcome == Ok && id == c.id then HeldByOthers(s, c) else Gap(s, id)
  {
    HoldingsAfterSet(s.balances, c.id, c.origin, c.firstSupply, id);
  }

  /** A transfer, to oneself as well, moves nothing in or out; in range it moves nothing but the amount. */
  lemma TransferGap(s: Store, c: Call, id: Hash)
    requires c.Transfer?
    ensures Congruent(Gap(Step(s, c).store, id), Gap(s, id))
    ensures Holdings(s.balances, c.id) <= U64_MAX || id != c.id ==> Gap(Step(s, c).store, id) == Gap(s, id)
  {
    if Step(s, c).outcome == Ok {
      var b := s.balances;
      var left := BalanceOf(b, c.id, c.origin) - c.amount;
      var debited := SetBalance(b, c.id, c.origin, left);
      var target := BalanceOf(debited, c.id, c.target);
      HoldingsAfterSet(b, c.id, c.origin, left, id);
      HoldingsAfterSet(debited, c.id, c.target, Add(target, c.amount), id);
      HoldingsAfterSet(b, c.id, c.origin, left, c.id);
      BalanceWithinHoldings(debited, c.id, c.target);
      assert Turns(-1) == -U64_MAX - 1;
    }
  }

  /** The mint takes the supply past 2^64 and not the balance. */
  predicate MintSplits(s: Store, c: Call) {
    c.Mint? && BalanceOf(s.balances, c.id, c.origin) + c.amount <= U64_MAX < TotalSupply(s.supply, c.id) + c.amount
  }

  lemma MintGap(s: Store, c: Call, id: Hash)
    requires c.Mint?
    ensures Congruent(Gap(Step(s, c).store, id), Gap(s, id))
    ensures Gap(s, id) == 0 ==>
              (Gap(Step(s, c).store, id) == 0 <==> !(MintSplits(s, c) && id == c.id))
  {
    HoldingsAfterSet(s.balances, c.id, c.origin, Add(BalanceOf(s.balances, c.id, c.origin), c.amount), id);
    BalanceWithinHoldings(s.balances, c.id, c.origin);
    assert Turns(1) == U64_MAX + 1 && Turns(-1) == -U64_MAX - 1;
  }

  lemma BurnGap(s: Store, c: Call, id: Hash)
    requires c.Burn?
    ensures Congruent(Gap(Step(s, c).store, id), Gap(s, id))
    ensures Gap(s, id) == 0 ==> Gap(Step(s, c).store, id) == 0
  {
    if Step(s, c).outcome == Ok {
      HoldingsAfterSet(s.balances, c.id, c.origin, BalanceOf(s.balances, c.id, c.origin) - c.amount, id);
      BalanceWithinHoldings(s.balances, c.id, c.origin);
      assert Turns(-1) == -U64_MAX - 1;
    }
  }

  // ---- modulo 2^64 ----

  ghost predicate GapVanishes(s: Store, id: Hash) {
    Congruent(Gap(s, id), 0)
  }

  /** The issue overwrites the supply while others hold units of the id that are not a multiple of 2^64. */
  ghost predicate Clashes(s: Store, c: Call) {
    c.Issue? && Step(s, c).outcome == Ok && !Congruent(HeldByOthers(s, c), 0)
  }

  ghost predicate NeverClashes(r: Run) {
    r.Then? ==> NeverClashes(r.past) && !Clashes(After(r.past), r.call)
  }

  ghost predicate AlwaysModular(r: Run) {
    (forall id :: GapVanishes(After(r), id)) && (r.Then? ==> AlwaysModular(r.past))
  }

  lemma ModularStep(s: Store, c: Call)
    requires forall id :: GapVanishes(s, id)
    ensures (forall id :: GapVanishes(Step(s, c).store, id)) <==> !Clashes(s, c)
  {
    forall id ensures GapVanishes(Step(s, c).store, id) <==> !(Clashes(s, c) && id == c.id) {
      assert GapVanishes(s, id);
      match c {
        case Issue(_, _, _, _) => IssueGap(s, c, id);
        case Transfer(_, _, _, _) => TransferGap(s, c, id);
        case Mint(_, _, _) => MintGap(s, c, id);
        case Burn(_, _, _) => BurnGap(s, c, id);
      }
      CongruentAdd(Gap(Step(s, c).store, id) - Gap(s, id), Gap(Step(s, c).store, id) - Gap(s, id), Gap(s, id), 0);
      CongruentMeansSameResidue(Gap(Step(s, c).store, id), Gap(s, id));
      CongruentMeansSameResidue(Gap(s, id), 0);
      CongruentMeansSameResidue(Gap(Step(s, c).store, id), 0);
    }
    if Clashes(s, c) {
      assert !GapVanishes(Step(s, c).store, c.id);
    }
  }

  /**
   * `TotalSupply` equals the sum of the balances modulo 2^64 after every call, for every id, if and only
   * if whenever an id was issued the units of it that others held were a multiple of 2^64, such as none.
   */
  lemma {:induction false} ModularSupplyIff(r: Run)
    ensures AlwaysModular(r) <==> NeverClashes(r)
  {
    match r
    case Genesis =>
      forall id ensures GapVanishes(After(r), id) {}
    case Then(past, c) =>
      ModularSupplyIff(past);
      if AlwaysModular(past) {
        ModularStep(After(past), c);
        assert After(r) == Step(After(past), c).store;
      }
  }

  /** Every mint is of an id that has been issued. */
  ghost predicate NeverMintsEarly(r: Run) {
    r.Then? ==> NeverMintsEarly(r.past) && (r.call.Mint? ==> r.call.id in After(r.past).infos)
  }

  ghost predicate Unissued(s: Store, id: Hash) {
    id !in s.infos ==> Holdings(s.balances, id) == 0
  }

  /** Minting nothing before its issue is enough for ids never to clash. */
  lemma {:induction false} MintingAfterIssueNeverClashes(r: Run)
    requires NeverMintsEarly(r)
    ensures NeverClashes(r)
    ensures forall id :: Unissued(After(r), id)
  {
    match r
    case Genesis =>
      forall id ensures Unissued(After(r), id) {}
    case Then(past, c) =>
      var s := After(past);
      MintingAfterIssueNeverClashes(past);
      assert Unissued(s, c.id);
      BalanceWithinHoldings(s.balances, c.id, c.origin);
      forall id ensures Unissued(After(r), id) {
        assert Unissued(s, id);
        if Step(s, c).outcome == Ok {
          OtherIdsKeepHoldings(s, c, id);
        }
      }
  }

  lemma OtherIdsKeepHoldings(s: Store, c: Call, id: Hash)
    ensures id != c.id ==> Holdings(Step(s, c).store.balances, id) == Holdings(s.balances, id)
  {
    if id != c.id {
      match c {
        case Issue(_, _, _, _) => IssueGap(s, c, id);
        case Transfer(_, _, _, _) => TransferGap(s, c, id);
        case Mint(origin, _, amount) =>
          HoldingsAfterSet(s.balances, c.id, origin, Add(BalanceOf(s.balances, c.id, origin), amount), id);
        case Burn(origin, _, amount) =>
          if Step(s, c).outcome == Ok {
            HoldingsAfterSet(s.balances, c.id, origin, BalanceOf(s.balances, c.id, origin) - amount, id);
          }
      }
    }
  }

  // ---- as integers ----

  ghost predicate GapClosed(s: Store, id: Hash) {
    Gap(s, id) == 0
  }

  /** The call leaves supply and balances of its id apart. */
  ghost predicate Breaks(s: Store, c: Call) {
    || (c.Issue? && Step(s, c).outcome == Ok && HeldByOthers(s, c) != 0)
    || MintSplits(s, c)
  }

  ghost predicate NeverBreaks(r: Run) {
    r.Then? ==> NeverBreaks(r.past) && !Breaks(After(r.past), r.call)
  }

  ghost predicate AlwaysExact(r: Run) {
    (forall id :: GapClosed(After(r), id)) && (r.Then? ==> AlwaysExact(r.past))
  }

  lemma ExactStep(s: Store, c: Call)
    requires forall id :: GapClosed(s, id)
    ensures (forall id :: GapClosed(Step(s, c).store, id)) <==> !Breaks(s, c)
  {
    forall id ensures GapClosed(Step(s, c).store, id) <==> !(Breaks(s, c) && id == c.id) {
      assert GapClosed(s, id);
      match c {
        case Issue(_, _, _, _) => IssueGap(s, c, id);
        case Transfer(_, _, _, _) => TransferGap(s, c, id);
        case Mint(_, _, _) => MintGap(s, c, id);
        case Burn(_, _, _) => BurnGap(s, c, id);
      }
    }
    if Breaks(s, c) {
      assert !GapClosed(Step(s, c).store, c.id);
    }
  }

  /** The same as integers: if and only if, besides, no mint took the supply past 2^64 without the balance. */
  lemma {:induction false} ExactSupplyIff(r: Run)
    ensures AlwaysExact(r) <==> NeverBreaks(r)
  {
    match r
    case Genesis =>
      forall id ensures GapClosed(After(r), id) {}
    case Then(past, c) =>
      ExactSupplyIff(past);
      if AlwaysExact(past) {
        ExactStep(After(past), c);
        assert After(r) == Step(After(past), c).store;
      }
  }

  /** The unchecked addition of the transfer stays in range, to another account or to the sender's own. */
  predicate AdditionInRange(s: Store, c: Call)
    requires c.Transfer? && Step(s, c).outcome == Ok
  {
    var debited := SetBalance(s.balances, c.id, c.origin, BalanceOf(s.balances, c.id, c.origin) - c.amount);
    BalanceOf(debited, c.id, c.target) + c.amount <= U64_MAX
  }

  lemma ClosedGapLeavesRoom(s: Store, c: Call)
    requires c.Transfer? && Step(s, c).outcome == Ok && GapClosed(s, c.id)
    ensures AdditionInRange(s, c)
  {
    if c.origin != c.target {
      BalancesWithinHoldings(s.balances, c.id, c.origin, c.target);
    }
  }

  /** With supply and balances equal all along, no transfer wraps a balance. */
  lemma TransferInRange(r: Run, c: Call)
    requires NeverBreaks(r) && c.Transfer? && Step(After(r), c).outcome == Ok
    ensures AdditionInRange(After(r), c)
  {
    ExactSupplyIff(r);
    ClosedGapLeavesRoom(After(r), c);
  }
}
