/** The storage shared by the pallets, the calls' outcomes and the event log. */
module Ledger {
  import opened U64
  import opened Sums

  datatype Hash = Hash(text: string)
  datatype AccountId = AccountId(text: string)

  /** The exchange's own account: derived from the pallet id, so nobody holds its key. */
  const POT := AccountId("modlcbex/pot")

  /** `T::Hash::default()`: the native currency as quote money. */
  const NATIVE_MONEY := Hash("0x00")

  const ASK: int := 0
  const BID: int := 1

  datatype Status = Submitted | Approved

  datatype Project = Project(maxSupply: u64, totalSupply: u64, status: Status, owner: AccountId)
  datatype Asset = Asset(projectId: Hash, initialSupply: u64, totalSupply: u64, status: Status)
  datatype IssueInfo = IssueInfo(assetId: Hash, amount: u64, status: Status)
  datatype BurnInfo = BurnInfo(assetId: Hash, amount: u64, status: Status)

  datatype Order = Order(
    assetId: Hash,
    moneyId: Hash,
    maker: AccountId,
    amount: u64,
    price: u64,
    leftAmount: u64,
    direction: int,
    lockedBalance: u64)

  datatype Event =
    | ProjectSubmited(projectId: Hash, owner: AccountId)
    | ProjectApproved(projectId: Hash)
    | AssetSubmited(projectId: Hash, assetId: Hash, owner: AccountId)
    | AssetApproved(assetId: Hash)
    | IssueSubmited(issueId: Hash, assetId: Hash, owner: AccountId, amount: u64)
    | IssueApproved(issueId: Hash)
    | BurnSubmited(burnId: Hash, assetId: Hash, owner: AccountId, amount: u64)
    | Transferred(assetId: Hash, from: AccountId, to: AccountId, amount: u64)
    | Neutralized(assetId: Hash, owner: AccountId, amount: u64)
    | NewOrder(orderId: Hash, maker: AccountId, assetId: Hash, moneyId: Hash, direction: int)
    | NewDeal(orderId: Hash, assetId: Hash, moneyId: Hash, maker: AccountId, taker: AccountId,
              price: u64, amount: u64, direction: int)
    | OrderFinished(orderId: Hash)
    | OrderCanceled(orderId: Hash)

  datatype Error =
    | BadOrigin
    | InvalidIndex
    | DuplicatedKey
    | AlreadyApproved
    | ProjectNotApproved
    | PermissionDenied
    | OverIssueLimit
    | AssetNotApproved
    | AmountZero
    | BalanceLow
    | AssetNotExist
    | InvalidMoneyID
    | InvalidDirection
    | InsuffientAsset
    | InsuffientPotAsset
    | PriceZero
    | AmountHigh
    | InsufficientBalance
    | ExistentialDeposit
    | Overflow
    | LiquidityRestrictions

  datatype Outcome = Ok | Err(error: Error) {
    /** `ensure!`: the first test that fails gives the error. */
    function Ensure(holds: bool, error: Error): Outcome {
      if this == Ok && !holds then Err(error) else this
    }
  }

  type Carbon = map<(Hash, AccountId), u64>
  type Accounts = map<AccountId, u128>
  type Orders = map<Hash, Order>

  datatype State = Storage(
    projects: map<Hash, Project>,
    assets: map<Hash, Asset>,
    issues: map<Hash, IssueInfo>,
    burns: map<Hash, BurnInfo>,
    carbon: Carbon,
    orders: Orders,
    native: Accounts,
    events: seq<Event>)

  /** What one call leaves behind. A failed call keeps whatever it had written before it failed. */
  datatype Post = Post(state: State, outcome: Outcome)

  function Fail(s: State, e: Error): Post {
    Post(s, Err(e))
  }

  // ---- carbon balances ----

  function BalanceOf(b: Carbon, a: Hash, who: AccountId): u64 {
    if (a, who) in b then b[(a, who)] else 0
  }

  /** A missing entry reads as zero, so a zero balance is stored as a missing entry. */
  function SetBalance(b: Carbon, a: Hash, who: AccountId, v: u64): Carbon {
    if v == 0 then b - {(a, who)} else b[(a, who) := v]
  }

  /** `make_transfer`: no balance check of its own, and nothing moves between an account and itself. */
  function MakeTransfer(b: Carbon, a: Hash, from: AccountId, to: AccountId, amount: u64): Carbon {
    if from == to then b else
      var debited := SetBalance(b, a, from, Sub(BalanceOf(b, a, from), amount));
      SetBalance(debited, a, to, Add(BalanceOf(debited, a, to), amount))
  }

  ghost function HeldOf(a: Hash): ((Hash, AccountId), u64) -> int {
    (k: (Hash, AccountId), v: u64) => if k.0 == a then v else 0
  }

  /** All units of asset `a` in accounts, the pot included. */
  ghost function Holdings(b: Carbon, a: Hash): int {
    SumBy(b, HeldOf(a))
  }

  lemma BalanceAfterSet(b: Carbon, a: Hash, who: AccountId, v: u64, a': Hash, who': AccountId)
    ensures BalanceOf(SetBalance(b, a, who, v), a', who') ==
            if (a', who') == (a, who) then v else BalanceOf(b, a', who')
  {
  }

  lemma HoldingsAfterSet(b: Carbon, a: Hash, who: AccountId, v: u64, a': Hash)
    ensures Holdings(SetBalance(b, a, who, v), a') ==
            Holdings(b, a') + if a' == a then v - BalanceOf(b, a, who) else 0
  {
    SumByInsert(b, HeldOf(a'), (a, who), v);
    SumByRemove(b, HeldOf(a'), (a, who));
  }

  lemma BalancesWithinHoldings(b: Carbon, a: Hash, x: AccountId, y: AccountId)
    requires x != y
    ensures 0 <= BalanceOf(b, a, x) + BalanceOf(b, a, y) <= Holdings(b, a)
  {
    SumByBoundsTwo(b, HeldOf(a), (a, x), (a, y));
  }

  lemma BalanceWithinHoldings(b: Carbon, a: Hash, x: AccountId)
    ensures BalanceOf(b, a, x) <= Holdings(b, a)
  {
    SumByBoundsOne(b, HeldOf(a), (a, x));
  }

  /**
   * A transfer keeps the holdings of every asset modulo 2^64. It keeps them exactly when it moves
   * another asset, or when the sender has the amount and the asset's holdings fit in a u64.
   */
  lemma HoldingsAfterTransfer(b: Carbon, a: Hash, from: AccountId, to: AccountId, amount: u64, a': Hash)
    ensures Congruent(Holdings(MakeTransfer(b, a, from, to, amount), a'), Holdings(b, a'))
    ensures a' != a || (amount <= BalanceOf(b, a, from) && Holdings(b, a) <= U64_MAX) ==>
              Holdings(MakeTransfer(b, a, from, to, amount), a') == Holdings(b, a')
  {
    if from != to {
      var x, y := BalanceOf(b, a, from), BalanceOf(b, a, to);
      var debited := SetBalance(b, a, from, Sub(x, amount));
      BalanceAfterSet(b, a, from, Sub(x, amount), a, to);
      HoldingsAfterSet(b, a, from, Sub(x, amount), a');
      HoldingsAfterSet(debited, a, to, Add(y, amount), a');
      BalancesWithinHoldings(b, a, from, to);
      WrapCongruent(x, amount);
      WrapCongruent(y, amount);
      CongruentAdd(Sub(x, amount), x - amount, Add(y, amount), y + amount);
    }
  }

  /** What a transfer does to each single balance when the amounts are in range. */
  lemma BalanceAfterTransfer(b: Carbon, a: Hash, from: AccountId, to: AccountId, amount: u64,
                             a': Hash, who: AccountId)
    requires from != to ==> amount <= BalanceOf(b, a, from) && BalanceOf(b, a, to) + amount <= U64_MAX
    ensures BalanceOf(MakeTransfer(b, a, from, to, amount), a', who) ==
            BalanceOf(b, a', who)
            - (if a' == a && who == from && from != to then amount else 0)
            + (if a' == a && who == to && from != to then amount else 0)
  {
  }

  // ---- order book ----

  ghost function AskLeftOf(a: Hash): (Hash, Order) -> int {
    (id: Hash, o: Order) => if o.direction == ASK && o.assetId == a then o.leftAmount else 0
  }

  /** Units of asset `a` that the live ASK orders still owe. */
  ghost function AskLeft(orders: Orders, a: Hash): int {
    SumBy(orders, AskLeftOf(a))
  }

  ghost function LockedOf(): (Hash, Order) -> int {
    (id: Hash, o: Order) => o.lockedBalance
  }

  /** Native money that the live orders have locked. */
  ghost function Locked(orders: Orders): int {
    SumBy(orders, LockedOf())
  }

  lemma OrderTotalsInsert(orders: Orders, id: Hash, o: Order, a: Hash)
    ensures AskLeft(orders[id := o], a) ==
            AskLeft(orders, a) - WeightAt(orders, AskLeftOf(a), id) + AskLeftOf(a)(id, o)
    ensures Locked(orders[id := o]) ==
            Locked(orders) - WeightAt(orders, LockedOf(), id) + o.lockedBalance
  {
    SumByInsert(orders, AskLeftOf(a), id, o);
    SumByInsert(orders, LockedOf(), id, o);
  }

  lemma OrderTotalsRemove(orders: Orders, id: Hash, a: Hash)
    ensures AskLeft(orders - {id}, a) == AskLeft(orders, a) - WeightAt(orders, AskLeftOf(a), id)
    ensures Locked(orders - {id}) == Locked(orders) - WeightAt(orders, LockedOf(), id)
  {
    SumByRemove(orders, AskLeftOf(a), id);
    SumByRemove(orders, LockedOf(), id);
  }

  /** Every live order is covered by the total: the rest of the book is never negative. */
  lemma OrderWithinTotals(orders: Orders, id: Hash, a: Hash)
    ensures 0 <= WeightAt(orders, AskLeftOf(a), id) <= AskLeft(orders, a)
    ensures 0 <= WeightAt(orders, LockedOf(), id) <= Locked(orders)
  {
    SumByBoundsOne(orders, AskLeftOf(a), id);
    SumByBoundsOne(orders, LockedOf(), id);
  }
}
