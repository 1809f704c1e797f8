/**
 * The contract assumed of `pallet_balances::transfer`: it refuses and changes nothing, or it moves
 * the value. An account left below the existential deposit is reaped and its dust is lost.
 */
module NativeBalances {
  import opened U64
  import opened Sums
  import opened Ledger

  const EXISTENTIAL_DEPOSIT: int := 500

  datatype Transfer = Moved(accounts: Accounts) | Refused(error: Error)

  function Free(m: Accounts, who: AccountId): u128 {
    if who in m then m[who] else 0
  }

  function SetFree(m: Accounts, who: AccountId, v: u128): Accounts {
    if v == 0 then m - {who} else m[who := v]
  }

  function AfterReaping(v: u128): u128 {
    if v < EXISTENTIAL_DEPOSIT then 0 else v
  }

  /** `restricted`: locks or reserves on the sender refuse this withdrawal. */
  function MakePayment(m: Accounts, from: AccountId, to: AccountId, value: u64, restricted: bool): Transfer {
    if value == 0 || from == to then Moved(m)
    else if Free(m, from) < value then Refused(InsufficientBalance)
    else if Free(m, to) + value > U128_MAX then Refused(Overflow)
    else if Free(m, to) + value < EXISTENTIAL_DEPOSIT then Refused(ExistentialDeposit)
    else if restricted then Refused(LiquidityRestrictions)
    else
      var debited := SetFree(m, from, AfterReaping(Free(m, from) - value));
      Moved(SetFree(debited, to, Free(m, to) + value))
  }

  ghost function FreeOf(): (AccountId, u128) -> int {
    (who: AccountId, v: u128) => v
  }

  ghost function TotalIssuance(m: Accounts): int {
    SumBy(m, FreeOf())
  }

  lemma IssuanceAfterSet(m: Accounts, who: AccountId, v: u128)
    ensures TotalIssuance(SetFree(m, who, v)) == TotalIssuance(m) - Free(m, who) + v
  {
    SumByInsert(m, FreeOf(), who, v);
    SumByRemove(m, FreeOf(), who);
  }

  /** A payment moves exactly the value; what a reaped sender had left is the only money lost. */
  lemma PaymentMovesValue(m: Accounts, from: AccountId, to: AccountId, value: u64, restricted: bool)
    requires from != to && value > 0
    requires MakePayment(m, from, to, value, restricted).Moved?
    ensures var m' := MakePayment(m, from, to, value, restricted).accounts;
            && Free(m', to) == Free(m, to) + value
            && Free(m', from) == AfterReaping(Free(m, from) - value)
            && (forall who :: who != from && who != to ==> Free(m', who) == Free(m, who))
            && TotalIssuance(m') == TotalIssuance(m) - (Free(m, from) - value - Free(m', from))
  {
    var kept := AfterReaping(Free(m, from) - value);
    IssuanceAfterSet(m, from, kept);
    IssuanceAfterSet(SetFree(m, from, kept), to, Free(m, to) + value);
  }

  lemma PaymentNeverMints(m: Accounts, from: AccountId, to: AccountId, value: u64, restricted: bool)
    requires MakePayment(m, from, to, value, restricted).Moved?
    ensures TotalIssuance(MakePayment(m, from, to, value, restricted).accounts) <= TotalIssuance(m)
  {
    if value != 0 && from != to {
      PaymentMovesValue(m, from, to, value, restricted);
    }
  }

  /** An unrestricted sender that has the money fails only to bring a new account below the deposit. */
  lemma PaymentRefusedIff(m: Accounts, from: AccountId, to: AccountId, value: u64)
    requires from != to && 0 < value <= Free(m, from)
    requires TotalIssuance(m) <= U128_MAX
    ensures MakePayment(m, from, to, value, false).Refused? <==> Free(m, to) + value < EXISTENTIAL_DEPOSIT
  {
    SumByBoundsTwo(m, FreeOf(), from, to);
  }
}
