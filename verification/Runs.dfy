/** Calls, steps and whole runs of the chain from an empty registry. */
module Runs {
  import opened U64
  import opened Ledger
  import opened NativeBalances
  import CA = CarbonAssets
  import CX = CarbonExchange

  datatype Call =
    | SubmitProject(signer: AccountId, projectId: Hash, maxSupply: u64)
    | ApproveProject(authorized: bool, projectId: Hash)
    | SubmitAsset(signer: AccountId, projectId: Hash, initialSupply: u64, assetId: Hash)
    | ApproveAsset(authorized: bool, assetId: Hash)
    | SubmitIssue(signer: AccountId, assetId: Hash, amount: u64, issueId: Hash)
    | ApproveIssue(authorized: bool, issueId: Hash)
    | SubmitBurn(signer: AccountId, assetId: Hash, amount: u64, burnId: Hash)
    | ApproveBurn(authorized: bool, burnId: Hash)
    | Transfer(signer: AccountId, assetId: Hash, to: AccountId, amount: u64)
    | Neutralize(signer: AccountId, assetId: Hash, amount: u64)
    | MakeOrder(signer: AccountId, assetId: Hash, moneyId: Hash, price: u64, amount: u64, direction: int,
                orderId: Hash, restricted: bool)
    | TakeOrder(signer: AccountId, orderId: Hash, amount: u64, restricted: bool)
    | CancelOrder(signer: AccountId, orderId: Hash)
    // Everything else in the runtime that touches native money: fees, rewards, other pallets.
    | OtherPallets(accounts: Accounts)
  {
    predicate Signed() {
      !ApproveProject? && !ApproveAsset? && !ApproveIssue? && !ApproveBurn? && !OtherPallets?
    }
  }

  function Step(s: State, c: Call): Post {
    match c
    case SubmitProject(signer, projectId, maxSupply) => CA.SubmitProject(s, signer, projectId, maxSupply)
    case ApproveProject(authorized, projectId) => CA.ApproveProject(s, authorized, projectId)
    case SubmitAsset(signer, projectId, initialSupply, assetId) =>
      CA.SubmitAsset(s, signer, projectId, initialSupply, assetId)
    case ApproveAsset(authorized, assetId) => CA.ApproveAsset(s, authorized, assetId)
    case SubmitIssue(signer, assetId, amount, issueId) => CA.SubmitIssue(s, signer, assetId, amount, issueId)
    case ApproveIssue(authorized, issueId) => CA.ApproveIssue(s, authorized, issueId)
    case SubmitBurn(signer, assetId, amount, burnId) => CA.SubmitBurn(s, signer, assetId, amount, burnId)
    case ApproveBurn(authorized, burnId) => CA.ApproveBurn(s, authorized, burnId)
    case Transfer(signer, assetId, to, amount) => CA.Transfer(s, signer, assetId, to, amount)
    case Neutralize(signer, assetId, amount) => CA.Neutralize(s, signer, assetId, amount)
    case MakeOrder(signer, assetId, moneyId, price, amount, direction, orderId, restricted) =>
      CX.MakeOrder(s, signer, assetId, moneyId, price, amount, direction, orderId, restricted)
    case TakeOrder(signer, orderId, amount, restricted) => CX.TakeOrder(s, signer, orderId, amount, restricted)
    case CancelOrder(signer, orderId) => CX.CancelOrder(s, signer, orderId)
    case OtherPallets(accounts) => Post(s.(native := accounts), Ok)
  }

  /**
   * What a call may be: nobody signs for the pot, and the rest of the runtime neither takes from the
   * pot nor lets the total issuance leave u128.
   */
  ghost predicate Allowed(s: State, c: Call) {
    && (c.Signed() ==> c.signer != POT)
    && (c.OtherPallets? ==> Free(s.native, POT) <= Free(c.accounts, POT) && TotalIssuance(c.accounts) <= U128_MAX)
  }

  datatype Run = Genesis(native: Accounts) | Then(past: Run, call: Call)

  /** The storage a run ends in. */
  function After(r: Run): State {
    match r
    case Genesis(native) => Storage(map[], map[], map[], map[], map[], map[], native, [])
    case Then(past, call) => Step(After(past), call).state
  }

  /** The outcome of the run's last call. */
  function Last(r: Run): Outcome {
    match r
    case Genesis(_) => Ok
    case Then(past, call) => Step(After(past), call).outcome
  }

  ghost predicate Admissible(r: Run) {
    match r
    case Genesis(native) => TotalIssuance(native) <= U128_MAX
    case Then(past, call) => Admissible(past) && Allowed(After(past), call)
  }

  /** `r` is `p` followed by further calls. */
  ghost predicate Extends(r: Run, p: Run) {
    r == p || (r.Then? && Extends(r.past, p))
  }
}
