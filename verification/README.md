# ECO2 ledger: carbon registry, carbon exchange and what is built on them

A Dafny model of four pieces of the ECO2 Ledger, and proofs about whole runs of them.

- **Carbon registry** (`pallets/carbon-assets`): projects, assets, issues and burns are submitted by
  owners and approved by a committee; units of an asset sit in accounts, in pending burns, or are retired.
- **Carbon exchange** (`pallets/carbon-exchange`): makers lock carbon (ASK) or native money (BID) in one
  pot account, takers fill orders in parts, makers cancel. No order has an account of its own, and the
  refund of a cancel is not checked against what the pot holds.
- **Standard assets** (`pallets/standard-assets`) and the **currency to vote conversion**
  (`runtime/src/impls.rs`).
- **The off-chain index** (`example/events-listener.ts`), built by replaying the event log.

The registry and the exchange are one state machine. `Runs.Step` gives what a call leaves in storage and
its outcome; a `Run` is a list of calls from an empty registry, and `After` is the storage it ends in. `Answers` and
`Moves` say of every call, in terms of the stored records and of integers, what it answers and what it does
to every balance, account, record and order. The class `ChainStorage.Chain` is that storage as fields updated in place, write by write in source order;
every method is proved to leave exactly what `Step` says, failed calls included, so the theorems about
runs hold of the object (`Chain.Dispatch`).

## How the source is read

- Release builds wrap, so each `+`, `-`, `+=`, `-=` on u64 is taken modulo 2^64 (`U64.Add`, `U64.Sub`).
  Nothing is assumed to stay in range: the theorems say when it does.
- A call that fails is not rolled back; its specification keeps what was written before the failure.
- Ids that the pallets compute by hashing are arguments of the calls, without any injectivity: only the
  `contains_key` tests separate them. `authorized` is what `ApproveOrigin` decides.
- A missing balance reads as zero, so a zero balance is stored as a missing entry.
- `pallet_balances::transfer` is a contract (`NativeBalances.MakePayment`): it refuses and changes
  nothing, or it moves the value; an account left below the existential deposit of 500 is reaped and its
  dust is lost. `restricted` says that locks on the signer refuse a withdrawal; the pot has none.
- Signers are accounts of any balance. A call submitted directly pays its fee first
  (runtime/src/lib.rs:914), so its signer has a live account; but the caller may be a multisig account
  (runtime/src/lib.rs:259) or a proxied one (runtime/src/lib.rs:348), for whom somebody else pays the fee.
  That is how a taker without a live account comes to fill an order.
- Nobody signs for the pot. Anybody may send it anything. Between calls the rest of the runtime may set
  native balances as it likes (`OtherPallets`), except that it takes nothing from the pot and keeps the
  total issuance within u128.

## What the proofs found

The code is modelled as it is. Where it falls short of its evident intent, a theorem says exactly when it
meets it, and a lemma in `Witnesses` constructs a run that fails.

- `approve_asset` raises the project's counter (pallets/carbon-assets/src/lib.rs:201) and never stores it,
  so the counter misses every initial supply and `max_supply` is no cap (`DriftIsInitials`, `CapIff`,
  `CapIsNotEnforced`). Burning initial supply even wraps the stored counter (`ProjectCounterWraps`), and
  `CounterInRangeIff` says exactly when nothing does, `AlwaysInRangeIff` when no unchecked operation on
  counters or carbon balances does. With the one write added, counters are right and within their caps, and
  no asset's counter overflows, if and only if no limit test wraps (`StoredCounterCapsIff`,
  `StoredGuardWraps`).
- `submit_burn` looks for a duplicate id among the projects (line 283), so a repeated burn overwrites the
  pending one and its units are lost (`RepeatedBurnLosesUnits`). The supply identity counts them; no
  unit is missing if and only if no burn of some units is overwritten and no issue splits
  (`NothingMissingIff`).
- The limit tests wrap. An approved issue can take an asset's counter past 2^64 while the units in accounts
  go on: exactly then the supply identity breaks (`SupplyIdentityIff`), and only an addition that wraps the
  pot's own balance can leave its ASK orders uncovered (`CarbonEscrowIff`, `CarbonEscrowExactIff`,
  `OverIssueDrainsPot`).
- `saturating_mul` clips what a BID locks (pallets/carbon-exchange/src/lib.rs:123, 165). Locks are exact if
  and only if no BID was clipped (`LocksExactIff`); a clipped one can be paid twice over from the pot
  (`ClippedBidOverspends`).
- Filling a BID moves the carbon before the payout. A refused payout is the one failure that leaves a trace,
  over any run (`RefusalLeavesTraceIff`). While the pot is endowed and no lock clipped, it is refused just
  when the taker's account would stay below the existential deposit (`FailureLeavesTraceIff`,
  `SmallTakerIsStranded`). A pot that starts without the existential deposit can be reaped by a payout
  (`BareSolvencyIff`, `BarePotIsReaped`), and filling in parts can fail where filling at once does not
  (`FillPathIndependenceIff`, `PartsCanBeTooSmall`).
- `approve_burn` deposits `IssueApproved` instead of `BurnApproved` (line 325). The index's handler
  for `BurnApproved` is never reached; none of the collections modelled here depends on it.
- The index keys a balance by 6 characters of the account and 8 of the asset, so entries replace each
  other (`NeverClobbersIff`, `KeysCollide`), and an order id used again after its order is gone stays closed in the index
  (`OpenDocsAreOrdersIff`, `ReusedIdStaysClosed`). A refused payout can leave a holder unknown to it
  (`HoldersKnownIff`, `SmallTakerIsStranded`).
- Standard assets can be minted before they are issued, and the issue overwrites the supply
  (`ModularSupplyIff`, `MintedBeforeIssue`); a mint can wrap the supply alone (`ExactSupplyIff`,
  `MintedPastTheTop`).

## Model

| member | source | states |
|---|---|---|
| `U64.CongruentMeansSameResidue` | pallets/carbon-assets/src/lib.rs:258-265 | What is meant by equality modulo 2^64 in the theorems on wrapping counters: same residue. |
| `Ledger.HoldingsAfterTransfer` | pallets/carbon-assets/src/lib.rs:379-391 | `make_transfer` keeps the units of every asset modulo 2^64, and exactly when the sender has the amount and the asset's units fit in u64. |
| `NativeBalances.PaymentMovesValue` | pallets/carbon-exchange/src/lib.rs:171-175 | A payment gives the receiver the value, touches nobody else, and loses of the total issuance only the dust of a reaped sender. |
| `NativeBalances.PaymentRefusedIff` | pallets/carbon-exchange/src/lib.rs:183-187 | A sender that has the money and no locks is refused just when the receiver would stay below the existential deposit. |
| `ChainStorage.Chain.constructor` | pallets/carbon-assets/src/lib.rs:60-65 | An empty registry and book, with the genesis native balances, is the start of a run. |
| `ChainStorage.Chain.SubmitProject` | pallets/carbon-assets/src/lib.rs:121-141 | Storage and outcome are those of the call's specification: a new unapproved project of the sender, or a duplicate id refused. |
| `ChainStorage.Chain.ApproveProject` | pallets/carbon-assets/src/lib.rs:144-156 | The project turns approved once, and nothing else of it changes; all refusals change nothing. |
| `ChainStorage.Chain.SubmitAsset` | pallets/carbon-assets/src/lib.rs:159-184 | Five refusals in the order of the source (the limit test wraps), or a new asset with nothing in supply. |
| `ChainStorage.Chain.ApproveAsset` | pallets/carbon-assets/src/lib.rs:187-210 | The asset is approved with its initial supply and the owner's balance overwritten with it; the project is left as stored. |
| `ChainStorage.Chain.SubmitIssue` | pallets/carbon-assets/src/lib.rs:213-238 | Only the owner, on an approved asset and within the wrapping limit, adds a pending issue under a fresh id. |
| `ChainStorage.Chain.ApproveIssue` | pallets/carbon-assets/src/lib.rs:241-270 | A pending issue is approved once: both counters and the owner's balance rise by its amount, wrapping. |
| `ChainStorage.Chain.SubmitBurn` | pallets/carbon-assets/src/lib.rs:273-301 | The units leave the owner's balance for a pending burn, over whatever burn had the id; the duplicate test reads the projects. |
| `ChainStorage.Chain.ApproveBurn` | pallets/carbon-assets/src/lib.rs:304-328 | A pending burn is approved once and lowers both counters, wrapping; the event is `IssueApproved`. |
| `ChainStorage.Chain.MakeTransfer` | pallets/carbon-assets/src/lib.rs:379-391 | Debit then credit, each wrapping, unless sender and receiver are the same. |
| `ChainStorage.Chain.Transfer` | pallets/carbon-assets/src/lib.rs:331-346 | Refused at zero or above the balance, else the units move; asset existence is not asked. |
| `ChainStorage.Chain.Neutralize` | pallets/carbon-assets/src/lib.rs:349-364 | Refused at zero or above the balance, else the units leave the account for good and no counter moves. |
| `ChainStorage.Chain.MakeOrder` | pallets/carbon-exchange/src/lib.rs:102-150 | Refusals in source order, or the carbon or the clipped money is in the pot and the order in the book with its whole amount left. |
| `ChainStorage.Chain.TakeOrder` | pallets/carbon-exchange/src/lib.rs:153-211 | Both directions in source order; a refused payout of a BID keeps the carbon move; the order is lowered or removed, and `OrderFinished` precedes `NewDeal`. |
| `ChainStorage.Chain.CancelOrder` | pallets/carbon-exchange/src/lib.rs:214-235 | Only the maker; an ASK is given back unchecked, a BID if the payment is accepted; the order is gone. |
| `ChainStorage.Chain.Apply` | pallets/carbon-exchange/src/lib.rs:96-236 | Any call, dispatched, leaves the storage and the outcome that `Step` gives. |
| `ChainStorage.Chain.Dispatch` | pallets/carbon-exchange/src/lib.rs:101-235 | The object stays what its history of calls says; it stays solvent in carbon if no issue splits, and in money with the existential deposit on top if endowed and never clipped. |
| `Answers.CallsAnswer` | pallets/carbon-exchange/src/lib.rs:102-235 | In any state, every call of both pallets answers with the error of its first failing test, in the order of the source, and succeeds if and only if all hold; the tests are on stored records and integers (funds, owner, authority, limits with and without wrap, payment). |
| `Answers.PaymentAnswers` | pallets/carbon-exchange/src/lib.rs:124-128 | The native payment is accepted or refused for funds, range, existential deposit and locks, in that order. |
| `Moves.CarbonMoves` | pallets/carbon-assets/src/lib.rs:121-391 | What every call does to every account's balance of every asset, failed fills included: plus what it received, minus what it gave, by one table of who gives whom what, wrapping at most once; the approval of an asset overwrites its owner's. |
| `Moves.NativeMoves` | pallets/carbon-exchange/src/lib.rs:102-235 | What every call does to every account's native money: who pays whom, how much, and whose dust is lost. |
| `Moves.RecordsMove` | pallets/carbon-assets/src/lib.rs:121-328 | What every call does to every project, asset, issue and burn: who is stored, which status turns, which counter moves by what, and that nothing else changes. |
| `Moves.OrdersMove` | pallets/carbon-exchange/src/lib.rs:133-231 | What every call does to every order: its terms when made, what a fill takes of what is left and locked, and when it goes. |
| `Authority.UnauthorizedRefused` | pallets/carbon-assets/src/lib.rs:144-305 | Every approval without authority is refused with `BadOrigin`, and changes nothing, whatever is stored. |
| `Authority.NothingWithoutApproval` | pallets/carbon-assets/src/lib.rs:144-328 | Over any stretch of a run without an authorized approval, no stored project, asset or issue changes at all, and nothing new is approved. |
| `Authority.NoMintingWithoutApproval` | pallets/carbon-assets/src/lib.rs:205-265 | Nor, while no issue splits, do the units in accounts and pending burns grow. |
| `Authority.OwnersSubmit` | pallets/carbon-assets/src/lib.rs:164-280 | A successful submission of an asset, an issue or a burn is signed by the owner of the project. |
| `Authority.ClaimantsOwn` | pallets/carbon-assets/src/lib.rs:216-280 | Over every run, whoever had an issue or a burn of an asset accepted owns its project still. |
| `Authority.MoneyFallsBySigner` | pallets/carbon-exchange/src/lib.rs:124-187 | Nobody's native money falls in these calls but the signer's of an order made or filled, and the pot's. |
| `Authority.CarbonFallsBySigner` | pallets/carbon-assets/src/lib.rs:295-387 | While no issue overflows, nobody's carbon falls but by their own burn, retirement, transfer, ASK or fill; a burn only by the owner. |
| `Integrity.LinkedStep` | pallets/carbon-assets/src/lib.rs:162-165 | Every call keeps: no dangling reference; issues, burns, orders and balances only of approved assets; live orders positive, in native money, not the pot's. |
| `Integrity.LinkedAlways` | pallets/carbon-assets/src/lib.rs:248-251 | Referential integrity holds after every run. |
| `Integrity.PersistentAlways` | pallets/carbon-assets/src/lib.rs:223-232 | From any point of a run on, projects, assets and issues stay stored with owner, limit, parent and amount, and approvals are never taken back. |
| `Integrity.BurnsPersistUnless` | pallets/carbon-assets/src/lib.rs:282-294 | From any point of a run on, a burn keeps its asset, amount and approval unless its id is submitted again. |
| `Integrity.BalanceNeedsApproval` | pallets/carbon-assets/src/lib.rs:205 | A positive balance is of an approved asset, so the overwrite at approval destroys nothing. |
| `Integrity.NestedLookupsSucceed` | pallets/carbon-assets/src/lib.rs:276-279 | After any run, `InvalidIndex` is returned if and only if the record that the call itself names is missing. |
| `Supply.SupplyIdentityModular` | pallets/carbon-assets/src/lib.rs:256-265 | Over every run: `total_supply` equals balances, pending burns, retired and overwritten units, modulo 2^64. |
| `Supply.UnitsMoveExactly` | pallets/carbon-assets/src/lib.rs:317-323 | From sound books, a call moves counter and units by the same integer, unless and only if it is an issue approval that splits them. |
| `Supply.SupplyIdentityIff` | pallets/carbon-assets/src/lib.rs:258-265 | The identity holds as integers after every call, for every asset, if and only if no approved issue took a counter past 2^64 while the owner's balance stayed below. |
| `Supply.NothingMissingIff` | pallets/carbon-assets/src/lib.rs:282-295 | No unit goes missing: `total_supply` equals balances, pending burns and retired units after every call, if and only if no approved issue splits and no burn is submitted under the id of a pending burn of some units. |
| `Supply.CoverStep` | pallets/carbon-exchange/src/lib.rs:117-121 | From a covered pot, a call leaves it covered unless and only if it drains it by wrapping its balance. |
| `Supply.CarbonEscrowIff` | pallets/carbon-exchange/src/lib.rs:221-222 | Carbon escrow: after every call the pot holds of each asset what live ASKs owe, if and only if nothing added to the pot drained it by wrapping. |
| `Supply.CarbonEscrowExactIff` | pallets/carbon-exchange/src/lib.rs:117-235 | To the unit: after every call the pot holds, of each asset, what live ASKs owe plus what was ever sent to it for no order, if and only if nothing added to the pot wrapped its balance; so nothing of an order is stranded. |
| `Supply.CarbonEscrowToTheUnit` | pallets/carbon-exchange/src/lib.rs:117-235 | That equation holds after every run in which no issue splits. |
| `Supply.CarbonEscrowSolvent` | pallets/carbon-exchange/src/lib.rs:168-176 | It does in every run in which no issue splits, with no condition on prices or donations. |
| `Supply.PotAssetNeverInsufficient` | pallets/carbon-exchange/src/lib.rs:168-169 | While nothing has drained the pot, `InsuffientPotAsset` is never returned. |
| `Issuance.IssuanceModular` | pallets/carbon-assets/src/lib.rs:187-209 | Over every run, modulo 2^64: `total_supply` is initial supply plus approved issues less approved burns. |
| `Issuance.IssuanceExactIff` | pallets/carbon-assets/src/lib.rs:241-265 | As integers, each approved issue counted once, after every call, if and only if no approved issue overflows its asset's counter. |
| `Issuance.BoundedInRange` | pallets/carbon-assets/src/lib.rs:295-387 | With units within counters and the pot covered, in any call, the operations at lines 295, 319, 358, 386 and 387 stay in u64 (the others are in `ProjectCap.AlwaysInRangeIff`). |
| `Issuance.CarbonArithmeticInRange` | pallets/carbon-assets/src/lib.rs:295-319 | So it is after every run in which no issue splits (lines 295, 319, 358, 386, 387). |
| `NativeEscrow.FillCost` | pallets/carbon-exchange/src/lib.rs:165-188 | A fill of an exactly locked BID costs at most what is locked, unclipped, and the `-=` leaves the exact lock of the rest. |
| `NativeEscrow.LocksExactIff` | pallets/carbon-exchange/src/lib.rs:122-128 | `locked_balance == left_amount * price` for all live BIDs after every call, if and only if no BID was made whose cost exceeds u64. |
| `NativeEscrow.SurplusStep` | pallets/carbon-exchange/src/lib.rs:183-188 | While locks are exact and the pot holds the existential deposit beyond them, no call lowers the pot's money beyond the locks, and exchange calls leave it equal. |
| `NativeEscrow.NativeEscrowSolvent` | pallets/carbon-exchange/src/lib.rs:183-188 | After every endowed run the pot holds all locks and the existential deposit on top, so it is never reaped; and no fill of any amount in range costs more than its BID has locked, so the `-=` never underflows. |
| `NativeEscrow.SurplusNeverFalls` | pallets/carbon-exchange/src/lib.rs:183-188 | Between any two points of an endowed run the surplus does not fall. |
| `Atomicity.BidFillRefusedIff` | pallets/carbon-exchange/src/lib.rs:182-188 | In a solvent state a BID fill that passed its own checks is refused if and only if the taker would stay below the existential deposit. |
| `Atomicity.RefusalLeavesTraceIff` | pallets/carbon-exchange/src/lib.rs:178-188 | Over every run, a failing call changes storage if and only if it is a fill of somebody else's BID that passes its own checks and whose payment from the pot is refused. |
| `Atomicity.FailureLeavesTraceIff` | pallets/carbon-exchange/src/lib.rs:178-188 | Over endowed runs that is just when the payment would leave the taker below the existential deposit. |
| `Atomicity.LiveTakerNeverStranded` | pallets/carbon-exchange/src/lib.rs:182-187 | With a live taker account a failed fill changes nothing: the payout cannot fail after the carbon has moved. |
| `Atomicity.FailuresCleanIff` | pallets/carbon-exchange/src/lib.rs:178-188 | Over a whole run, no failure left a trace if and only if no such payment was refused. |
| `Atomicity.EndowedFailuresCleanIff` | pallets/carbon-exchange/src/lib.rs:178-188 | Over a whole endowed run, if and only if none was too small for its taker. |
| `Atomicity.AskCancelReturnsRest` | pallets/carbon-exchange/src/lib.rs:221-233 | A maker's cancel of an ASK always succeeds and removes the order; while no issue has split, exactly what is left goes from the pot to the maker. |
| `Atomicity.BidCancelSucceedsIff` | pallets/carbon-exchange/src/lib.rs:223-231 | A maker's cancel of a BID succeeds if and only if balance plus refund reach the existential deposit. |
| `Atomicity.BareSolvencyIff` | pallets/carbon-exchange/src/lib.rs:182-188 | Without an endowment, over never clipped runs: the pot covers every lock after every call if and only if no payout reaped it while other orders had money locked. |
| `OrderLife.OrderHistory` | pallets/carbon-exchange/src/lib.rs:133-144 | An order appears only by being made, keeps its terms, is changed only by its fills, and goes only by its last fill or its maker's cancel. |
| `OrderLife.AmountAccounted` | pallets/carbon-exchange/src/lib.rs:198-201 | While an order lives, under any interleaving, its amount is what was filled plus what is left. |
| `OrderLife.FillsAreBounded` | pallets/carbon-exchange/src/lib.rs:157-205 | A live order has `0 < left_amount <= amount`, a positive price, and has seen fewer nonzero fills than units. |
| `OrderLife.FillDecreases` | pallets/carbon-exchange/src/lib.rs:198-204 | A nonzero fill leaves strictly less, and removes the order just at zero. |
| `OrderLife.AskMakerReceives` | pallets/carbon-exchange/src/lib.rs:165-176 | The maker of an unclipped live ASK has gained, by the native ledger, exactly the price for each unit taken by others. |
| `OrderLife.AskFinishesPaid` | pallets/carbon-exchange/src/lib.rs:198-205 | At its last fill the whole amount of the ASK is filled and paid for. |
| `OrderLife.BidMoneyAccounted` | pallets/carbon-exchange/src/lib.rs:183-188 | A live BID's lock at creation is what the pot gave for its fills, price a unit, plus what is still locked. |
| `OrderLife.BidFinishesSpent` | pallets/carbon-exchange/src/lib.rs:198-204 | The last fill spends the lock to the end: nothing is stranded. |
| `OrderLife.BidCancelRefundsRest` | pallets/carbon-exchange/src/lib.rs:223-231 | Cancelling a BID gives the maker exactly what its fills did not spend. |
| `OrderLife.BidMakerReceivesUnits` | pallets/carbon-exchange/src/lib.rs:179-182 | While no issue splits, the maker of a live BID has gained in its fills, by the carbon ledger, exactly the units that others gave. |
| `OrderLife.AskUnitsAccounted` | pallets/carbon-exchange/src/lib.rs:168-176 | What a live ASK put in the pot is what the pot gave in its fills, by the carbon ledger, plus what is left. |
| `DealLog.FillLogged` | pallets/carbon-exchange/src/lib.rs:198-208 | A fill logs one deal with the order's terms, its taker and its amount, after `OrderFinished` just when the order goes. |
| `DealLog.DealsSumToFilled` | pallets/carbon-exchange/src/lib.rs:204-208 | Over every run and for every id, the amounts of the deals logged since the order was made sum to what was filled of it. |
| `DealLog.DealsCarryTerms` | pallets/carbon-exchange/src/lib.rs:147-208 | Each of those deals, and the `NewOrder` before them, names the live order's asset, money, maker, price and direction. |
| `DealLog.LiveByLog` | pallets/carbon-exchange/src/lib.rs:147-233 | An order is live just when the log has opened its id once more than it has closed it. |
| `FillPaths.FillIs` | pallets/carbon-exchange/src/lib.rs:153-205 | `take_order` succeeds if and only if five checks on amount, balance and payment pass, and then stores one composite effect, for both directions. |
| `FillPaths.FillSplits` | pallets/carbon-exchange/src/lib.rs:153-205 | Two fills reach the storage of one unclipped fill of their sum, when the first leaves neither account below the existential deposit (or either part is zero, or payer and payee are one). |
| `FillPaths.FillPathIndependenceIff` | pallets/carbon-exchange/src/lib.rs:153-205 | Any list of fills by one taker, zero fills included, reaches the ledgers and the book of one unclipped fill of its sum, if and only if payer and payee are one account, or the payer keeps the existential deposit before the last nonzero part and the payee has it from the first. |
| `FillPaths.ClippedPartsCostMore` | pallets/carbon-exchange/src/lib.rs:165 | With clipping, the parts cost at least as much as the whole. |
| `ProjectCap.DriftIsInitials` | pallets/carbon-assets/src/lib.rs:193-205 | Over every run, modulo 2^64: the total of a project's assets is its counter plus the initial supplies approved in it. |
| `ProjectCap.CounterRightIff` | pallets/carbon-assets/src/lib.rs:201 | So the counter is right just when those initial supplies cancel out modulo 2^64. |
| `ProjectCap.DriftExactIff` | pallets/carbon-assets/src/lib.rs:258-319 | As integers, as written: every project's assets total its counter plus its approved initial supplies, after every call, if and only if no approval wrapped just one of the two counters it moves. |
| `ProjectCap.CounterInRangeIff` | pallets/carbon-assets/src/lib.rs:258-318 | While no asset's counter overflows, that holds if and only if the stored project counter stays in range: no approved issue with `U64_MAX < counter + amount` (258), no approved burn with `counter < amount` (318). |
| `ProjectCap.AlwaysInRangeIff` | pallets/carbon-assets/src/lib.rs:201-387 | As written: the operations at lines 201, 258, 259, 265, 295, 318, 319, 358, 386 and 387 stay in u64 in every call, if and only if no approved issue takes its asset's or its project's counter past 2^64, no approved burn takes its project's below zero, and no raise at 201 wraps. |
| `ProjectCap.TotalsRecorded` | pallets/carbon-assets/src/lib.rs:196-205 | After every run, counter plus approved initial supplies, reduced modulo 2^64, is the real total of every project for which that fits in u64. |
| `ProjectCap.CapIff` | pallets/carbon-assets/src/lib.rs:196-254 | `max_supply` caps the project's real supply after every call, and no asset's counter overflows, if and only if no approval went through that the limit test would have refused had it added the approved initial supplies to the stored counter. |
| `ProjectCap.StoredCounterCapsIff` | pallets/carbon-assets/src/lib.rs:254-262 | With line 201 written back: every project's counter is its assets' total and within the cap after every call, and no asset's counter overflows, if and only if no limit test passed by wrapping; then references, carbon escrow and the bounds on units are sound too. |
| `ProjectCap.StoredArithmeticInRange` | pallets/carbon-assets/src/lib.rs:201-387 | Then the operations at lines 201, 258, 259, 265, 295, 318, 319, 358, 386 and 387 stay in u64; and if no lock was clipped, so does the `-=` at pallets/carbon-exchange/src/lib.rs:188 in any fill. (The sums inside the limit tests of submissions, lines 165 and 221, are not meant.) |
| `StandardAssets.Pallet.constructor` | pallets/standard-assets/src/lib.rs:56-63 | An empty pallet. |
| `StandardAssets.Pallet.Issue` | pallets/standard-assets/src/lib.rs:82-100 | Storage and outcome of the specification: a fresh id with the first supply, over whatever was minted before. |
| `StandardAssets.Pallet.Transfer` | pallets/standard-assets/src/lib.rs:111-123 | Two refusals, or debit then wrapping credit, in that order for a self-transfer too. |
| `StandardAssets.Pallet.Mint` | pallets/standard-assets/src/lib.rs:134-141 | Balance and supply rise by the amount, each wrapping, issued or not. |
| `StandardAssets.Pallet.Burn` | pallets/standard-assets/src/lib.rs:152-162 | Two refusals, or balance falls and supply falls, the latter wrapping. |
| `StandardAssets.CallsMove` | pallets/standard-assets/src/lib.rs:82-162 | Every call answers by its tests in order; for every id and account, an issue overwrites the issuer's balance, and a transfer, mint or burn adds what was received and takes what was given, wrapping at most once; nothing else changes. |
| `StandardAssets.SuppliesMove` | pallets/standard-assets/src/lib.rs:94-160 | For every id, issue sets the supply and stores the cap, mint and burn move the supply, transfer leaves it. |
| `StandardAssets.ModularSupplyIff` | pallets/standard-assets/src/lib.rs:95-96 | `TotalSupply` equals the balances modulo 2^64 after every call, if and only if whenever an id was issued the units of it that others held were a multiple of 2^64 (such as none). |
| `StandardAssets.MintingAfterIssueNeverClashes` | pallets/standard-assets/src/lib.rs:134-139 | Minting only issued ids is enough for that. |
| `StandardAssets.ExactSupplyIff` | pallets/standard-assets/src/lib.rs:138-160 | As integers, if and only if, besides, no mint took the supply past 2^64 and not the balance. |
| `StandardAssets.TransferInRange` | pallets/standard-assets/src/lib.rs:118-119 | Then the unchecked addition of a transfer never wraps, to another account or to oneself. |
| `CurrencyToVote.Factor` | runtime/src/impls.rs:36 | The factor is 1 below an issuance of u64::MAX, and from there on the quotient by u64::MAX. |
| `CurrencyToVote.VoteCurrencyFits` | runtime/src/impls.rs:44 | The currency of any u64 vote is at most the issuance or u64, so the product does not wrap. |
| `CurrencyToVote.VoteRoundTrip` | runtime/src/impls.rs:40-44 | Vote to currency and back is the identity on all u64. |
| `CurrencyToVote.CurrencyExactIff` | runtime/src/impls.rs:44 | For any u128 of votes the product is kept if and only if it fits in u128, and loses whole 2^128 otherwise. |
| `CurrencyToVote.VoteCongruent` | runtime/src/impls.rs:40 | For any stake the vote is the quotient modulo 2^64. |
| `CurrencyToVote.CastKeepsIff` | runtime/src/impls.rs:40 | The cast keeps the quotient if and only if the stake is below 2^64 factors. |
| `CurrencyToVote.StakeRoundTrip` | runtime/src/impls.rs:40-44 | Such a stake loses less than one factor to votes and back, and never gains. |
| `CurrencyToVote.CastDropsAtMostOnce` | runtime/src/impls.rs:40 | A stake within the issuance loses nothing in the cast below 2^64 factors, and exactly one 2^64 otherwise. |
| `CurrencyToVote.CastDropsWitness` | runtime/src/impls.rs:40 | An issuance whose whole stake loses it. |
| `CurrencyToVote.VotesNearQuotient` | runtime/src/impls.rs:36-40 | The votes of a list sum to at most the quotient of its total, and fall short by less than its length. |
| `EventIndex.Listener.HandleEvent` | example/events-listener.ts:95-264 | One event leaves the collections of carbon assets, orders and potential carbon balances as its handler's specification says; a handler that throws leaves them unchanged. |
| `EventIndex.SameKeyIff` | example/events-listener.ts:59-62 | For accounts of six characters or more, two entries share a key if and only if the accounts agree in their first 6 characters and the assets in their first 8. |
| `EventIndex.ThrowingChangesNothing` | example/events-listener.ts:367-372 | An event of an unknown asset, or with an id that has its document, changes nothing. |
| `EventIndex.AssetDocAfter` | example/events-listener.ts:95-129 | What any event does to the document of any asset. |
| `EventIndex.OrderDocAfter` | example/events-listener.ts:200-264 | What any event does to the document of any order. |
| `EventIndex.BalanceDocAfter` | example/events-listener.ts:120-252 | What any event does to the entry under any key: the credited account's document, or what was there. |
| `EventIndex.Listener.ProcessBlock` | example/events-listener.ts:362-375 | A block's events in order are their replay. |
| `EventIndex.Listener.ProcessRange` | example/events-listener.ts:382-390 | A range of blocks is the replay of all their events. |
| `EventIndex.Listener.CatchUp` | example/events-listener.ts:406-415 | A worker's turn keeps the collections the replay of exactly the blocks 1 to `lastBlockNumber`: none twice, none skipped. |
| `EventIndex.ReplayResumes` | example/events-listener.ts:409-411 | Stopping after some events and resuming later builds the same index. |
| `EventIndex.EventsSplit` | example/events-listener.ts:384-389 | The blocks of a range are those before a point followed by those after it. |
| `IndexAgreement.EventsStep` | pallets/carbon-assets/src/lib.rs:138-361 | Every call appends to the log exactly the events of its kind, with its own ids, accounts and amounts, and a failed one none. |
| `IndexAgreement.AssetsAlwaysIndexed` | example/events-listener.ts:95-129 | After replaying any run's log, exactly the assets on chain have a document, with the right parent, owner and approval. |
| `IndexAgreement.OrdersAlwaysIndexed` | example/events-listener.ts:200-216 | For every id: a document just when an order was ever made; open only if live; a live order made once has an open document with its terms; a reused id is closed. |
| `IndexAgreement.OpenDocsAreLive` | example/events-listener.ts:254-264 | A document with `closed == 0` is of an order live on chain. |
| `IndexAgreement.OpenDocsAreOrdersIff` | example/events-listener.ts:634-635 | The open documents are the chain's orders if and only if no live order's id was made before. |
| `IndexCoverage.NeverClobbersIff` | example/events-listener.ts:59-62 | No entry ever replaces another's if and only if truncated keys of credited pairs are distinct. |
| `IndexCoverage.NeverClobbersTextsIff` | example/events-listener.ts:59-62 | By the texts: for accounts of six characters or more, if and only if no two credited pairs begin alike in both. |
| `IndexCoverage.KnownIffCredited` | example/events-listener.ts:653-654 | With distinct keys an entry is in the index if and only if some event credited it. |
| `IndexCoverage.HoldersKnownIff` | example/events-listener.ts:187-252 | With distinct keys, every holder of carbon but the pot has an entry after every call (makers refunded, owners issued to), if and only if nobody filled the BID of a maker no event had credited when the payout was going to be refused. |
| `IndexCoverage.HoldersKnownTextsIff` | example/events-listener.ts:59-62 | The same where the condition on keys is one on the first characters of accounts and assets. |
| `IndexCoverage.EndowedHoldersKnownIff` | example/events-listener.ts:187-252 | Over endowed runs that condition is on balances alone: somebody else's BID, an uncredited maker, and a payment too small for the taker's account. |
| `IndexCoverage.ReachablePayoutsNeverStrand` | example/events-listener.ts:242-251 | For that it is enough that every payout could be received. |
| `Witnesses.CapIsNotEnforced` | pallets/carbon-assets/src/lib.rs:201 | A run that puts twice the cap in supply. |
| `Witnesses.ProjectCounterWraps` | pallets/carbon-assets/src/lib.rs:318 | A run that takes the project's counter below zero, where the integer equation and range safety fail. |
| `Witnesses.RepeatedBurnLosesUnits` | pallets/carbon-assets/src/lib.rs:283 | A run that loses the units of an overwritten burn. |
| `Witnesses.OverIssueDrainsPot` | pallets/carbon-assets/src/lib.rs:254-265 | A run with an issue past 2^64, after which the supply identity and the issuance equation have failed and an ASK is uncovered. |
| `Witnesses.ClippedBidOverspends` | pallets/carbon-exchange/src/lib.rs:123 | A run in which a clipped BID is paid more than it locked, and the locks were not exact. |
| `Witnesses.SmallTakerIsStranded` | pallets/carbon-exchange/src/lib.rs:182-187 | An endowed run in which a taker gives carbon and is not paid: a failure with a trace, and with distinct keys a holder without an entry. |
| `Witnesses.BarePotIsReaped` | pallets/carbon-exchange/src/lib.rs:182-188 | A never clipped run in which a payout reaps the pot and a lock is left uncovered. |
| `Witnesses.PartsCanBeTooSmall` | pallets/carbon-exchange/src/lib.rs:182-187 | A run after which two fills of one unit and one fill of two differ. |
| `Witnesses.KeysCollide` | example/events-listener.ts:59-62 | A run in which a holder's entry is replaced by that of an account beginning alike. |
| `Witnesses.TwoAssetsKnown` | example/events-listener.ts:59-62 | A run in which one account is known for two assets. |
| `Witnesses.StoredGuardWraps` | pallets/carbon-assets/src/lib.rs:196 | A run of the registry with its counter stored, in which a limit test wraps and the cap fails. |
| `Witnesses.MintedBeforeIssue` | pallets/standard-assets/src/lib.rs:95-139 | A run in which units minted before the issue are never counted. |
| `Witnesses.MintedPastTheTop` | pallets/standard-assets/src/lib.rs:138-139 | A run without clashes in which a mint wraps the supply and not the balance. |
| `Witnesses.ReusedIdStaysClosed` | example/events-listener.ts:215 | A run after which a live order has no open document. |

## Left out

- Everything in `node/`, `scripts/` and the Docker files; client calls in `example/simple.ts`; the runtime's
  wiring, proxy filters and fee split: service code and case tables.
- The insides of `pallet_balances`, the collective and membership: not in the repository. Payments follow the
  contract above. Reserved money is not modelled, so an account counts as existing by its free money alone.
- Hashing, SCALE encoding, weights, timestamps, symbols, vintages, `additional` and `salt`: no effect on the
  ledgers.
- Standard assets: their `max_supply` is stored and enforced nowhere, so no cap is claimed; their
  `make_transfer` has no caller; their events and their entries of `potentialBalances` are not indexed here
  (`Minted` has no handler).
- HandleEvent: the handlers' insertions into projects, proposals, deals, user deals and standard assets are not
  modelled; nothing modelled here reads them.
- The listener's HTTP server, pagination, subscriptions, committee handlers and the race between its worker
  and new heads: the log is taken as complete and in order, and the process as not dying within a range.
- The `Author` fee handler of `runtime/src/impls.rs`: it calls library code only.
- CarbonEscrowSolvent: one direction; `CarbonEscrowIff` and `CarbonEscrowExactIff` are the exact statements.
- CarbonEscrowToTheUnit: one direction; `CarbonEscrowExactIff` is the exact statement.
- CarbonArithmeticInRange: shown under the condition that no issue splits; `AlwaysInRangeIff` is the exact
  statement for all the operations together.
- StoredArithmeticInRange: one direction for line 188; a clipped BID may still be filled within its lock. The
  limit tests of submissions may wrap: each is its own condition.
- BidMakerReceivesUnits: shown under the condition that no issue splits, which keeps balances from wrapping.
- PotAssetNeverInsufficient: one direction; after the pot is drained the error may or may not come up.
- AskMakerReceives: for orders whose cost fits in u64; what a clipped ASK's maker gets depends on how it is cut up.
- BidMoneyAccounted: for endowed runs; with clipped locks the equation is false (`ClippedBidOverspends`).
- FillPathIndependenceIff: the log is left out of the comparison, since each fill is logged; one restriction
  flag stands for all the fills of a list; the whole fill is taken to cost at most u64.
- LiveTakerNeverStranded: one direction; `FailureLeavesTraceIff` is the exact statement.
- ReachablePayoutsNeverStrand: one direction; `EndowedHoldersKnownIff` is the exact statement.
- MintingAfterIssueNeverClashes: one direction; `ModularSupplyIff` is the exact statement.
