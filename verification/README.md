# Exchange market settlement, modelled in Dafny

This project models the settlement logic of the FLO exchange market
(`src/market.js`). That logic runs on a store of tables: account balances in
1e-8 units, sell and buy orders, sell-chip grants, user tags, distributor
grants, Vault rows, deposit claims (InputFLO, InputToken), withdrawal records
(OutputFLO, OutputToken), and transfer and trade records. The store is the
class `Store.Market`, with one field per table. Every request
(order placement and cancellation, transfer, deposit claim, withdrawal, tag and
distributor changes) is one atomic step over it. The periodic blockchain
re-check runs the confirmation and retry passes in a fixed order.

What is proved, in outline:

- **Balances.** The view is `net = total - locked`. Locked is what the account's
  buy orders commit (quantity times max price) for the base currency, and its
  sell orders of the asset for any other asset. The availability check gives
  a three-way verdict, stated as three if-and-only-ifs.
- **Solvency.** `Market.Valid()` says that no account has more locked than it
  holds. Every operation keeps it: order placement, cancellation, transfers,
  withdrawals and both deposit passes.
- **Orders.** A bad argument is rejected before the store is read. Success
  appends exactly one order with the next id and moves no balance. A
  cancellation deletes exactly the owner's row. Any rejection changes nothing.
- **Transfers.** All invalid receivers are reported together. On success the
  sender pays exactly the sum of the amounts and each receiver gains what it
  is paid. The token's supply over all accounts is unchanged. The transfer id
  carries the transfer prefix, and Vault rows are written exactly when the
  sender distributes the token.
- **Deposits.** A repeated claim is rejected according to the status of the
  existing claim. A confirmation pass moves only PENDING claims: to SUCCESS
  with the verified amount, to REJECTED on a permanent failure, or not at all
  on a retryable one. What the ledger gains is exactly what the newly settled
  claims record (`Deposits.Matched`). So no claim is credited twice.
- **Withdrawals.** A request debits once. The payout row records the amount.
  The passes only move a payout's status forward and never touch a balance.

The chain clients are oracle parameters: the FLO blockchain lookup
(`Txid -> Option<FloTx>`), the token-layer lookup, broadcast results
(`Option<Txid>`) and the market's sink address (`Option<Addr>`). `None` stands
for a failed call or an address that has not been loaded yet. The asset list,
the base currency, address validation, the hash of a transfer body, the two id
prefixes, the launch-seller maximum and the withdrawal fee are fields of
`Base.Config`.

Duplicate deposit claims are keyed on (txid, floID), as the code does it.
`Chain.FloDepositExclusive` shows that a FLO transaction can be verified for
only one claimant, because every input must be the claimant's. A token
transaction only needs one input from the claimant. `Chain.TokenDepositShared`
shows that a transaction with inputs from two accounts is verified for both,
with the same token amount. Two accounts can therefore each claim and be
credited the same token transfer, unless a uniqueness rule in the database
schema prevents it. The schema is not part of this model.

A few behaviours of the code worth knowing:

- Vault rows are only written. No withdrawal reads or consumes them.
- A repeated tag and a repeated distributor grant each get their own error.
- The launch-seller allowance is computed but never applied: nothing calls it.

## Model

| member | source | states |
|---|---|---|
| `Ledger.Credit` | src/market.js:281-282 | `updateBalance.add` raises one balance by the amount; every other balance is unchanged |
| `Ledger.Debit` | src/market.js:280 | `updateBalance.consume` lowers one balance by the amount; every other balance is unchanged |
| `Ledger.Cost` | src/market.js:170 | what a buy order locks is quantity*maxPrice in 1e-8 units of the currency, rounded down: at most the exact product and less than one unit below it |
| `Ledger.View` | src/market.js:101-113 | total is the balance, locked is what the account's orders commit, net is total minus locked |
| `Ledger.Check` | src/market.js:115-124 | rejects as insufficient iff total < amount, as locked iff total >= amount > net, accepts otherwise |
| `Ledger.ReservedRemove` | src/market.js:195 | deleting an order releases exactly what it locked |
| `Ledger.SellOrderKeepsSolvent` | src/market.js:136-138 | a sell order that passed the check of its quantity keeps every net balance non-negative |
| `Ledger.BuyOrderKeepsSolvent` | src/market.js:170-171 | a buy order that passed the check of quantity*maxPrice in the currency keeps the ledger solvent |
| `Ledger.RemovalKeepsSolvent` | src/market.js:195 | deleting an order of either side keeps the ledger solvent |
| `Ledger.DebitKeepsSolvent` | src/market.js:115-124 | consuming an amount that passed the check keeps the ledger solvent |
| `Ledger.GrowthKeepsSolvent` | src/market.js:334 | balances that only grew keep the ledger solvent |
| `Ledger.SolventNetNonNegative` | src/market.js:111 | in a solvent ledger no view reports a negative net |
| `Ledger.SupplyCredit` | src/market.js:282 | a credit raises the supply of its asset by the amount and no other supply |
| `Ledger.SupplyDebit` | src/market.js:280 | a debit lowers the supply of its asset by the amount and no other supply |
| `Store.Market.AssetBalance` | src/market.js:101-113 | the view of the store's balance and orders; its net is never negative in a valid store |
| `Store.Market.CheckAvailable` | src/market.js:115-124 | accepts iff the amount fits in the unlocked balance; short iff it exceeds the total |
| `Chain.FromSender` | src/market.js:354 | counts the inputs from the sender: all of them iff every input is the sender's, none iff no input is |
| `Chain.PaidTo` | src/market.js:363 | what the outputs pay the receiver is zero iff every output paying it carries zero |
| `Chain.CheckFloTx` | src/market.js:349-371 | verified iff all inputs are the sender's, in a block, confirmed and paying the sink; the credit is what the sink is paid; permanent failure iff the sender, inputs or receiver are wrong |
| `Chain.CheckTokenTx` | src/market.js:505-529 | verified iff a token transfer of a known non-FLO token with some input from the sender paying the sink FLO; retryable iff the sink or the lookup is missing |
| `Chain.FloDepositExclusive` | src/market.js:354-357 | a FLO transaction verifies for at most one claimant |
| `Chain.TokenDepositShared` | src/market.js:518-520 | a token transaction with inputs from two accounts verifies for both, with the same token amount |
| `Orders.ValidateOrder` | src/market.js:128-135 | no error iff the address is valid, quantity and price are positive and the asset is listed |
| `Orders.SellRequirement` | src/market.js:146-158 | the requirement as intended: the chips must exceed what open sell orders lock plus the new quantity |
| `Orders.SellRequirementAsWritten` | src/market.js:137-158 | the requirement as written and as called: the sums read off the row arrays and no quantity |
| `Orders.SellQuotaBound` | src/market.js:153 | after an order that passed the sell requirement, what the account's sell orders lock stays strictly below its chips |
| `Orders.SellRequirementAsWrittenRejects` | src/market.js:137-153 | as written, the sell requirement fails even when the chips allow the order |
| `Orders.AddSellOrder` | src/market.js:126-144 | validation error first, then check error; success iff valid, available and within sell chips, otherwise an insufficient-sell-chips error; success appends exactly one order with the next id; rejection changes nothing |
| `Orders.InsertOrder` | src/market.js:138 | the row joins its table with the table's next id, the other table is untouched, and solvency and ascending ids are kept |
| `Orders.AddBuyOrder` | src/market.js:160-176 | success iff valid and quantity*maxPrice of the currency is available; success appends exactly one order; rejection changes nothing |
| `Orders.FindOrder` | src/market.js:189-191 | finds a row with the id, or reports that no row has it |
| `Orders.RemoveDropsId` | src/market.js:195 | after the delete no row carries the id and ids stay ascending |
| `Orders.DeleteOrder` | src/market.js:195 | the row at the position leaves its table, the other table is untouched, no row keeps its id and the market stays valid |
| `Orders.CancelOrder` | src/market.js:178-200 | bad address, bad type, a missing order (not found) and another owner's order (not the owner) are each rejected with their own error and nothing changed; success deletes exactly the owner's row and nothing else |
| `Quota.HasTag` | src/market.js:615-621 | `checkTag` as intended: whether the account carries the tag |
| `Quota.IsDistributor` | src/market.js:646-652 | `checkDistributor` as intended: whether the account distributes the asset |
| `Quota.AddTag` | src/market.js:592-605 | duplicate rejected, unknown tag rejected, otherwise exactly that tag is added |
| `Quota.RemoveTag` | src/market.js:607-613 | the account no longer carries the tag and every other tag stays |
| `Quota.AddDistributor` | src/market.js:623-636 | duplicate rejected, unlisted asset rejected, otherwise exactly that grant is added |
| `Quota.DeleteGrants` | src/market.js:640 | the DELETE fails iff it names a column Distributors lacks; otherwise it only removes grants, and on the asset column exactly the named grant |
| `Quota.RemoveDistributor` | src/market.js:638-644 | as intended: the grant is gone and every other grant stays |
| `Quota.RemoveDistributorAsWritten` | src/market.js:638-644 | as written the DELETE names a column the table lacks: the request fails and every grant stays |
| `Quota.RemoveDistributorAsWrittenKeepsGrant` | src/market.js:640 | for a present grant the intended statement deletes exactly it, while the statement as written fails |
| `Quota.LaunchSellChips` | src/market.js:373-396 | only a launch seller with something left gets chips; the grant is at most the request, keeps chips + sold within the maximum + bought, and is the largest such amount |
| `Quota.LaunchGrantWithinAllowance` | src/market.js:385-390 | after the grant is inserted, the account's chips plus what it sold stay within the maximum plus what it bought |
| `Quota.LaunchGrant` | src/market.js:382-390 | the grant step on whatever the sums hold: only numeric sums give a row, which is positive, at most the request, and keeps chips + sold within the maximum + bought |
| `Quota.LaunchGrantOnNumbers` | src/market.js:382-390 | on numeric sums the source's grant step is exactly the intended allowance |
| `Quota.LaunchSellChipsAsWrittenGrantsNothing` | src/market.js:379-390 | a launch seller with allowance left gets a positive grant as intended, and none with the row arrays the code binds the sums to |
| `Transfers.InvalidIDs` | src/market.js:269-277 | empty iff every receiver is valid; lists every invalid receiver and only those |
| `Transfers.VaultRows` | src/market.js:284-286 | one Vault row per receiver, for its amount of the token |
| `Transfers.CreditsTotal` | src/market.js:281-282 | after the credits each account holds what it held plus what the request pays it |
| `Transfers.CreditsSupply` | src/market.js:281-282 | the credits raise the token's supply by the sum of the amounts |
| `Transfers.TransferEffect` | src/market.js:279-282 | debiting the sum and crediting the receivers moves each balance by what it is paid less what it pays, and conserves every supply |
| `Transfers.TransferId` | src/market.js:288-294 | the transfer id starts with the transfer prefix |
| `Transfers.ScanReceivers` | src/market.js:269-275 | collects exactly the invalid receivers, and when there are none the sum of the amounts |
| `Transfers.CreditReceivers` | src/market.js:281-282 | the loop credits each receiver in order and keeps the ledger solvent |
| `Transfers.AddVaultRows` | src/market.js:284-286 | the loop appends one Vault row per receiver |
| `Transfers.Transfer` | src/market.js:262-306 | bad sender, bad token, invalid receivers or a failed check reject with nothing changed; success iff all pass; per-account balance change, conserved supply, one prefixed record, Vault rows iff the sender distributes |
| `Transfers.TransferAsWritten` | src/market.js:278-284 | as written every transfer fails; with a TypeError exactly when the corrected transfer would succeed |
| `Deposits.FindClaim` | src/market.js:310-311 | finds a claim on (txid, floID), or reports that none exists |
| `Deposits.ClaimError` | src/market.js:312-319 | the rejection of a repeat is keyed to the existing claim's status |
| `Deposits.ClaimAppendUnique` | src/market.js:320-321 | a claim on a fresh key keeps (txid, floID) unique |
| `Deposits.DepositFLO` | src/market.js:308-326 | a repeated key is rejected by its status with nothing changed; otherwise exactly one PENDING claim is appended |
| `Deposits.DepositToken` | src/market.js:455-473 | the same rules on InputToken |
| `Deposits.DepositedUpdate` | src/market.js:334 | rewriting one claim changes what the table has credited by exactly that claim's difference |
| `Deposits.Settle` | src/market.js:331-343 | only a PENDING claim moves: to SUCCESS with the verified amount, to REJECTED on a permanent failure; otherwise unchanged |
| `Deposits.ConfirmFloClaim` | src/market.js:331-343 | one FLO claim is settled and the ledger gains exactly what it now records |
| `Deposits.ConfirmTokenClaim` | src/market.js:478-500 | one token claim is settled; the FLO is credited and recorded as a SUCCESS InputFLO claim only when no FLO claim exists on the key |
| `Deposits.RecordFloReceipt` | src/market.js:483-487 | the FLO leg of a token deposit is credited and recorded as one SUCCESS InputFLO claim on a fresh key; the ledger gains exactly what that claim records |
| `Deposits.SettleTokenClaim` | src/market.js:489-490 | the token claim is settled by its verdict and the ledger gains exactly the difference in what it records |
| `Deposits.FloStep` | src/market.js:330-344 | one iteration of the FLO pass: the row is settled by the chain's verdict, nothing else in InputFLO moves, the market stays valid |
| `Deposits.TokenStep` | src/market.js:477-500 | one iteration of the token pass: the row is settled by the token layer's verdict and InputFLO gains exactly that claim's receipt, if any |
| `Deposits.TokenPassStep` | src/market.js:476-477 | the token pass advanced by one claim keeps its invariant: earlier claims settled, later ones untouched, receipts as decided on the FLO claims, ledger identity |
| `Deposits.ConfirmDepositFLO` | src/market.js:328-347 | every PENDING FLO claim is settled by its verdict; settled claims stay; the ledger gains exactly what the settled claims record |
| `Deposits.Receipts` | src/market.js:482-486 | the receipts a token pass appends: at most one per claim, each a SUCCESS row with no token |
| `Deposits.ReceiptsAvoid` | src/market.js:482-486 | a key no claim holds is held by none of their receipts |
| `Deposits.FindClaimAvoid` | src/market.js:478 | rows that all miss a key do not change whether the key is claimed |
| `Deposits.ReceiptsStep` | src/market.js:478-486 | the receipt of the next claim, decided after the earlier receipts are appended, is the one decided before them |
| `Deposits.ReceiptsSameKeys` | src/market.js:478 | the receipts depend on the FLO claims only through their keys, so settling FLO claims does not change them |
| `Deposits.ConfirmDepositToken` | src/market.js:475-503 | every PENDING token claim is settled by its verdict; InputFLO keeps its rows and gains exactly the receipts of the verified claims whose key no FLO claim holds, with the FLO each paid; the ledger gains exactly what the settled claims record |
| `Withdrawals.NewPayout` | src/market.js:409-420 | the payout waits for confirmation iff the broadcast returned an id, and is queued otherwise |
| `Withdrawals.WithdrawFLO` | src/market.js:398-425 | bad address, bad amount or a failed check reject with nothing changed; success debits the amount once, records it in one payout row and lowers the FLO supply by it |
| `Withdrawals.WithdrawToken` | src/market.js:531-564 | also rejects an unknown token or FLO; success debits sendAmt + fee FLO and the amount of the token and records one payout |
| `Withdrawals.Retry` | src/market.js:427-439 | a queued payout starts waiting iff its re-broadcast returned an id; the status never goes back |
| `Withdrawals.ConfirmFlo` | src/market.js:441-453 | a waiting FLO payout is done iff its transaction has a block height and a confirmation |
| `Withdrawals.ConfirmToken` | src/market.js:580-590 | a waiting token payout is done iff the token layer finds its transaction |
| `Withdrawals.AdvancedKeepsWithdrawn` | src/market.js:427-453 | passes that only advance payouts leave every withdrawn total unchanged |
| `Withdrawals.RetryWithdrawalFLO` | src/market.js:427-439 | each OutputFLO row becomes its retried state |
| `Withdrawals.RetryWithdrawalToken` | src/market.js:566-578 | each OutputToken row becomes its retried state |
| `Withdrawals.ConfirmWithdrawalFLO` | src/market.js:441-453 | each OutputFLO row becomes its confirmed state |
| `Withdrawals.ConfirmWithdrawalToken` | src/market.js:580-590 | each OutputToken row becomes its confirmed state |
| `Scheduler.KindOf` | src/market.js:241-248 | the transfer prefix wins, then the trade prefix; no prefix means invalid |
| `Scheduler.FindRecord` | src/market.js:249-251 | finds the first row carrying the id, or reports that no row carries it |
| `Scheduler.GetTransactionDetails` | src/market.js:238-260 | invalid iff neither prefix; a found row is the first row of the prefix's table carrying the id; not found iff that table has no such id |
| `Scheduler.RecordedTransferFound` | src/market.js:241-243 | a recorded transfer is found under its id as a transfer |
| `Scheduler.BlockchainReCheck` | src/market.js:659-673 | without a sink address nothing changes; otherwise every FLO and token claim is settled by its verdict, InputFLO gains exactly the token pass's receipts, each payout row ends as its confirmation of its retry, and the ledger gains exactly what settled claims record |
| `Scheduler.DepositPasses` | src/market.js:667-668 | every FLO claim and every token claim is settled by its verdict and InputFLO gains exactly the receipts, keeping the ledger identity and solvency |
| `Scheduler.PayoutPasses` | src/market.js:669-672 | both retries, then both confirmations |

## Left out

- Session handling (`login`, `logout`), `getRateHistory`, `getBalance`, `getAccountDetails`, the HTTP request layer and the matching engine that `periodicProcess` starts. They are plumbing, aggregation, or code that is not part of this model.
- `updateBalance` lives in `coupling.js`, which is not part of this model. Its `add` and `consume` are modelled as map updates; `consume` is only used after a passing availability check.
- Asynchrony. Each request and each row of a pass is one atomic step. The six passes of a tick run one after the other. Interleavings of the `forEach` callbacks and of concurrent requests are not modelled. The re-arming `setTimeout` shows up only as `ran == false`.
- Database failures are not modelled. Examples: a failed `DB.transaction`, or a failed payout INSERT after `withdrawFLO` has already committed the debit.
- Amounts are integers in 1e-8 units. Float arithmetic, `toFixed` and the `typeof ... === "number"` guards (non-numeric arguments) are not modelled.
- `Crypto.SHA256` and `JSON.stringify` are the opaque `Config.digest`. The receiver column of a transfer record is kept as a sequence, not as a JSON string.
- `Transfers.Transfer`: receiver amounts are taken as naturals. The source never validates them, so a negative amount, which would debit that receiver, is not modelled.
- `Orders.AddBuyOrder`: quantities are in 1e-8 units of the asset and prices in 1e-8 units of the currency per whole unit of the asset. The lock is quantity*maxPrice rounded down to 1e-8 of the currency (`Ledger.Cost`); the source's float product and its rounding are not modelled.
- `Quota.AddTag`, `Quota.AddDistributor`: only the duplicate and unknown tag or asset errors are modelled. Any other database error is not.
- `Quota.LaunchSellChips` returns the row to insert, as the source does. No operation inserts it, because nothing in the source calls it.
- `Quota.LaunchSellChips` corrects three defects at once: the undeclared `req`, the `checkTag` that returns no promise, and the sums bound to row arrays. The model shows the third as written (`Quota.LaunchSellChipsAsWrittenGrantsNothing`). The first two are not modelled as members: the first alone already makes every call fail.
- `Scheduler.BlockchainReCheck`: the six passes run one after the other. The source starts them without waiting, so a confirmation pass may read its rows before the same tick's retry pass updates them; that interleaving is not modelled.
- `Withdrawals.RetryWithdrawalFLO`, `Withdrawals.RetryWithdrawalToken`: the broadcast result for each row is an oracle indexed by the row's position.

## Findings

| source | as written | input that shows it | evidently intended | confidence | as-written member | corrected member |
|---|---|---|---|---|---|---|
| src/market.js:137-153 | `addSellOrder` calls `checkSellRequirement` without the quantity, which then reads `total_chips` and `locked` off the query's row arrays; `undefined > NaN` is false | 100 chips, nothing locked, a sell order of 1 | chips > locked + quantity, on the summed rows | high, not executed | `Orders.SellRequirementAsWrittenRejects` | `Orders.SellQuotaBound` |
| src/market.js:283, 646-652 | `checkDistributor` builds its promise and returns undefined, so `.then` throws a TypeError after the availability check and the transfer never commits | any valid transfer the sender can afford | chain on the lookup's promise and commit | high, not executed | `Transfers.TransferAsWritten` | `Transfers.Transfer` |
| src/market.js:640 | `removeDistributor` filters on a `tag` column that the Distributors table, read elsewhere as id, floID and asset, does not have | removing any existing distributor | `WHERE floID=? AND asset=?` | medium (the table schema is not part of this model), not executed | `Quota.RemoveDistributorAsWrittenKeepsGrant` | `Quota.RemoveDistributor` |
| src/market.js:375, 382-384 | `addSellChipsIfLaunchSeller` reads `req.floID` with no `req` in scope; `checkTag` returns no promise; and `sold`, `brought` and `chips` are bound to whole row arrays, so the arithmetic yields no number and `quantity > 0` fails | a launch seller with 0 sold, 0 granted, a maximum of 100 and a request of 10 | look up the tag of `floID` and read each sum off its first row | high, not executed | `Quota.LaunchSellChipsAsWrittenGrantsNothing` | `Quota.LaunchSellChips` |
