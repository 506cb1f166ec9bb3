# Rive: verified model

Rive is a settlement layer for agents. Two Solidity contracts hold and move tokens: an
escrow for work orders, and a settlement contract that executes a netted batch. A Go
backend mirrors escrow events onto work orders, accrues payment intents, nets them in
batches, settles each batch on the chain, and keeps a double-entry ledger of all of it.
The same money is therefore described several times: by balances of the token, by orders
and intents, by batches and their manifests, and by ledger accounts. This project models
each description and proves that they agree, over every run.

## Structure

- `Sums`, `Sorting`, `Wrappers`, `Identity`: finite sums and the exchange law between rows
  and keys, sorted permutations, result types, agents and wallets.
- `Netting`, `NettingTheory`: the netting engine as its loops, and what a summary is worth:
  balanced, minimal, order-independent, and derivable again from its own manifest.
- `Erc20`, `NettingSettlement`, `SettlementGateway`: the token, the settlement contract, and
  the call made from an instruction.
- `Escrow`, `EscrowTerms`: the escrow contract, its event log and the order book that the log
  describes; and what an order promises its parties from its creation on.
- `Schema`, `Bookkeeping`, `JournalKeys`: the tables, posting a journal entry, and the text
  of idempotency keys.
- `NettingRepository`, `WorkOrders`, `WorkOrderService`, `NettingService`: the transactions
  and use cases over the live tables. Each method is proved against a function from store
  to store, about which the theorems are stated.
- `Backend`, `Accounting`, `Rollbacks`: every interleaving of all transactions, the invariant
  that ties each balance to intents and orders, and its consequences.
- `SettlementBooks`: the settlement entry computed from stored rows against the engine.
- `Mirror`: the backend against the chain, under reorganisations and repeated deliveries.
  `CloseRecords`: the transactions and times that a row names. `Funding`: that what is on the
  chain reaches the backend. `LateUpload`: the run in which a
  repeated delivery does harm. `Custody`: the ledger against the tokens that the contract
  holds.
- `Protocol`, `BatchStates`, `Overlap`: claim, publish, settle and close as atomic actions of
  any number of workers, with crashes, lost answers and late transactions; and a run in
  which two processes overlap.
- `Demo`: the demo's own netting and funding. `ProfitAndLoss`, `ReportTotals`,
  `ReportLines`, `ReportCounts`: the report, and in every run what it totals, what it lists,
  and what its transaction count counts.

## Reading the model

A table is a sequence of rows whose ids are their positions, or a map from the columns that
the migrations declare unique. A transaction is one step from store to store; one that fails
changes nothing. A run is any sequence of such steps by any workers: rows locked by another
claim are modelled by a claim that takes any non-empty set of claimable intents, and a worker
between two transactions by the data it carries. Agents have distinct non-zero wallets, so a
wallet stands for its agent; addresses are numbers that compare like their lower-cased text.
The hash of a manifest is an arbitrary function of it. Token amounts are unbounded except
where the contracts check 256-bit arithmetic, which is explicit, as are unlimited allowances
and the 64-bit truncation of a creation time. The token supply is assumed to fit in 256 bits.

Where code and documentation part ways the model follows the code. Five cases show:

- A batch marked failed by a reconcile can still be journaled afterwards, because the
  settlement transaction does not look at the number of rows it updated
  (`backend/internal/repository/postgres/netting_repository.go:264-308`), and `Overlap` gives
  the run. What does hold in every interleaving is stated by the journal, not by the row's
  status; the three batch states hold for processes that do not overlap, and two lemmas say
  exactly when closing a batch keeps them.
- A journal key of an escrow event has the block's number, not its hash
  (`backend/internal/usecase/work_order_usecase.go:505-518`), so an event that is removed and
  comes back in the sibling block, at the same place, finds its key taken. A release or
  refund is then lost: the order is closed on the chain and the work order stays funded. A
  creation leaves its work order a draft. Delivering a close keeps the agreement with the
  chain exactly if its key is new for the row; for new events at positions that never
  repeat it is kept in every run.
- A creation that is delivered again binds whatever draft has its parties, amount and spec
  hash by then, although its order may be closed
  (`backend/internal/repository/postgres/work_order_bookkeeping.go:24-62`). `LateUpload` gives
  the run: an order is created and closed before its spec is uploaded. The agreement with
  the chain survives a repeated delivery exactly if the order is still open or there is
  nothing that the creation can bind.
- An idempotency key of an intent is looked up as given but stored trimmed, so a padded
  resubmission is refused instead of answered. Work orders store the key as given.
- The transaction count of a report counts journal entries while its list has one line per
  ledger entry. Neither the upload of a work order nor the contract asks that payer and payee
  differ (`contracts/src/Escrow.sol:134-155`), and an agent that pays itself has both legs of
  one entry in its list. In every run the two numbers differ exactly when the period has such
  an entry.

## Model

| member | source | states |
|---|---|---|
| `Netting.GetNettingPosition` | `backend/internal/usecase/netting_usecase.go:382-391` | an agent keeps the position it has; a first occurrence adds one with the wallet of that occurrence and net zero |
| `Netting.MoveAmount` | `backend/internal/usecase/netting_usecase.go:309-312` | one loop pass keeps the position map equal to the nets and first wallets of all intents seen so far, also when payer and payee are the same agent |
| `Netting.FoldIntents` | `backend/internal/usecase/netting_usecase.go:300-320` | the loop stops at exactly the first intent in another asset, or ends with positions, gross amount and manifest lines of the whole list |
| `Netting.PartiesOf` | `backend/internal/usecase/netting_usecase.go:322-344` | whatever order the map is iterated in, sorting leaves exactly the agents with negative (positive) net, once each, by wallet |
| `Netting.BuildManifestPositions` | `backend/internal/usecase/netting_usecase.go:399-409` | the manifest lists wallet and amount of each party, in order |
| `Netting.TotalOf` | `backend/internal/usecase/netting_usecase.go:349-352` | the net amount is the sum over the debtors |
| `Netting.ComputeNettingSummary` | `backend/internal/usecase/netting_usecase.go:295-380` | empty input and the first unsupported asset are the only errors; otherwise settlement and manifest are a summary of the intents (`IsSummary`): exact debtor and creditor lists, sorted permutation of the intents, all totals |
| `NettingTheory.NetSumsToZero` | `backend/internal/usecase/netting_usecase.go:308-312` | the net positions of a batch cancel |
| `NettingTheory.SettlementBalances` | `backend/internal/usecase/netting_usecase.go:322-352` | the creditors' total equals the debtors' total, which is the net amount, although only debtors are summed |
| `NettingTheory.InstructionWellFormed` | `backend/internal/usecase/netting_usecase.go:203-208` | every party has a non-zero wallet and a positive amount; the net amount is non-zero exactly when there are debtors and exactly when there are creditors; a skipped batch has no net position at all |
| `NettingTheory.NetAmountIsHalf` | `backend/internal/usecase/netting_usecase.go:322-352` | the net amount is half the sum of all absolute positions |
| `NettingTheory.NettingIsOptimal` | `backend/internal/usecase/netting_usecase.go:295-380` | no list of payments that leaves every agent with the same net position moves less than the net amount; in particular it is at most the gross amount |
| `NettingTheory.MinimumAttained` | `backend/internal/usecase/netting_usecase.go:295-380` | from any positions, a list of positive payments exists that has those net positions and moves exactly the total deficit |
| `NettingTheory.NetAmountIsTheMinimum` | `backend/internal/usecase/netting_usecase.go:295-380` | the net amount is attained by some list of payments and is a lower bound of all of them |
| `NettingTheory.MergingNeverCosts` | `backend/internal/usecase/netting_usecase.go:295-380` | netting two batches together never moves more than netting them apart |
| `NettingTheory.SummaryUnique` | `backend/internal/usecase/netting_usecase.go:303-347` | any two summaries of permutations of the same intents are equal: claim order and map iteration order do not show in settlement or manifest |
| `NettingTheory.SummaryPermuted` | `backend/internal/usecase/netting_usecase.go:303-347` | a summary of the intents is a summary of each of their permutations |
| `NettingTheory.ManifestRenets` | `backend/internal/usecase/netting_usecase.go:354-365` | netting the manifest's own intents, with agents known only by wallet, yields that very manifest |
| `NettingTheory.ManifestTells` | `backend/internal/usecase/netting_usecase.go:354-365` | the manifest has version, batch, time and asset, and a line for each intent, by the wallets of its agents and in the order of the ids, and none besides |
| `NettingTheory.ManifestNames` | `backend/internal/usecase/netting_usecase.go:354-365` | it has a position, in the order of the wallets, for exactly the agents that owe and for those that are owed on balance, with that amount |
| `NettingTheory.TransfersCounted` | `backend/internal/usecase/netting_usecase.go:367-379` | one transfer is counted for each agent with a net position |
| `NettingTheory.TransferSettlesOne` | `backend/internal/usecase/netting_usecase.go:295-380` | one payment from a debtor to a creditor of the smaller of their positions settles at least one of them and shrinks the deficit by that amount |
| `Erc20.MoveKeepsSupply` | `contracts/src/NettingSettlement.sol:81-87` | a transfer keeps the sum of all balances |
| `Erc20.TransferFromEffect` | `contracts/src/NettingSettlement.sol:82` | exactly when a pull succeeds (balance, allowance, unlimited allowance), and every balance and allowance after it |
| `Erc20.TokenContract.TransferFrom` | `contracts/src/NettingSettlement.sol:82` | the token object ends in the specified state, or unchanged when the call fails after the allowance was spent |
| `NettingSettlement.SettlementContract.SumChecked` | `contracts/src/NettingSettlement.sol:57-75` | a validating loop returns the checked total, or the first reason to revert |
| `NettingSettlement.SettlementContract.PullDebits` | `contracts/src/NettingSettlement.sol:81-83` | the debit loop pulls every leg through the contract, or reports that one failed |
| `NettingSettlement.SettlementContract.PayCredits` | `contracts/src/NettingSettlement.sol:85-87` | the credit loop pays every leg from the contract, or reports that one failed |
| `NettingSettlement.SettlementContract.SettleBatch` | `contracts/src/NettingSettlement.sol:40-90` | success and each revert are those of the specification; success adds the hash and moves the token; any revert leaves hash set and token as they were |
| `NettingSettlement.DebitLoop` | `contracts/src/NettingSettlement.sol:81-83` | the debit loop passes if and only if every address can bear the sum of its debits (duplicates allowed), and then moves exactly those sums |
| `NettingSettlement.CreditLoop` | `contracts/src/NettingSettlement.sol:85-87` | with the total in the contract the credit loop cannot fail, and pays exactly the credits |
| `NettingSettlement.CheckedTotal` | `contracts/src/NettingSettlement.sol:57-65` | a validating loop succeeds if and only if all legs have non-zero party and amount and the total fits in 256 bits; it returns the total |
| `NettingSettlement.BearableTotal` | `contracts/src/NettingSettlement.sol:64` | debits that everyone can bear stay within the token supply, so the checked addition cannot overflow |
| `NettingSettlement.SettleIff` | `contracts/src/NettingSettlement.sol:40-90` | a settlement succeeds if and only if its arguments pass the checks and every debtor can bear its summed debits; each balance then changes by credits less debits, each allowance to the contract by the debits, nothing else |
| `NettingSettlement.SettleKeepsSupply` | `contracts/src/NettingSettlement.sol:79-87` | a settlement keeps the token supply |
| `NettingSettlement.SettleReasons` | `contracts/src/NettingSettlement.sol:47-79` | each revert is given exactly for its reason, the first one that applies |
| `NettingSettlement.FirstBadLeg` | `contracts/src/NettingSettlement.sol:57-75` | a validating loop reports the first wrong leg: zero party, zero amount, or overflow of the total |
| `SettlementGateway.SettlementParties` | `backend/internal/infrastructure/settlement/netting.go:136-152` | the parallel arrays are wallets and amounts in order; refused if and only if some amount is not positive |
| `SettlementGateway.ShareIsPosition` | `backend/internal/infrastructure/settlement/netting.go:136-152` | the instruction takes from (gives to) each agent's wallet exactly its negative (positive) net, and touches no other wallet |
| `SettlementGateway.CallInOrder` | `backend/internal/infrastructure/settlement/netting.go:98-107` | every instruction the engine produces passes the amount, zero-address and totals checks of the chain, and its arrays are non-empty unless nothing is to move |
| `SettlementGateway.BatchSettles` | `backend/internal/infrastructure/settlement/netting.go:90-128` | a batch settles if and only if its hash is new and non-zero and every debtor can bear its net; each agent then gains its net position and no other wallet changes |
| `Demo.ComputeDemoSummary` | `backend/cmd/demo-netting/summary.go:22-58` | errors exactly on a non-positive amount; otherwise gross, net and each agent's position, sorted by name |
| `Demo.OutgoingTotals` | `backend/cmd/demo-netting/summary.go:60-75` | errors exactly on a non-positive amount; otherwise each agent's total of payments |
| `Demo.DemoAgreesWithService` | `backend/cmd/demo-netting/summary.go:22-58` | the demo's gross and net amounts are those the service computes when it nets the whole run |
| `Demo.FundedRunSettles` | `backend/cmd/demo-netting/summary.go:60-75` | agents that hold and have approved what they pay in a sequence of batches see every settlement in the sequence succeed |
| `Demo.EnsureAgentReady` | `backend/cmd/demo-netting/chain.go:65-111` | exactly when an agent is made ready, and with what: a short balance is topped up to the outgoing total and the buffer, a short approval becomes the outgoing total, and no one else's tokens or approvals change |
| `Demo.PrepareAgents` | `backend/cmd/demo-netting/main.go:98-107` | when no agent fails, every agent holds and has approved its outgoing total: the funding that `Demo.FundingSuffices` asks for |
| `Demo.FundingSuffices` | `backend/cmd/demo-netting/summary.go:60-75` | however the run is cut into batches and in whatever order, holding and approving one's outgoing total makes every settlement succeed |
| `Escrow.EscrowContract.Create` | `contracts/src/Escrow.sol:134-155` | the new storage and token, or the exact revert with both unchanged |
| `Escrow.EscrowContract.Release` | `contracts/src/Escrow.sol:160-172` | the new storage and token, or the exact revert with both unchanged |
| `Escrow.EscrowContract.Refund` | `contracts/src/Escrow.sol:178-192` | the new storage and token, or the exact revert with both unchanged |
| `Escrow.CloseKeeps` | `contracts/src/Escrow.sol:161-191` | paying out an order cannot fail for lack of funds, keeps the contract solvent, and adds to its surplus only when it pays itself |
| `Escrow.StepKeepsSolvent` | `contracts/src/Escrow.sol:134-192` | every call and every foreign token transfer keeps the contract solvent and never eats into its surplus |
| `Escrow.RunStaysSolvent` | `contracts/src/Escrow.sol:134-192` | in every run from deployment the token balance covers all Created orders, ids below the counter are exactly the orders, the event log replays to them, and each closed order was paid out exactly once, each open one never |
| `Escrow.OrdersCanBeClosed` | `contracts/src/Escrow.sol:160-192` | release succeeds if and only if the order is Created and the caller its payer; refund if and only if it is Created and the timeout has passed, for any caller |
| `EscrowTerms.CreateIff` | `contracts/src/Escrow.sol:134-155` | a create goes through if and only if payee and amount are not zero and the caller holds and has approved the amount, which it then pays in; each revert exactly for its reason |
| `EscrowTerms.OrderKeepsTerms` | `contracts/src/Escrow.sol:143-154` | in every run an order keeps payer, payee, amount and spec hash of the call that created it, and the time of that call, and its event stays in the log |
| `EscrowTerms.RefundTimelock` | `contracts/src/Escrow.sol:178-192` | in every run an open order that was created at time n can be refunded, by anyone, if and only if the clock has reached n + 604800 seconds (n modulo 2 to the 64) |
| `EscrowTerms.ReleasePaysPayee` | `contracts/src/Escrow.sol:160-172` | in every run an open order is released if and only if its creator calls, and then the amount goes from the contract to the payee of the call that created it |
| `EscrowTerms.RefundPaysPayer` | `contracts/src/Escrow.sol:178-192` | in every run a refund returns the amount to the caller that created the order, whoever asks |
| `EscrowTerms.CloseReasons` | `contracts/src/Escrow.sol:160-185` | why a release or refund reverts: the state first, then the caller or the clock |
| `Bookkeeping.UpsertAccount` | `backend/internal/repository/postgres/bookkeeping.go:26-64` | the account exists afterwards with the given type; an existing one keeps balance and version |
| `Bookkeeping.WriteLedgerPosting` | `backend/internal/repository/postgres/bookkeeping.go:67-120` | one entry is appended and exactly one account moves, by the signed delta, with its version raised by one |
| `Bookkeeping.RecordJournal` | `backend/internal/repository/postgres/netting_repository.go:534-579` | a taken key fails with nothing written; otherwise the journal row and each positive leg, in order |
| `Bookkeeping.LegsMoveBalances` | `backend/internal/repository/postgres/bookkeeping.go:104-116` | a journal entry moves every account by the sum of its legs' signed amounts |
| `Bookkeeping.LegKeepsCache` | `backend/internal/repository/postgres/bookkeeping.go:67-133` | one leg keeps every cached balance equal to the fold of its entries, its type to its name's, its version to one plus its entry count |
| `Bookkeeping.RecordKeepsSound` | `backend/internal/repository/postgres/netting_repository.go:534-579` | a well-formed entry keeps the whole ledger sound: cache, entry order, balanced journals, and income that cancels over every period |
| `NettingRepository.Repository.CreateIntentWithAccrual` | `backend/internal/repository/postgres/netting_repository.go:105-146` | row and accrual journal together, or nothing: taken key, unknown agent, non-positive amount |
| `NettingRepository.Repository.SelectPending` | `backend/internal/repository/postgres/netting_repository.go:151-174` | exactly the pending intents of the window that no other claim has locked, each once, by creation time and then by id |
| `NettingRepository.Repository.JoinSelected` | `backend/internal/repository/postgres/netting_repository.go:182-194` | the joined intents are exactly those of the selected ids, without duplicates |
| `NettingRepository.Repository.ClaimPendingIntents` | `backend/internal/repository/postgres/netting_repository.go:148-260` | without a claimable intent nothing changes; otherwise one new processing batch takes exactly the claimable unlocked intents, and they are what the caller gets, oldest first; every column of the new batch and of the claimed rows is stated |
| `NettingRepository.Repository.AgentEntry` | `backend/internal/repository/postgres/netting_repository.go:430-468` | the legs that clear one agent's gross positions against cash |
| `NettingRepository.Repository.SettlementEntry` | `backend/internal/repository/postgres/netting_repository.go:415-472` | the settlement entry visits each agent of the batch exactly once, in some order |
| `NettingRepository.Repository.MarkBatchSettled` | `backend/internal/repository/postgres/netting_repository.go:262-310` | row, intents and settlement journal together or nothing; the row's status is not checked before the journal is written |
| `NettingRepository.Repository.MarkBatchFailed` | `backend/internal/repository/postgres/netting_repository.go:312-342` | the row is failed whatever its status, and exactly the batched intents with it |
| `NettingRepository.Repository.FindStuckProcessingBatches` | `backend/internal/repository/postgres/netting_repository.go:347-374` | exactly the processing batches older than the cutoff, each once, oldest first |
| `NettingRepository.ClosedKeepsPositions` | `backend/internal/repository/postgres/netting_repository.go:479-492` | closing intents does not change whose positions the settlement entry is computed from |
| `SettlementBooks.BatchPositions` | `backend/internal/repository/postgres/netting_repository.go:479-523` | the grouped positions of the stored rows are the payments and receipts of the batch's intents, for every agent |
| `SettlementBooks.ClaimTakesBatch` | `backend/internal/repository/postgres/netting_repository.go:202-233` | what a claim hands out is a permutation of the batch it stores |
| `SettlementBooks.CashLegsListed` | `backend/internal/repository/postgres/netting_repository.go:449-468` | the cash legs on one side are exactly the agents whose stored net is on that side, once each |
| `SettlementBooks.TwoNettingsAgree` | `backend/internal/repository/postgres/netting_repository.go:415-523` | the cash credits of the settlement entry are exactly the debtors of the engine's instruction and its cash debits exactly the creditors, whatever the claim order and both map iteration orders |
| `SettlementBooks.SettlementBalancesPerAgent` | `backend/internal/repository/postgres/netting_repository.go:429-469` | the settlement entry balances for each agent separately, and overall |
| `JournalKeys.KeysInjective` | `backend/internal/usecase/work_order_usecase.go:505-518` | accrual, settlement and escrow key texts are equal only if kind and all parts are |
| `JournalKeys.EventIdsInjective` | `backend/internal/usecase/work_order_usecase.go:506-515` | for colon-free 0x-prefixed hashes the event id determines transaction, block and log index, or the order id when there is no transaction |
| `JournalKeys.EventIdTexts` | `backend/internal/usecase/work_order_usecase.go:505-518` | the text of an event id with transaction, block and log index, with the transaction alone, and with neither |
| `JournalKeys.KeyTexts` | `backend/internal/repository/postgres/netting_repository.go:376-472` | the text of an accrual, a settlement and an escrow key |
| `WorkOrders.FindTarget` | `backend/internal/repository/postgres/work_order_bookkeeping.go:250-257` | a row that the event's query matches, or none exists |
| `WorkOrders.WorkOrderUsecase.ResolveTarget` | `backend/internal/repository/postgres/work_order_bookkeeping.go:24-42` | the read-only resolve returns the query's target |
| `WorkOrders.WorkOrderUsecase.ApplyTransition` | `backend/internal/repository/postgres/work_order_bookkeeping.go:262-276` | applied completely, or not matched, or refused for a violated constraint, each exactly when specified; in the last two cases nothing changes |
| `WorkOrders.AppliedColumns` | `backend/internal/repository/postgres/work_order_bookkeeping.go:44-246` | each of the six updates changes its own columns of its row, from the event and the time of its delivery, and no other column or row |
| `WorkOrders.TargetOfEvent` | `backend/internal/repository/postgres/work_order_bookkeeping.go:24-246` | what each of the six queries asks of a row: spec hash, amount and parties of a draft, or on-chain id, amount and paid party of a bound row |
| `WorkOrders.WorkOrderUsecase.RecordEscrowEvent` | `backend/internal/usecase/work_order_usecase.go:403-444` | resolve, upload, apply: without a match or with a failed upload nothing changes; otherwise the whole delivery is processed |
| `WorkOrderService.WorkOrderService.UploadSpec` | `backend/internal/usecase/work_order_usecase.go:54-135` | answer and table are those of the specification, check by check: blank key, known key, malformed spec, amount, parties, upload, insert |
| `WorkOrderService.UploadSucceedsIff` | `backend/internal/usecase/work_order_usecase.go:54-135` | an upload is answered with an order if and only if its key is not blank and is in use, or the request is in order, its parties are known and no order has its spec; a refusal leaves the table alone |
| `WorkOrderService.UploadStoresDraft` | `backend/internal/usecase/work_order_usecase.go:76-118` | an upload under an unused key appends one draft, column by column: key as given, the payer as creator, the payee as provider, amount, spec hash, time, and nothing of a later status |
| `WorkOrderService.CreationFindsUpload` | `backend/internal/repository/postgres/work_order_bookkeeping.go:24-42` | the creation event with the wallets of payer and payee, that amount and that spec hash finds exactly that draft, under any id and at any position |
| `WorkOrderService.UploadRefusals` | `backend/internal/usecase/work_order_usecase.go:54-105` | each refusal is given exactly for its reason, the first one that applies |
| `WorkOrderService.ReuploadAnswersFirst` | `backend/internal/usecase/work_order_usecase.go:60-66` | a second upload under the same key, whatever else it says and whatever was added in between, answers with the first order and stores nothing |
| `WorkOrderService.WorkOrderService.CreateOrFind` | `backend/internal/usecase/work_order_usecase.go:120-128` | the insert in any later state of the table: stored, or the order that won the race, or refused |
| `WorkOrderService.WorkOrderService.SubmitDelivery` | `backend/internal/usecase/work_order_usecase.go:137-187` | refused exactly for the first of: unknown order, bad signature, other signer than the payee, not funded, already delivered; otherwise the delivery update |
| `WorkOrderService.DeliveryRefusals` | `backend/internal/usecase/work_order_usecase.go:137-187` | the refusals in terms of the row that is bound to the id, and what holds when there is none |
| `WorkOrderService.WorkOrderService.PostDelivery` | `backend/internal/repository/postgres/work_order_repository.go:196-221` | succeeds if and only if a funded undelivered order is bound to the id at that moment; a miss changes nothing and reports unknown ids as such |
| `WorkOrderService.DeliveryTouchesOneOrder` | `backend/internal/repository/postgres/work_order_repository.go:196-221` | an accepted delivery changes the delivery columns of the one order bound to the id, whose provider signed it, and nothing else |
| `WorkOrderService.DeliveredOnce` | `backend/internal/repository/postgres/work_order_repository.go:204-206` | in every run a posted delivery stays and no other is accepted, even when the funding is rolled back and redone |
| `WorkOrderService.DeliveryRecorded` | `backend/internal/repository/postgres/work_order_repository.go:196-221` | in every run a delivery that reaches a funded order without one is that order's delivery from then on, with its time |
| `Backend.AccrualEffect` | `backend/internal/repository/postgres/netting_repository.go:376-413` | the accrual entry is well-formed and moves exactly the four accounts of payer and payee |
| `Backend.EscrowEffect` | `backend/internal/usecase/work_order_usecase.go:219-373` | each of the six posting tables moves every account by exactly what the order's change of status demands |
| `Backend.SettlementEffect` | `backend/internal/repository/postgres/netting_repository.go:415-472` | the settlement entry, in any agent order, clears each agent's payable and receivable of the batch against cash |
| `Backend.JournalingMoves` | `backend/internal/repository/postgres/netting_repository.go:415-472` | journaling a batch turns the accruals of its intents into cash in every account's expected balance |
| `Backend.CreateIntentKeeps` | `backend/internal/repository/postgres/netting_repository.go:105-146` | creating an intent keeps the invariant of the store |
| `Backend.ClaimKeeps` | `backend/internal/repository/postgres/netting_repository.go:148-260` | a claim of any pending intents keeps the invariant of the store |
| `Backend.MarkSettledKeeps` | `backend/internal/repository/postgres/netting_repository.go:262-310` | settling a batch in any status keeps the invariant of the store |
| `Backend.MarkFailedKeeps` | `backend/internal/repository/postgres/netting_repository.go:312-342` | failing a batch in any status keeps the invariant of the store |
| `Backend.ApplyKeeps` | `backend/internal/repository/postgres/work_order_bookkeeping.go:262-276` | applying an escrow event, however stale its resolve, keeps the invariant of the store |
| `Backend.StepKeepsInv` | `backend/internal/repository/postgres/netting_repository.go:105-342` | every atomic step of any worker keeps the invariant: each balance equals what intents and orders determine, the ledger is sound, columns follow status |
| `Backend.RunKeepsInv` | `backend/internal/app/app.go:82-86` | the invariant holds at every point of every interleaving of all transactions |
| `Accounting.NettingAccounts` | `backend/internal/repository/postgres/netting_repository.go:376-472` | in every run each agent's netting payable (receivable) is the sum of the intents it pays (is paid by) whose batch has no settlement journal |
| `Accounting.EscrowInEveryRun` | `backend/internal/usecase/work_order_usecase.go:219-373` | in every run locked and pending funds are the funded orders, service expense and revenue the completed orders plus all accruals, and each agent's books are off by exactly the binding orders it created less those it provides |
| `Accounting.CacheInEveryRun` | `backend/internal/repository/postgres/bookkeeping.go:67-133` | in every run each cached balance is the fold of its entries, with type by name and version one plus entry count, and every journal balances |
| `Accounting.AccountingEquation` | `backend/internal/usecase/work_order_usecase.go:219-373` | assets plus expenses less liabilities and revenue is the funded or completed orders created less those provided; netting contributes nothing |
| `Accounting.SystemBalances` | `backend/internal/usecase/work_order_usecase.go:219-373` | in every run the books balance over all agents |
| `Accounting.ColumnsFollowStatus` | `backend/internal/repository/postgres/work_order_bookkeeping.go:44-246` | in every run on-chain id, transaction hashes and close times are set exactly in the statuses that own them |
| `Accounting.LinksInEveryRun` | `backend/internal/repository/postgres/netting_repository.go:235-239` | in every run each journal entry is linked to its intent and that intent's batch, to its batch, or to its work order, and to nothing else; an intent has a batch unless pending and a settlement time exactly if settled |
| `Accounting.TimesInEveryRun` | `backend/internal/repository/postgres/netting_repository.go:376-472` | in every run an accrual has the time of its intent, a settlement that of its intents' settling, and a release or refund that of its work order's close |
| `Accounting.KeysInEveryRun` | `backend/internal/repository/postgres/netting_repository.go:105-146` | in every run no two intents and no two work orders share an idempotency key |
| `Accounting.AppliedOnce` | `backend/internal/repository/postgres/work_order_bookkeeping.go:322-357` | in every run no work order, action and event is applied twice, and a rejected apply changes nothing |
| `Accounting.BatchNeverChanges` | `backend/internal/repository/postgres/netting_repository.go:223-230` | in every run an intent's batch, once set, is its batch for ever |
| `Accounting.RedeliveryIsNoOp` | `backend/internal/usecase/work_order_usecase.go:403-415` | without removals in the stream, redelivering an applied event at any later point and with any time stamp finds no target and changes nothing |
| `Rollbacks.NestRestores` | `backend/internal/repository/postgres/work_order_bookkeeping.go:44-246` | any properly nested sequence of records and rollbacks, with deliveries and other events anywhere in between, returns every order that none of those other events is about, but for delivery and update time, and every account balance of an agent with no such order, to what they were |
| `Mirror.OpKeepsMirror` | `backend/internal/repository/postgres/work_order_bookkeeping.go:24-246` | a new event, the removal of the newest event, an event that comes again, the apply of a delivery resolved earlier, or any other transaction keeps work orders in agreement with the chain |
| `Mirror.BackendRefinesChain` | `backend/internal/repository/postgres/work_order_bookkeeping.go:24-246` | at every point of every such run, also between resolve and apply of a delivery, a work order bound to order k agrees with order k of the chain on amount, payer, payee, spec hash and state, and is the only one bound to it |
| `Mirror.BackendRefinesContract` | `backend/internal/repository/postgres/work_order_bookkeeping.go:24-246` | the same against the escrow contract's stored order, in every run of the contract whose log is the delivered chain |
| `CloseRecords.RowTellsTransactions` | `backend/internal/repository/postgres/work_order_bookkeeping.go:44-246` | in every run a bound row has the transactions of its order's events on the chain: of its creation, and of its release or refund together with the time of the delivery that brought it |
| `Mirror.TakesEffectIff` | `backend/internal/repository/postgres/work_order_bookkeeping.go:262-276` | a delivery that matches a row takes effect if and only if its journal key is new and, for a creation, no other work order is bound to the on-chain id |
| `Mirror.CloseMirroredIff` | `backend/internal/usecase/work_order_usecase.go:505-518` | after a release, a refund or the removal of one is delivered for a bound order, backend and chain agree if and only if the journal key of the delivery is new for its row |
| `Mirror.ReincludedCloseIsLost` | `backend/internal/usecase/work_order_usecase.go:505-518` | a release or refund that is removed and returns at the same transaction, block number and log index is lost: the order is closed on the chain, its work order stays funded and disagrees with it |
| `Mirror.AnyCloseCanBeLost` | `backend/internal/usecase/work_order_usecase.go:505-518` | at any point of any run, every close of a bound order that the contract can emit is lost once it is removed and comes back in place |
| `Mirror.ReincludedCreationIsLost` | `backend/internal/usecase/work_order_usecase.go:505-518` | a creation that is removed and returns in place leaves its work order a draft, bound to nothing |
| `Mirror.NeverRecordedAgain` | `backend/internal/usecase/work_order_usecase.go:505-518` | once an event is journaled for a work order, no delivery of it at any later point of any run touches that work order; a creation, or an event of the order that the row is bound to, then changes nothing at all |
| `Mirror.RedeliveryMirroredIff` | `backend/internal/usecase/work_order_usecase.go:403-444` | an event still on the chain that is delivered again leaves the agreement intact if and only if its order is still open or no draft can be bound by it (`Bindable`: parties, amount and spec hash of the creation, a new journal key, an on-chain id that is not taken); a close that comes again changes nothing |
| `LateUpload.LateUploadBreaks` | `backend/internal/repository/postgres/work_order_bookkeeping.go:24-62` | whenever the spec of a closed order that is bound to nothing is uploaded, the draft can be bound, and delivering the creation again breaks the agreement with the chain |
| `LateUpload.LateUploadReached` | `backend/internal/repository/postgres/work_order_bookkeeping.go:24-62` | a run from the empty state for any two agents, amount and spec: created, closed, then uploaded; the agreement holds to the end of the run, and delivering the creation once more funds a work order whose order is closed |
| `Funding.FinishBinds` | `backend/internal/repository/postgres/work_order_bookkeeping.go:24-62` | recording a new creation that was resolved to a draft cannot fail, whatever other transactions came in between: the draft is funded and bound |
| `Funding.CreationStaysBound` | `backend/internal/repository/postgres/work_order_bookkeeping.go:24-246` | in every run a draft that matches a creation when it is delivered is bound to the order once the creation is on the chain, and stays so until the creation is removed |
| `Funding.MirroredFromCreation` | `backend/internal/repository/postgres/work_order_bookkeeping.go:24-246` | in every run that work order agrees with its order on the chain for as long as the creation is on it, through closes, removals, repeated deliveries and all other transactions |
| `Custody.FundsAreFundedOrders` | `backend/internal/usecase/work_order_usecase.go:219-373` | the locked funds of all agents, and their pending funds, sum to the amounts of the funded work orders |
| `Custody.LedgerIsCustody` | `contracts/src/Escrow.sol:134-192` | at every point of every run whose chain is the contract's log, the locked funds of all agents are what the contract owes less its open orders that no work order is bound to; so the contract's tokens cover them |
| `Protocol.StepKeepsBatches` | `backend/internal/repository/postgres/netting_repository.go:105-342` | no transaction adds an intent to an existing batch or takes one away |
| `Protocol.PublishedFromClaim` | `backend/internal/usecase/netting_usecase.go:188-201` | a manifest computed from a claim is a summary of the batch as stored, and never replaces another |
| `Protocol.MinedEffect` | `backend/internal/usecase/netting_usecase.go:203-218` | a broadcast settlement that is mined, even after its worker gave up, had a new hash and moves exactly the batch's net positions |
| `Protocol.ActionKeepsInv` | `backend/internal/usecase/netting_usecase.go:173-226` | every action of any worker, every mined call, crash, reconcile and foreign token change keeps the invariant of the protocol |
| `Protocol.JournaledWasExecuted` | `backend/internal/usecase/netting_usecase.go:203-223` | in every run a settled batch has a journal, and a batch with a journal was executed on the chain or has equal payable and receivable for every agent |
| `Protocol.NoIntentSettledTwice` | `backend/internal/usecase/netting_usecase.go:173-226` | in every run no intent is in the manifests of two settlements on the chain |
| `Protocol.SettledRowTellsBatch` | `backend/internal/repository/postgres/netting_repository.go:264-290` | in every run the row of a settled batch has the root hash of the manifest published for it, and count, gross amount, number of agents with a net position, and net amount of the intents stored under it |
| `Protocol.ChainAgreesWithBooks` | `backend/internal/usecase/netting_usecase.go:173-226` | in every run the tokens that all settlements moved for an agent are its cash balance plus its net in batches executed but not journaled |
| `Protocol.CashIsWhatMoved` | `backend/internal/usecase/netting_usecase.go:173-226` | once every executed batch is journaled, cash is exactly what the chain moved |
| `Protocol.JournalMirrorsSettlement` | `backend/internal/usecase/netting_usecase.go:220-222` | the cash legs a worker journals are the debits and credits of the instruction it settled |
| `BatchStates.SettlingIsCoherentIff` | `backend/internal/repository/postgres/netting_repository.go:262-310` | marking settled keeps the three batch states if and only if the batch is still processing; otherwise it was failed and gets a journal |
| `BatchStates.FailingIsCoherentIff` | `backend/internal/repository/postgres/netting_repository.go:312-342` | marking failed keeps the three batch states if and only if the batch is not settled |
| `BatchStates.ActionKeepsOrderly` | `backend/internal/usecase/netting_usecase.go:76-94` | with at most one worker at work every action keeps all batches in one of the three states and every held batch open |
| `BatchStates.ThreeStates` | `backend/internal/app/app.go:82-86` | in any sequence of processes that do not overlap, with crashes anywhere, each batch is open, settled with a journal, or failed without one, and all its intents with it |
| `BatchStates.ReconcileLeavesNoneStuck` | `backend/internal/usecase/netting_usecase.go:76-94` | when a reconcile without errors is through, no batch older than its cutoff is processing |
| `BatchStates.OverlapBreaksStates` | `backend/internal/usecase/netting_usecase.go:76-94` | from any state in which a worker is about to journal its batch, a second process that reconciles first leaves the batch failed with a journal |
| `Overlap.OverlapReached` | `backend/internal/usecase/netting_usecase.go:76-94` | such a state is reached from the start for any two agents, any amount the payer holds and has approved, and any two workers: the run ends with the tokens moved and journaled and the batch marked failed |
| `NettingService.NettingUsecase.SubmitIntent` | `backend/internal/usecase/netting_usecase.go:96-153` | the answer and the new tables are those of the specification, error by error |
| `NettingService.NettingUsecase.CreateOrFind` | `backend/internal/usecase/netting_usecase.go:142-150` | the insert in any later state of the table: stored, or the intent that won the race, or refused |
| `NettingService.NettingUsecase.FlushPending` | `backend/internal/usecase/netting_usecase.go:173-226` | nothing is done if and only if no unlocked intent is pending in the window; otherwise the new batch takes exactly those intents, and each outcome is given exactly for its cause: summary, upload, settlement, closing, success; with it the columns of the batch's row and of its intents, settled, failed or left open, while all other rows stay; invariant and batch states are kept |
| `NettingService.BatchSupported` | `backend/internal/repository/postgres/netting_repository.go:202-221` | stored intents are all in the one asset, so a flush never fails for it |
| `NettingService.SentIff` | `backend/internal/usecase/netting_usecase.go:203-208` | an instruction of the engine passes the gateway's checks, and nothing is sent if and only if every net position is zero |
| `NettingService.NettingUsecase.ReconcileStuckBatches` | `backend/internal/usecase/netting_usecase.go:76-94` | exactly the batches that are processing and were last updated before the cutoff are failed, with their open intents, skipping updates that do not go through; every other row stays as it was |
| `NettingService.ReconciledRows` | `backend/internal/usecase/netting_usecase.go:83-88` | a reconcile changes exactly the rows of the listed batches whose update goes through, and only their status and time |
| `NettingService.SubmitKeepsKeys` | `backend/internal/usecase/netting_usecase.go:96-153` | stored keys stay trimmed and distinct, and the intent that answers a submission carries its trimmed key |
| `NettingService.SubmitStoresIntent` | `backend/internal/usecase/netting_usecase.go:122-141` | a submission under a new key appends one pending intent, column by column: trimmed key, the agents of the two wallets, amount, time; and journals its accrual |
| `NettingService.SubmitRefusals` | `backend/internal/usecase/netting_usecase.go:96-120` | each refusal is given exactly for its reason, the first one that applies |
| `NettingService.ResubmitFindsIff` | `backend/internal/usecase/netting_usecase.go:101-107` | submitting again under a stored key never stores anything; it answers with the stored intent if and only if the key has no surrounding space |
| `NettingService.RacedInsertFindsIff` | `backend/internal/usecase/netting_usecase.go:142-150` | the same when another request wins between lookup and insert |
| `NettingService.PaddedResubmitRefused` | `backend/internal/usecase/netting_usecase.go:130` | a key with one leading space: the first submission is stored, the second is refused |
| `ProfitAndLoss.PnLRepository.TallyRows` | `backend/internal/repository/postgres/pnl_repository.go:137-171` | refuses exactly rows of another type; otherwise sections and totals of the grouped rows |
| `ProfitAndLoss.PnLRepository.FetchAccountSummaries` | `backend/internal/repository/postgres/pnl_repository.go:106-177` | section sums, totals and entry counts are those of the filtered ledger entries |
| `ProfitAndLoss.PnLRepository.FetchTransactions` | `backend/internal/repository/postgres/pnl_repository.go:289-412` | exactly the filtered entries, newest first |
| `ProfitAndLoss.PnLRepository.GetPnL` | `backend/internal/repository/postgres/pnl_repository.go:36-88` | a report whose sections are the grouped rows, whose totals are those of its own list and of its sections, whose entry counts add up to the list's length, and whose count is that of distinct journals |
| `ReportLines.ListInEveryRun` | `backend/internal/repository/postgres/pnl_repository.go:289-412` | in every run each line, with journal, account, side, signed amount and time, is listed as often as the agent's service accounts have it in the period, nothing else is listed, amounts are positive exactly for revenue credits and expense debits, and nothing comes after something older |
| `ReportLines.SectionsInEveryRun` | `backend/internal/repository/postgres/pnl_repository.go:106-177` | in every run each section is one line for the agent's service account, with its sum and number of entries in the period, or empty without entries |
| `ReportTotals.AllTimeInEveryRun` | `backend/internal/repository/postgres/pnl_repository.go:111-131` | in every run, for every agent, the all-time totals of a report are the cached balances of its two service accounts, which are its completed work orders and all its payment intents |
| `ProfitAndLoss.PeriodsAdd` | `backend/internal/repository/postgres/pnl_repository.go:128-129` | revenue, expense and net income of adjacent periods add up to the whole |
| `ReportTotals.AccountsInEveryRun` | `backend/internal/repository/postgres/bookkeeping.go:26-64` | in every run only registered agents have accounts, and the ledger is sound |
| `ReportTotals.NetIncomesCancelInEveryRun` | `backend/internal/repository/postgres/pnl_repository.go:106-177` | in every run, over any period, the net incomes of all registered agents sum to zero |
| `ProfitAndLoss.NetIncomeIsReported` | `backend/internal/repository/postgres/pnl_repository.go:36-88` | the net income of any report is the agent's fold of the ledger entries of the period, the quantity that cancels over all agents |
| `ReportCounts.CountIsLengthIff` | `backend/internal/repository/postgres/pnl_repository.go:179-196` | in every run, for every agent and period, the reported count is at most the length of the list, and equal to it if and only if no journal entry of the period is an accrual from the agent to itself or a release, or a release taken back, of an order it both created and provides |
| `ReportCounts.SelfOrderCountsOneListsTwo` | `backend/internal/usecase/work_order_usecase.go:54-135` | a run: an agent uploads a work order to itself, creates and releases the order on the chain; its report counts one transaction and lists two |

## Left out

- HTTP handlers, routing, response envelopes, configuration, database pools and logging: plumbing.
- Signature recovery, hashing, canonical JSON, address casing and ABI packing: wallets, hashes and parsed amounts are given values, and a root hash is an arbitrary function of its manifest.
- The SQL engine: isolation is modelled by atomic transactions, unique and check constraints by failing ones; the columns `failure_reason`, `description`, `storage_cid`, `manifest_tx_hash`, `settlement_tx_hash`, `spec_tx_hash`, `spec_version`, `window_start` and `window_end` carry no amounts and are not kept.
- Native balances and the mint buffer's parsing in the demo: a transaction of an agent may fail, for whatever reason.
- Timers, tickers, context time-outs and gas: a settle call may report failure although its transaction is mined later, which the protocol allows at every point.
- The settlement contract's `BatchSettled` event, which no other component reads; the escrow contract's events are modelled.
- OpenZeppelin internals: the token is modelled directly and the re-entrancy guard as atomicity.
- Field-presence validation of work-order specs, and the free-text parts of a spec: they only refuse requests.
- The report's audit batches, counterparties, references and links: lookups beside the amounts.
- Amount formatting of the demo, and the dashboard's decimal-string helpers (`web/app/dashboard/_components/data.ts:5-38`): digit arithmetic that no other component relies on.
- Storage of manifests and journal anchors: an upload succeeds or fails, and what it returns is a parameter.
- NettingService.NettingUsecase.FlushPending: the answers of database, storage, chain and clock are parameters, and one answer holds for both ways of closing the batch; the method runs with no transaction of another worker between claim and close, and `Protocol.ChainAgreesWithBooks` and `BatchStates.ThreeStates` cover those.
- WorkOrderService.WorkOrderService.UploadSpec: lookup and insert run with nothing in between; the race is covered by stating the insert, `WorkOrderService.WorkOrderService.CreateOrFind`, for every state of the table.
- NettingService.NettingUsecase.SubmitIntent: wallets and amount arrive parsed; the race between lookup and insert is covered by stating the insert for every state of the table.
- WorkOrders.WorkOrderUsecase.RecordEscrowEvent: resolve and apply run back to back in the method; steps of others in between are covered by `Backend.ApplyKeeps` and `Mirror.BackendRefinesChain`.
- ProfitAndLoss.PnLRepository.FetchTransactions: entries of the same time are not said to be ordered by journal id, account name and entry id; neither totals nor counts depend on it.
- Mirror.BackendRefinesChain: for new events at positions that never repeat, removed last in first out, one delivery after the other, and repeated deliveries of events whose order is open or that have nothing to bind; `Mirror.CloseMirroredIff`, `Mirror.ReincludedCloseIsLost`, `Mirror.RedeliveryMirroredIff` and `LateUpload.LateUploadBreaks` say what happens otherwise.
- BatchStates.ThreeStates: for processes that do not overlap; for overlapping ones only the exact conditions and the counterexample schedule hold.
- ProfitAndLoss.PnLRepository.GetPnL: the queries of one report read one snapshot.
- JournalKeys.KeysInjective: row ids are colon-free texts that tell rows apart, as UUIDs are.
- JournalKeys.EventIdsInjective: trimming knows the ASCII spaces, U+0085 and U+00A0, not every Unicode space.
