/**
 The database: one table a sequence, where a row's id is its position, or a map from the
 columns that the schema declares unique. A transaction is one step from store to store.
 */
module Schema {
  import opened Wrappers
  import opened Identity

  // ---- Double-entry ledger ----

  datatype AccountType = Asset | Liability | Revenue | Expense | Equity

  datatype Side = Debit | Credit

  datatype AccountName =
    | Cash
    | NettingPayable
    | NettingReceivable
    | ServiceExpense
    | ServiceRevenue
    | EscrowLocked
    | EscrowPending

  datatype AccountKey = AccountKey(agent: AgentId, name: AccountName)

  datatype Account = Account(atype: AccountType, balance: int, version: int)

  datatype EscrowAction =
    | RecordCreated
    | RollbackCreated
    | RecordReleased
    | RollbackReleased
    | RecordRefunded
    | RollbackRefunded

  /** The unique idempotency key of a journal entry, by its parts; module JournalKeys shows
      that the rendered keys collide only when the parts do. */
  datatype JournalKey =
    | AccrualKey(intent: nat)
    | SettlementKey(batch: nat)
    | EscrowKey(workOrder: nat, action: EscrowAction, eventId: string)

  datatype JournalRow = JournalRow(workOrder: Option<nat>, intent: Option<nat>, batch: Option<nat>, createdAt: int)

  datatype LedgerEntry = LedgerEntry(account: AccountKey, journal: JournalKey, amount: int, side: Side, createdAt: int)

  datatype Books = Books(
    accounts: map<AccountKey, Account>,
    journals: map<JournalKey, JournalRow>,
    entries: seq<LedgerEntry>)

  // ---- Netting ----

  datatype IntentStatus = IntentPending | IntentBatched | IntentSettled | IntentFailed

  datatype IntentRow = IntentRow(
    idempotencyKey: string,
    payer: AgentId,
    payee: AgentId,
    amount: int,
    status: IntentStatus,
    batch: Option<nat>,
    createdAt: int,
    updatedAt: int,
    settledAt: Option<int>)

  datatype BatchStatus = BatchProcessing | BatchSettled | BatchFailed

  datatype BatchRow = BatchRow(
    status: BatchStatus,
    hash: Option<nat>,
    grossIntentCount: nat,
    transferCount: nat,
    grossAmount: int,
    netAmount: int,
    createdAt: int,
    updatedAt: int)

  // ---- Escrow mirror ----

  datatype OrderStatus = OrderDraft | OrderFunded | OrderCompleted | OrderRefunded

  datatype WorkOrderRow = WorkOrderRow(
    idempotencyKey: string,
    creator: AgentId,
    provider: AgentId,
    amount: int,
    status: OrderStatus,
    specHash: nat,
    deliverableCid: Option<nat>,
    deliveredAt: Option<int>,
    completedAt: Option<int>,
    refundedAt: Option<int>,
    onchainOrderId: Option<nat>,
    orderTx: Option<string>,
    releaseTx: Option<string>,
    refundTx: Option<string>,
    updatedAt: int)

  datatype Store = Store(intents: seq<IntentRow>, batches: seq<BatchRow>, orders: seq<WorkOrderRow>, books: Books)

  function EmptyStore(): Store {
    Store([], [], [], Books(map[], map[], []))
  }

  /** The live tables, which transactions update in place. */
  class Database {
    var intents: seq<IntentRow>
    var batches: seq<BatchRow>
    var orders: seq<WorkOrderRow>
    var accounts: map<AccountKey, Account>
    var journals: map<JournalKey, JournalRow>
    var entries: seq<LedgerEntry>

    constructor ()
      ensures View() == EmptyStore()
    {
      intents, batches, orders := [], [], [];
      accounts, journals, entries := map[], map[], [];
    }

    ghost function Ledger(): Books
      reads this
    {
      Books(accounts, journals, entries)
    }

    ghost function View(): Store
      reads this
    {
      Store(intents, batches, orders, Ledger())
    }
  }
}
