/** Posting journal entries: accounts, their cached balances, and the entries behind them. */
module Bookkeeping {
  import opened Wrappers
  import opened Sums
  import opened Identity
  import opened Schema

  /** One leg of a journal entry. */
  datatype Posting = Posting(agent: AgentId, name: AccountName, atype: AccountType, side: Side, amount: int)

  /** Assets and expenses grow by debits, every other type by credits. */
  function AccountBalanceDelta(atype: AccountType, side: Side, amount: int): int {
    var normalDebit := atype == Asset || atype == Expense;
    if normalDebit != side.Debit? then -amount else amount
  }

  function PostingKey(p: Posting): AccountKey { AccountKey(p.agent, p.name) }

  // ---- Posting, one leg at a time ----

  function Upserted(accounts: map<AccountKey, Account>, key: AccountKey, atype: AccountType): map<AccountKey, Account> {
    if key in accounts then accounts[key := accounts[key].(atype := atype)] else accounts[key := Account(atype, 0, 1)]
  }

  function WriteLeg(b: Books, journal: JournalKey, p: Posting, at: int): Books {
    var accounts := Upserted(b.accounts, PostingKey(p), p.atype);
    var a := accounts[PostingKey(p)];
    b.(accounts := accounts[PostingKey(p) := a.(balance := a.balance + AccountBalanceDelta(p.atype, p.side, p.amount), version := a.version + 1)],
       entries := b.entries + [LedgerEntry(PostingKey(p), journal, p.amount, p.side, at)])
  }

  /** The legs of an entry in order; a leg without a positive amount is skipped. */
  function WriteLegs(b: Books, journal: JournalKey, ps: seq<Posting>, at: int): Books {
    if ps == [] then b
    else
      var b' := WriteLegs(b, journal, ps[..|ps| - 1], at);
      if ps[|ps| - 1].amount <= 0 then b' else WriteLeg(b', journal, ps[|ps| - 1], at)
  }

  /** A journal entry with its legs; the key must be new. */
  function Record(b: Books, journal: JournalKey, row: JournalRow, ps: seq<Posting>): Option<Books> {
    if journal in b.journals then None
    else Some(WriteLegs(b.(journals := b.journals[journal := row]), journal, ps, row.createdAt))
  }

  method UpsertAccount(db: Database, key: AccountKey, atype: AccountType)
    modifies db`accounts
    ensures db.accounts == Upserted(old(db.accounts), key, atype)
  {
    if key in db.accounts {
      db.accounts := db.accounts[key := db.accounts[key].(atype := atype)];
    } else {
      db.accounts := db.accounts[key := Account(atype, 0, 1)];
    }
  }

  method WriteLedgerPosting(db: Database, key: AccountKey, journal: JournalKey, atype: AccountType, side: Side,
      amount: int, at: int)
    requires key in db.accounts
    modifies db`accounts, db`entries
    ensures db.entries == old(db.entries) + [LedgerEntry(key, journal, amount, side, at)]
    ensures db.accounts == old(db.accounts)[key := old(db.accounts)[key].(
              balance := old(db.accounts)[key].balance + AccountBalanceDelta(atype, side, amount),
              version := old(db.accounts)[key].version + 1)]
  {
    db.entries := db.entries + [LedgerEntry(key, journal, amount, side, at)];
    var account := db.accounts[key];
    var delta := AccountBalanceDelta(atype, side, amount);
    db.accounts := db.accounts[key := account.(balance := account.balance + delta, version := account.version + 1)];
  }

  /** Insert the journal row, then each leg. A taken key fails before anything is written. */
  method RecordJournal(db: Database, journal: JournalKey, row: JournalRow, ps: seq<Posting>) returns (ok: bool)
    modifies db`accounts, db`journals, db`entries
    ensures ok <==> Record(old(db.Ledger()), journal, row, ps).Some?
    ensures db.Ledger() == if ok then Record(old(db.Ledger()), journal, row, ps).value else old(db.Ledger())
  {
    if journal in db.journals {
      return false;
    }
    db.journals := db.journals[journal := row];
    ghost var before := db.Ledger();
    for i := 0 to |ps|
      invariant db.Ledger() == WriteLegs(before, journal, ps[..i], row.createdAt)
    {
      assert ps[..i + 1][..i] == ps[..i];
      if ps[i].amount > 0 {
        UpsertAccount(db, PostingKey(ps[i]), ps[i].atype);
        WriteLedgerPosting(db, PostingKey(ps[i]), journal, ps[i].atype, ps[i].side, ps[i].amount, row.createdAt);
      }
    }
    assert ps[..|ps|] == ps;
    return true;
  }

  // ---- What an entry does to a balance ----

  function BalanceOf(b: Books, key: AccountKey): int {
    if key in b.accounts then b.accounts[key].balance else 0
  }

  function PostingDelta(p: Posting): int {
    if p.amount <= 0 then 0 else AccountBalanceDelta(p.atype, p.side, p.amount)
  }

  /** The change that the legs make to one account. */
  function Effect(ps: seq<Posting>, key: AccountKey): int {
    Sum(ps, Keyed(PostingKey, PostingDelta, key))
  }

  lemma EffectSnoc(ps: seq<Posting>, p: Posting, key: AccountKey)
    ensures Effect(ps + [p], key) == Effect(ps, key) + if PostingKey(p) == key then PostingDelta(p) else 0
  {
    SumSnoc(ps, p, Keyed(PostingKey, PostingDelta, key));
    assert Keyed(PostingKey, PostingDelta, key)(p) == if PostingKey(p) == key then PostingDelta(p) else 0;
  }

  lemma EffectConcat(ps: seq<Posting>, qs: seq<Posting>, key: AccountKey)
    ensures Effect(ps + qs, key) == Effect(ps, key) + Effect(qs, key)
  {
    SumConcat(ps, qs, Keyed(PostingKey, PostingDelta, key));
  }

  lemma {:induction false} LegsMoveBalances(b: Books, journal: JournalKey, ps: seq<Posting>, at: int, key: AccountKey)
    ensures BalanceOf(WriteLegs(b, journal, ps, at), key) == BalanceOf(b, key) + Effect(ps, key)
    ensures WriteLegs(b, journal, ps, at).journals == b.journals
  {
    if ps != [] {
      var n := |ps| - 1;
      LegsMoveBalances(b, journal, ps[..n], at, key);
      EffectSnoc(ps[..n], ps[n], key);
      assert ps == ps[..n] + [ps[n]];
    }
  }

  lemma RecordMovesBalances(b: Books, journal: JournalKey, row: JournalRow, ps: seq<Posting>)
    requires journal !in b.journals
    ensures var b' := Record(b, journal, row, ps).value;
      && b'.journals == b.journals[journal := row]
      && forall key :: BalanceOf(b', key) == BalanceOf(b, key) + Effect(ps, key)
  {
    forall key
      ensures BalanceOf(Record(b, journal, row, ps).value, key) == BalanceOf(b, key) + Effect(ps, key)
    {
      LegsMoveBalances(b.(journals := b.journals[journal := row]), journal, ps, row.createdAt, key);
    }
    LegsMoveBalances(b.(journals := b.journals[journal := row]), journal, ps, row.createdAt, AccountKey(0, Cash));
  }

  lemma {:induction false} LegsAppend(b: Books, journal: JournalKey, ps: seq<Posting>, at: int)
    ensures b.entries <= WriteLegs(b, journal, ps, at).entries
    ensures WriteLegs(b, journal, ps, at).journals == b.journals
  {
    if ps != [] {
      LegsAppend(b, journal, ps[..|ps| - 1], at);
    }
  }

  lemma RecordAppends(b: Books, journal: JournalKey, row: JournalRow, ps: seq<Posting>)
    ensures Record(b, journal, row, ps).Some? ==>
      && b.entries <= Record(b, journal, row, ps).value.entries
      && Record(b, journal, row, ps).value.journals == b.journals[journal := row]
  {
    if journal !in b.journals {
      LegsAppend(b.(journals := b.journals[journal := row]), journal, ps, row.createdAt);
    }
  }

  // ---- The balance cache, and balanced journals ----

  /** Both flows post each account name under one type. */
  function TypeOf(name: AccountName): AccountType {
    match name
    case Cash => Asset
    case NettingPayable => Liability
    case NettingReceivable => Asset
    case ServiceExpense => Expense
    case ServiceRevenue => Revenue
    case EscrowLocked => Asset
    case EscrowPending => Liability
  }

  function EntryAccount(e: LedgerEntry): AccountKey { e.account }
  function EntryJournal(e: LedgerEntry): JournalKey { e.journal }
  function EntryDelta(e: LedgerEntry): int { AccountBalanceDelta(TypeOf(e.account.name), e.side, e.amount) }
  function EntryCount(e: LedgerEntry): int { 1 }
  function EntrySigned(e: LedgerEntry): int { if e.side.Debit? then e.amount else -e.amount }

  /** Revenue credited less expense debited by one entry: what profit and loss counts. */
  function EntryIncome(e: LedgerEntry): int {
    match TypeOf(e.account.name)
    case Revenue => EntryDelta(e)
    case Expense => -EntryDelta(e)
    case _ => 0
  }

  /** An open-ended start, or none; the end is exclusive. */
  datatype Period = Period(from: Option<int>, to: int) {
    predicate Contains(at: int) {
      (from.Some? ==> from.value <= at) && at < to
    }
  }

  function EntryIncomeIn(period: Period): LedgerEntry -> int {
    (e: LedgerEntry) => if period.Contains(e.createdAt) then EntryIncome(e) else 0
  }

  ghost predicate CacheAgrees(b: Books) {
    && (forall key :: key in b.accounts ==>
          && b.accounts[key].atype == TypeOf(key.name)
          && b.accounts[key].balance == Sum(b.entries, Keyed(EntryAccount, EntryDelta, key))
          && b.accounts[key].version == 1 + Sum(b.entries, Keyed(EntryAccount, EntryCount, key)))
    && (forall key :: key !in b.accounts ==>
          && Sum(b.entries, Keyed(EntryAccount, EntryDelta, key)) == 0
          && Sum(b.entries, Keyed(EntryAccount, EntryCount, key)) == 0)
  }

  ghost predicate EntriesInOrder(b: Books) {
    forall e :: e in b.entries ==>
      && e.amount > 0 && e.account in b.accounts
      && e.journal in b.journals && e.createdAt == b.journals[e.journal].createdAt
  }

  /** In every journal entry total debits equal total credits. */
  ghost predicate JournalsBalance(b: Books) {
    forall j :: Sum(b.entries, Keyed(EntryJournal, EntrySigned, j)) == 0
  }

  /** Over every period, all agents' revenue is all agents' expense. */
  ghost predicate IncomeBalances(b: Books) {
    forall period :: Sum(b.entries, EntryIncomeIn(period)) == 0
  }

  ghost predicate Sound(b: Books) {
    CacheAgrees(b) && EntriesInOrder(b) && JournalsBalance(b) && IncomeBalances(b)
  }

  // ---- Well-formed entries keep the books sound ----

  function PostingSigned(p: Posting): int {
    if p.amount <= 0 then 0 else if p.side.Debit? then p.amount else -p.amount
  }

  function PostingIncome(p: Posting): int {
    match p.atype
    case Revenue => PostingDelta(p)
    case Expense => -PostingDelta(p)
    case _ => 0
  }

  /** Legs under the types of their accounts, whose debits equal their credits and whose
      revenue equals their expense. */
  ghost predicate WellFormed(ps: seq<Posting>) {
    && (forall p :: p in ps ==> p.atype == TypeOf(p.name))
    && Sum(ps, PostingSigned) == 0
    && Sum(ps, PostingIncome) == 0
  }

  /** The ledger entries that the legs leave. */
  function EntriesOf(journal: JournalKey, ps: seq<Posting>, at: int): seq<LedgerEntry> {
    if ps == [] then []
    else
      var p := ps[|ps| - 1];
      EntriesOf(journal, ps[..|ps| - 1], at)
        + if p.amount <= 0 then [] else [LedgerEntry(PostingKey(p), journal, p.amount, p.side, at)]
  }

  lemma LegKeepsCache(b: Books, journal: JournalKey, p: Posting, at: int)
    requires CacheAgrees(b)
    requires p.atype == TypeOf(p.name)
    ensures CacheAgrees(WriteLeg(b, journal, p, at))
  {
    hide Sum;
    var e := LedgerEntry(PostingKey(p), journal, p.amount, p.side, at);
    forall key
      ensures Sum(b.entries + [e], Keyed(EntryAccount, EntryDelta, key)) ==
        Sum(b.entries, Keyed(EntryAccount, EntryDelta, key)) + if key == e.account then EntryDelta(e) else 0
      ensures Sum(b.entries + [e], Keyed(EntryAccount, EntryCount, key)) ==
        Sum(b.entries, Keyed(EntryAccount, EntryCount, key)) + if key == e.account then 1 else 0
    {
      SumSnoc(b.entries, e, Keyed(EntryAccount, EntryDelta, key));
      SumSnoc(b.entries, e, Keyed(EntryAccount, EntryCount, key));
      assert EntryAccount(e) == e.account && EntryCount(e) == 1;
    }
  }

  lemma {:induction false} LegsKeepCache(b: Books, journal: JournalKey, ps: seq<Posting>, at: int)
    requires CacheAgrees(b)
    requires forall p :: p in ps ==> p.atype == TypeOf(p.name)
    ensures CacheAgrees(WriteLegs(b, journal, ps, at))
    ensures WriteLegs(b, journal, ps, at).entries == b.entries + EntriesOf(journal, ps, at)
    ensures WriteLegs(b, journal, ps, at).journals == b.journals
    ensures b.accounts.Keys <= WriteLegs(b, journal, ps, at).accounts.Keys
    ensures forall e :: e in EntriesOf(journal, ps, at) ==>
      e.amount > 0 && e.journal == journal && e.createdAt == at && e.account in WriteLegs(b, journal, ps, at).accounts
  {
    hide CacheAgrees;
    if ps != [] {
      var n := |ps| - 1;
      assert ps[n] in ps && forall p :: p in ps[..n] ==> p in ps;
      LegsKeepCache(b, journal, ps[..n], at);
      if ps[n].amount > 0 {
        LegKeepsCache(WriteLegs(b, journal, ps[..n], at), journal, ps[n], at);
      }
    }
  }

  /** A ledger entry weighs what its leg does. */
  lemma EntryMirrorsLeg(journal: JournalKey, p: Posting, at: int, j: JournalKey, period: Period)
    requires p.atype == TypeOf(p.name) && p.amount > 0
    ensures var e := LedgerEntry(PostingKey(p), journal, p.amount, p.side, at);
      && Keyed(EntryJournal, EntrySigned, j)(e) == (if j == journal then PostingSigned(p) else 0)
      && EntryIncomeIn(period)(e) == (if period.Contains(at) then PostingIncome(p) else 0)
  {
    var e := LedgerEntry(PostingKey(p), journal, p.amount, p.side, at);
    assert EntryJournal(e) == journal && EntrySigned(e) == PostingSigned(p);
    assert EntryIncome(e) == PostingIncome(p);
  }

  lemma SkippedLeg(p: Posting)
    requires p.amount <= 0
    ensures PostingSigned(p) == 0 && PostingIncome(p) == 0
  {
  }

  ghost predicate BlockWeighs(journal: JournalKey, ps: seq<Posting>, at: int, j: JournalKey, period: Period) {
    && Sum(EntriesOf(journal, ps, at), Keyed(EntryJournal, EntrySigned, j)) == (if j == journal then Sum(ps, PostingSigned) else 0)
    && Sum(EntriesOf(journal, ps, at), EntryIncomeIn(period)) == (if period.Contains(at) then Sum(ps, PostingIncome) else 0)
  }

  lemma EntriesSnoc(journal: JournalKey, ps: seq<Posting>, p: Posting, at: int)
    ensures EntriesOf(journal, ps + [p], at) ==
      EntriesOf(journal, ps, at) + if p.amount <= 0 then [] else [LedgerEntry(PostingKey(p), journal, p.amount, p.side, at)]
  {
    assert (ps + [p])[..|ps|] == ps;
  }

  lemma BlockSnoc(journal: JournalKey, ps: seq<Posting>, p: Posting, at: int, j: JournalKey, period: Period)
    requires p.atype == TypeOf(p.name)
    requires BlockWeighs(journal, ps, at, j, period)
    ensures BlockWeighs(journal, ps + [p], at, j, period)
  {
    hide EntriesOf, PostingSigned, PostingIncome, TypeOf, Keyed, Sum;
    var block := EntriesOf(journal, ps, at);
    EntriesSnoc(journal, ps, p, at);
    SumSnoc(ps, p, PostingSigned);
    SumSnoc(ps, p, PostingIncome);
    if p.amount > 0 {
      var e := LedgerEntry(PostingKey(p), journal, p.amount, p.side, at);
      SumSnoc(block, e, Keyed(EntryJournal, EntrySigned, j));
      SumSnoc(block, e, EntryIncomeIn(period));
      EntryMirrorsLeg(journal, p, at, j, period);
    } else {
      assert block + [] == block;
      SkippedLeg(p);
    }
  }

  /** The block of one journal, seen through the weights of the invariants. */
  lemma {:induction false} BlockSums(journal: JournalKey, ps: seq<Posting>, at: int, j: JournalKey, period: Period)
    requires forall p :: p in ps ==> p.atype == TypeOf(p.name)
    ensures BlockWeighs(journal, ps, at, j, period)
  {
    if ps != [] {
      var n := |ps| - 1;
      assert ps[n] in ps && forall q :: q in ps[..n] ==> q in ps;
      assert ps == ps[..n] + [ps[n]];
      hide BlockWeighs, TypeOf;
      BlockSums(journal, ps[..n], at, j, period);
      BlockSnoc(journal, ps[..n], ps[n], at, j, period);
    }
  }

  lemma RecordKeepsSound(b: Books, journal: JournalKey, row: JournalRow, ps: seq<Posting>)
    requires Sound(b)
    requires journal !in b.journals
    requires WellFormed(ps)
    ensures Sound(Record(b, journal, row, ps).value)
  {
    hide Sum;
    var b0 := b.(journals := b.journals[journal := row]);
    var b' := Record(b, journal, row, ps).value;
    var block := EntriesOf(journal, ps, row.createdAt);
    LegsKeepCache(b0, journal, ps, row.createdAt);
    assert EntriesInOrder(b') by {
      assert forall e :: e in b'.entries ==> e in b.entries || e in block;
    }
    forall j
      ensures Sum(b'.entries, Keyed(EntryJournal, EntrySigned, j)) == 0
    {
      SumConcat(b.entries, block, Keyed(EntryJournal, EntrySigned, j));
      BlockSums(journal, ps, row.createdAt, j, Period(None, 0));
    }
    forall period
      ensures Sum(b'.entries, EntryIncomeIn(period)) == 0
    {
      SumConcat(b.entries, block, EntryIncomeIn(period));
      BlockSums(journal, ps, row.createdAt, journal, period);
    }
  }
}
