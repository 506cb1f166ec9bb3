/**
 The batch protocol across database and chain. Any number of workers claim, publish,
 settle and close batches; each can fail or crash between any two steps, and each can
 reconcile what others left behind. Every action below is atomic.
 */
module Protocol {
  import opened Wrappers
  import opened Sums
  import opened Identity
  import opened Schema
  import opened Bookkeeping
  import NR = NettingRepository
  import WO = WorkOrders
  import opened Netting
  import opened NettingTheory
  import opened Erc20
  import opened NettingSettlement
  import opened SettlementGateway
  import opened SettlementBooks
  import Backend

  /** The agents, the contract and its settler, and the root hash of a manifest. */
  datatype Config = Config(dir: map<AgentId, Address>, self: Address, settler: Address, digest: Manifest -> nat)

  /** Where a worker is. A crash takes it back to Idle. */
  datatype Phase =
    | Idle
    | Claimed(batch: nat, intents: seq<PaymentIntent>)
    | Published(summary: Summary)
    | Waiting(summary: Summary)
    | Confirmed(summary: Summary)
    | Failing(batch: nat)
    | Reconciling(remaining: seq<nat>, cutoff: int, clean: bool)

  /** A successful settleBatch call, and the token around it. */
  datatype Execution = Execution(summary: Summary, before: Token, after: Token)

  datatype State = State(
    sys: Backend.System,
    workers: map<nat, Phase>,
    published: map<nat, Summary>,
    broadcast: set<Summary>,
    settled: set<nat>,
    token: Token,
    executed: seq<Execution>)

  datatype Action =
    | Claim(worker: nat, ids: set<nat>, windowEnd: int, at: int, intents: seq<PaymentIntent>)
    | Publish(worker: nat, summary: Summary)
    | Submit(worker: nat)
    | Mine(summary: Summary)
    | Confirm(worker: nat)
    | GiveUp(worker: nat)
    | MarkSettled(worker: nat, order: seq<AgentId>)
    | MarkFailed(worker: nat, at: int)
    | StartReconcile(worker: nat, cutoff: int, found: seq<nat>)
    | ReconcileNext(worker: nat, at: int, ok: bool)
    | FinishReconcile(worker: nat)
    | Crash(worker: nat)
    | ChangeToken(token: Token)
    | Other(step: Backend.Step)

  function PhaseOf(s: State, w: nat): Phase {
    if w in s.workers then s.workers[w] else Idle
  }

  function BatchOf(m: Summary): nat { m.settlement.batchId }

  ghost predicate Executed(s: State, m: Summary) {
    exists i :: 0 <= i < |s.executed| && s.executed[i].summary == m
  }

  /** What the code allows in each phase. A call that was broadcast can be mined at any
      later time, even when its worker has given up; a worker can give up at any time. */
  ghost predicate Enabled(c: Config, s: State, act: Action) {
    var t := s.sys.store;
    match act
    case Claim(w, ids, windowEnd, at, xs) =>
      && PhaseOf(s, w).Idle?
      && NR.Claim(t, ids, windowEnd, at).Some?
      && DistinctIds(xs) && (forall p :: p in xs <==> p.id in ids && p.id < |t.intents| && p == NR.Join(c.dir, t.intents, p.id))
    case Publish(w, m) =>
      && PhaseOf(s, w).Claimed?
      && IsSummary(PhaseOf(s, w).batch, PhaseOf(s, w).intents, m.settlement.settledAt, m)
    case Submit(w) =>
      && PhaseOf(s, w).Published?
      && var st := PhaseOf(s, w).summary.settlement;
         st.netAmount != 0 && Payable(st) && st.debtors != [] && st.creditors != []
    case Mine(m) => m in s.broadcast && Payable(m.settlement)
    case Confirm(w) =>
      || (PhaseOf(s, w).Published? && PhaseOf(s, w).summary.settlement.netAmount == 0)
      || (PhaseOf(s, w).Waiting? && Executed(s, PhaseOf(s, w).summary))
    case GiveUp(w) => PhaseOf(s, w).Claimed? || PhaseOf(s, w).Published? || PhaseOf(s, w).Waiting?
    case MarkSettled(w, order) =>
      PhaseOf(s, w).Confirmed? && NR.Enumerates(order, NR.BatchAgents(t.intents, BatchOf(PhaseOf(s, w).summary)))
    case MarkFailed(w, _) => PhaseOf(s, w).Failing?
    case StartReconcile(w, cutoff, found) =>
      && PhaseOf(s, w).Idle?
      && Distinct(found)
      && (forall b: nat :: b in found <==> b < |t.batches| && NR.IsStuck(t.batches[b], cutoff))
    case ReconcileNext(w, _, _) => PhaseOf(s, w).Reconciling? && PhaseOf(s, w).remaining != []
    case FinishReconcile(w) => PhaseOf(s, w).Reconciling? && PhaseOf(s, w).remaining == []
    case Crash(_) => true
    case ChangeToken(token) => TokenSane(token, c.self)
    case Other(step) => !step.ClaimStep? && !step.MarkSettledStep? && !step.MarkFailedStep? && Backend.Enabled(s.sys, step)
  }

  /** The database transaction that an action commits, if any. */
  function Transaction(c: Config, s: State, act: Action): Option<Backend.Step> {
    match act
    case Claim(_, ids, windowEnd, at, _) => Some(Backend.ClaimStep(ids, windowEnd, at))
    case MarkSettled(w, order) =>
      if PhaseOf(s, w).Confirmed? then
        var m := PhaseOf(s, w).summary;
        Some(Backend.MarkSettledStep(c.digest(m.manifest), m.settlement, order))
      else None
    case MarkFailed(w, at) => if PhaseOf(s, w).Failing? then Some(Backend.MarkFailedStep(PhaseOf(s, w).batch, at)) else None
    case ReconcileNext(w, at, ok) =>
      if ok && PhaseOf(s, w).Reconciling? && PhaseOf(s, w).remaining != [] then Some(Backend.MarkFailedStep(PhaseOf(s, w).remaining[0], at)) else None
    case Other(step) => Some(step)
    case _ => None
  }

  /** The worker's next phase. */
  function NextPhase(s: State, act: Action, p: Phase): Phase {
    match act
    case Claim(_, _, _, _, xs) => Claimed(|s.sys.store.batches|, xs)
    case Publish(_, m) => Published(m)
    case Submit(_) => if p.Published? then Waiting(p.summary) else p
    case Confirm(_) => if p.Published? || p.Waiting? then Confirmed(p.summary) else p
    case GiveUp(_) =>
      (match p
       case Claimed(b, _) => Failing(b)
       case Published(m) => Failing(BatchOf(m))
       case Waiting(m) => Failing(BatchOf(m))
       case _ => p)
    case StartReconcile(_, cutoff, found) => Reconciling(found, cutoff, true)
    case ReconcileNext(_, _, ok) => if p.Reconciling? && p.remaining != [] then Reconciling(p.remaining[1..], p.cutoff, p.clean && ok) else p
    case _ => Idle
  }

  predicate HasWorker(act: Action) {
    !act.Mine? && !act.ChangeToken? && !act.Other?
  }

  function NextSystem(c: Config, s: State, act: Action): Backend.System {
    match Transaction(c, s, act)
    case None => s.sys
    case Some(step) => Backend.After(c.dir, s.sys, step)
  }

  function NextWorkers(s: State, act: Action): map<nat, Phase> {
    if HasWorker(act) then s.workers[act.worker := NextPhase(s, act, PhaseOf(s, act.worker))] else s.workers
  }

  function NextPublished(s: State, act: Action): map<nat, Summary> {
    if act.Publish? then s.published[BatchOf(act.summary) := act.summary] else s.published
  }

  function NextBroadcast(s: State, act: Action): set<Summary> {
    if act.Submit? && PhaseOf(s, act.worker).Published? then s.broadcast + {PhaseOf(s, act.worker).summary} else s.broadcast
  }

  /** A mined call takes effect completely or not at all. */
  ghost function Mined(c: Config, s: State, m: Summary): State {
    if !Payable(m.settlement) then s
    else
      var hash := c.digest(m.manifest);
      match Settle(c.self, c.settler, s.settled, s.token, CallFor(c.settler, hash, m.settlement))
      case Failure(_) => s
      case Success(token) =>
        s.(settled := s.settled + {hash}, token := token, executed := s.executed + [Execution(m, s.token, token)])
  }

  ghost function After(c: Config, s: State, act: Action): State {
    if act.Mine? then Mined(c, s, act.summary)
    else
      State(NextSystem(c, s, act), NextWorkers(s, act), NextPublished(s, act), NextBroadcast(s, act), s.settled,
            if act.ChangeToken? then act.token else s.token, s.executed)
  }

  // ---- The invariant ----

  function Intents(c: Config, s: State, b: nat): seq<PaymentIntent> {
    NR.BatchIntents(c.dir, s.sys.store.intents, b)
  }

  ghost predicate Known(s: State, m: Summary) {
    BatchOf(m) in s.published && s.published[BatchOf(m)] == m
  }

  ghost predicate ExecutedBatch(s: State, b: nat) {
    exists i :: 0 <= i < |s.executed| && BatchOf(s.executed[i].summary) == b
  }

  ghost predicate ZeroNet(xs: seq<PaymentIntent>) {
    forall a :: Net(xs, a) == 0
  }

  ghost predicate Balanced(c: Config, s: State, b: nat) {
    ExecutedBatch(s, b) || ZeroNet(Intents(c, s, b))
  }

  /** The manifest of a batch nets exactly the batch's intents. */
  ghost predicate PublishedOk(c: Config, s: State) {
    forall b :: b in s.published ==>
      b < |s.sys.store.batches| && IsSummary(b, Intents(c, s, b), s.published[b].settlement.settledAt, s.published[b])
  }

  ghost predicate PhaseOk(c: Config, s: State, p: Phase) {
    match p
    case Claimed(b, xs) =>
      b < |s.sys.store.batches| && b !in s.published && multiset(xs) == multiset(Intents(c, s, b))
    case Published(m) => Known(s, m)
    case Waiting(m) => Known(s, m)
    case Confirmed(m) => Known(s, m) && Balanced(c, s, BatchOf(m))
    case Failing(b) => b < |s.sys.store.batches|
    case _ => true
  }

  ghost predicate WorkersOk(c: Config, s: State) {
    && (forall w :: w in s.workers ==> PhaseOk(c, s, s.workers[w]))
    && (forall v, w :: v in s.workers && w in s.workers && v != w && s.workers[v].Claimed? && s.workers[w].Claimed? ==>
          s.workers[v].batch != s.workers[w].batch)
  }

  ghost predicate MovesNet(c: Config, s: State, e: Execution) {
    forall a :: a in c.dir ==> e.after.BalanceOf(c.dir[a]) - e.before.BalanceOf(c.dir[a]) == Net(Intents(c, s, BatchOf(e.summary)), a)
  }

  /** Executed batches are distinct, and each moved its net positions. */
  ghost predicate ChainOk(c: Config, s: State) {
    && TokenSane(s.token, c.self)
    && (forall m :: m in s.broadcast ==> Known(s, m) && m.settlement.netAmount != 0)
    && (forall i :: 0 <= i < |s.executed| ==>
          && Known(s, s.executed[i].summary)
          && c.digest(s.executed[i].summary.manifest) in s.settled
          && MovesNet(c, s, s.executed[i]))
    && (forall i, j :: 0 <= i < j < |s.executed| ==> BatchOf(s.executed[i].summary) != BatchOf(s.executed[j].summary))
  }

  /** A journaled batch was executed on the chain or had nothing to move. */
  ghost predicate JournalsOk(c: Config, s: State) {
    forall b: nat :: SettlementKey(b) in s.sys.store.books.journals ==> Balanced(c, s, b)
  }

  /** Only journaled batches, and their intents, are ever marked settled. */
  ghost predicate SettledOk(t: Store) {
    && (forall b :: 0 <= b < |t.batches| && t.batches[b].status == BatchSettled ==> SettlementKey(b) in t.books.journals)
    && (forall i :: 0 <= i < |t.intents| && t.intents[i].status == IntentSettled ==> Backend.Journaled(t.books.journals, t.intents[i]))
  }

  ghost predicate Inv(c: Config, s: State) {
    && Backend.Inv(c.dir, s.sys)
    && PublishedOk(c, s) && WorkersOk(c, s) && ChainOk(c, s) && JournalsOk(c, s) && SettledOk(s.sys.store)
  }

  // ---- Stored batches stay as they are ----

  /** No transaction adds an intent to a batch that already exists, or takes one away. */
  ghost predicate BatchesKept(t: Store, t': Store) {
    && |t.batches| <= |t'.batches| && |t.intents| <= |t'.intents|
    && (forall i :: 0 <= i < |t.intents| ==>
          && t'.intents[i].payer == t.intents[i].payer && t'.intents[i].payee == t.intents[i].payee
          && t'.intents[i].amount == t.intents[i].amount
          && (t.intents[i].batch.Some? ==> t'.intents[i].batch == t.intents[i].batch)
          && (t.intents[i].batch.None? && t'.intents[i].batch.Some? ==> t'.intents[i].batch.value >= |t.batches|))
    && (forall i :: |t.intents| <= i < |t'.intents| ==> t'.intents[i].batch.None?)
  }

  lemma StepKeepsBatches(dir: map<AgentId, Address>, s: Backend.System, step: Backend.Step)
    requires Backend.IntentsOk(dir, s.store)
    ensures BatchesKept(s.store, Backend.After(dir, s, step).store)
  {
    hide Record, BalanceOf;
  }

  lemma {:induction false} IntentsPrefix(dir: map<AgentId, Address>, rows: seq<IntentRow>, n: nat, b: nat)
    requires n <= |rows|
    requires forall i :: n <= i < |rows| ==> rows[i].batch != Some(b)
    ensures NR.BatchIntents(dir, rows, b) == NR.BatchIntents(dir, rows[..n], b)
  {
    if n < |rows| {
      IntentsPrefix(dir, rows[..|rows| - 1], n, b);
      assert rows[..|rows| - 1][..n] == rows[..n];
    } else {
      assert rows[..n] == rows;
    }
  }

  lemma {:induction false} IntentsAgree(dir: map<AgentId, Address>, rows: seq<IntentRow>, rows': seq<IntentRow>, b: nat)
    requires |rows| == |rows'|
    requires forall i :: 0 <= i < |rows| ==>
      && rows'[i].payer == rows[i].payer && rows'[i].payee == rows[i].payee && rows'[i].amount == rows[i].amount
      && (rows'[i].batch == Some(b) <==> rows[i].batch == Some(b))
    ensures NR.BatchIntents(dir, rows', b) == NR.BatchIntents(dir, rows, b)
  {
    if rows != [] {
      var n := |rows| - 1;
      IntentsAgree(dir, rows[..n], rows'[..n], b);
    }
  }

  lemma BatchStays(dir: map<AgentId, Address>, t: Store, t': Store, b: nat)
    requires BatchesKept(t, t') && b < |t.batches|
    ensures NR.BatchIntents(dir, t'.intents, b) == NR.BatchIntents(dir, t.intents, b)
  {
    IntentsPrefix(dir, t'.intents, |t.intents|, b);
    IntentsAgree(dir, t.intents, t'.intents[..|t.intents|], b);
  }

  // ---- What the transactions do to journals and statuses ----

  lemma StepJournals(dir: map<AgentId, Address>, s: Backend.System, step: Backend.Step, b: nat)
    requires SettlementKey(b) in Backend.After(dir, s, step).store.books.journals
    ensures SettlementKey(b) in s.store.books.journals || (step.MarkSettledStep? && b == step.settlement.batchId)
  {
    var t := s.store;
    match step
    case CreateIntentStep(_, payer, payee, amount, at) =>
      RecordAppends(t.books, AccrualKey(|t.intents|), JournalRow(None, Some(|t.intents|), None, at),
          NR.AccrualPostings(payer, payee, amount));
    case MarkSettledStep(_, st, order) =>
      RecordAppends(t.books, SettlementKey(st.batchId), JournalRow(None, None, Some(st.batchId), st.settledAt),
                    NR.SettlementPostings(NR.Closed(t.intents, st.batchId, IntentSettled, st.settledAt), st.batchId,
                        order));
    case ApplyStep(p) =>
      RecordAppends(t.books, WO.KeyOf(p), JournalRow(Some(p.workOrder), None, None, p.at),
                    WO.EscrowPostings(p.action, p.payer, p.payee, p.amount));
    case _ =>
  }

  /** Every other transaction marks nothing settled. */
  lemma NothingSettled(dir: map<AgentId, Address>, s: Backend.System, step: Backend.Step)
    requires !step.MarkSettledStep?
    ensures var t, t' := s.store, Backend.After(dir, s, step).store;
      && (forall b :: 0 <= b < |t'.batches| && t'.batches[b].status == BatchSettled ==> b < |t.batches| && t'.batches[b] == t.batches[b])
      && (forall i :: 0 <= i < |t'.intents| && t'.intents[i].status == IntentSettled ==> i < |t.intents| && t.intents[i].status == IntentSettled)
  {
    hide Record, WO.EscrowPostings, NR.AccrualPostings;
  }

  lemma MarkSettledKeepsSettled(dir: map<AgentId, Address>, t: Store, hash: nat, st: Settlement, order: seq<AgentId>)
    requires Backend.IntentsOk(dir, t) && SettledOk(t)
    requires NR.MarkSettled(t, hash, st, order).Some?
    ensures SettledOk(NR.MarkSettled(t, hash, st, order).value)
  {
    Backend.MarkSettledTables(dir, t, hash, st, order);
    hide Record, NR.SettlementPostings, Backend.IntentsOk;
  }

  lemma StepKeepsSettled(dir: map<AgentId, Address>, s: Backend.System, step: Backend.Step)
    requires Backend.IntentsOk(dir, s.store)
    requires SettledOk(s.store)
    ensures SettledOk(Backend.After(dir, s, step).store)
  {
    if step.MarkSettledStep? {
      hide SettledOk;
      if NR.MarkSettled(s.store, step.hash, step.settlement, step.order).Some? {
        MarkSettledKeepsSettled(dir, s.store, step.hash, step.settlement, step.order);
      }
    } else {
      NothingSettled(dir, s, step);
      Backend.StepPersists(dir, s, step);
      hide Backend.After;
    }
  }

  // ---- Every action keeps the invariant ----

  /** Batches keep their intents, manifests are never replaced, executions are never undone. */
  ghost predicate Grows(s: State, s': State) {
    && BatchesKept(s.sys.store, s'.sys.store)
    && (forall b :: b in s.published ==> b in s'.published && s'.published[b] == s.published[b])
    && s.executed <= s'.executed
  }

  lemma BatchKept(c: Config, s: State, s': State, b: nat)
    requires Grows(s, s') && b < |s.sys.store.batches|
    ensures Intents(c, s', b) == Intents(c, s, b)
    ensures Balanced(c, s, b) ==> Balanced(c, s', b)
  {
    BatchStays(c.dir, s.sys.store, s'.sys.store, b);
    if ExecutedBatch(s, b) {
      var i :| 0 <= i < |s.executed| && BatchOf(s.executed[i].summary) == b;
      assert s'.executed[i] == s.executed[i];
    }
  }

  lemma StoreAfter(c: Config, s: State, act: Action)
    requires Inv(c, s) && Enabled(c, s, act)
    ensures var t, t' := s.sys.store, After(c, s, act).sys.store;
      && Backend.Inv(c.dir, After(c, s, act).sys)
      && BatchesKept(t, t') && SettledOk(t')
      && (forall b: nat :: SettlementKey(b) in t'.books.journals ==>
            SettlementKey(b) in t.books.journals || (act.MarkSettled? && b == BatchOf(PhaseOf(s, act.worker).summary)))
  {
    var step := Transaction(c, s, act);
    if step.Some? {
      TransactionEnabled(c, s, act);
      SystemAfter(c, s, act);
      hide After, Enabled, Transaction, Backend.StoreInv, SettledOk, Backend.After, PublishedOk, ChainOk, JournalsOk,
          WorkersOk, BatchesKept;
      Backend.InvIntents(c.dir, s.sys.store);
      Backend.StepKeepsInv(c.dir, s.sys, step.value);
      StepKeepsBatches(c.dir, s.sys, step.value);
      StepKeepsSettled(c.dir, s.sys, step.value);
      forall b: nat | SettlementKey(b) in After(c, s, act).sys.store.books.journals
        ensures SettlementKey(b) in s.sys.store.books.journals || (act.MarkSettled? && b == BatchOf(PhaseOf(s, act.worker).summary))
      {
        StepJournals(c.dir, s.sys, step.value, b);
      }
    } else {
      SystemAfter(c, s, act);
      hide After, Enabled, Transaction, Backend.StoreInv, PublishedOk, ChainOk, JournalsOk, WorkersOk, SettledOk;
    }
  }

  lemma SystemAfter(c: Config, s: State, act: Action)
    ensures After(c, s, act).sys == if act.Mine? then s.sys else NextSystem(c, s, act)
  {
    hide NextSystem, Settle;
  }

  lemma TransactionEnabled(c: Config, s: State, act: Action)
    requires Enabled(c, s, act) && Transaction(c, s, act).Some?
    ensures !act.Mine?
    ensures var step := Transaction(c, s, act).value;
      Backend.Enabled(s.sys, step)
      && (step.MarkSettledStep? ==> act.MarkSettled? && BatchOf(PhaseOf(s, act.worker).summary) == step.settlement.batchId)
  {
  }

  lemma ActionGrows(c: Config, s: State, act: Action)
    requires Inv(c, s) && Enabled(c, s, act)
    ensures Grows(s, After(c, s, act))
  {
    hide *;
    StoreAfter(c, s, act);
    if act.Publish? {
      PublishedFromClaim(c, s, act);
    }
    ChainGrows(c, s, act);
    GrowsIntro(s, After(c, s, act));
  }

  lemma GrowsIntro(s: State, s': State)
    requires BatchesKept(s.sys.store, s'.sys.store)
    requires forall b :: b in s.published ==> b in s'.published && s'.published[b] == s.published[b]
    requires s.executed <= s'.executed
    ensures Grows(s, s')
  {
    hide BatchesKept;
  }

  lemma ChainGrows(c: Config, s: State, act: Action)
    requires act.Publish? ==> BatchOf(act.summary) !in s.published
    ensures var s' := After(c, s, act);
      && (forall b :: b in s.published ==> b in s'.published && s'.published[b] == s.published[b])
      && s.executed <= s'.executed
  {
    hide NextSystem, NextWorkers, NextBroadcast, Settle;
  }

  /** A manifest computed from the claim is a manifest of the stored batch. */
  lemma PublishedFromClaim(c: Config, s: State, act: Action)
    requires Inv(c, s) && Enabled(c, s, act) && act.Publish?
    ensures var p := PhaseOf(s, act.worker);
      p.batch !in s.published && p.batch < |s.sys.store.batches| && BatchOf(act.summary) == p.batch
      && IsSummary(p.batch, Intents(c, s, p.batch), act.summary.settlement.settledAt, act.summary)
  {
    var p := PhaseOf(s, act.worker);
    assert PhaseOk(c, s, p);
    Backend.InvIntents(c.dir, s.sys.store);
    BatchConsistent(c.dir, s.sys.store.intents, p.batch);
    assert forall i :: i in p.intents ==> i in multiset(p.intents);
    SummaryPermuted(c.dir, p.batch, act.summary.settlement.settledAt, p.intents, Intents(c, s, p.batch), act.summary);
  }

  lemma KeepsPublished(c: Config, s: State, act: Action)
    requires Inv(c, s) && Enabled(c, s, act)
    ensures PublishedOk(c, After(c, s, act))
  {
    ActionGrows(c, s, act);
    PublishedAfter(c, s, act);
    if act.Publish? {
      PublishedFromClaim(c, s, act);
    }
    hide After, Enabled, Backend.Inv, WorkersOk, ChainOk, JournalsOk, SettledOk, Grows, IsSummary, Intents;
    var s' := After(c, s, act);
    forall b | b in s'.published
      ensures b < |s'.sys.store.batches| && IsSummary(b, Intents(c, s', b), s'.published[b].settlement.settledAt, s'.published[b])
    {
      PublishedBatchStays(c, s, s', b, s'.published[b]);
    }
  }

  lemma PublishedAfter(c: Config, s: State, act: Action)
    ensures After(c, s, act).published == NextPublished(s, act)
  {
    hide NextSystem, NextWorkers, NextBroadcast, Settle;
  }

  lemma PublishedBatchStays(c: Config, s: State, s': State, b: nat, m: Summary)
    requires Grows(s, s') && b < |s.sys.store.batches|
    requires IsSummary(b, Intents(c, s, b), m.settlement.settledAt, m)
    ensures b < |s'.sys.store.batches| && IsSummary(b, Intents(c, s', b), m.settlement.settledAt, m)
  {
    BatchKept(c, s, s', b);
    hide IsSummary, Intents;
  }

  lemma PhaseStays(c: Config, s: State, s': State, p: Phase)
    requires Inv(c, s) && Grows(s, s') && PhaseOk(c, s, p)
    requires p.Claimed? ==> p.batch !in s'.published
    ensures PhaseOk(c, s', p)
  {
    hide Backend.Inv, SettledOk, WorkersOk, ChainOk, JournalsOk, IsSummary, Intents, Balanced;
    match p
    case Claimed(b, _) => BatchKept(c, s, s', b);
    case Confirmed(m) => BatchKept(c, s, s', BatchOf(m));
    case _ =>
  }

  /** A call that has taken effect, or was skipped because there was nothing to move. */
  lemma ConfirmedIsBalanced(c: Config, s: State, act: Action)
    requires Directory(c.dir) && Inv(c, s) && Enabled(c, s, act) && act.Confirm?
    ensures Balanced(c, s, BatchOf(PhaseOf(s, act.worker).summary))
  {
    var m := PhaseOf(s, act.worker).summary;
    var b := BatchOf(m);
    assert PhaseOk(c, s, PhaseOf(s, act.worker));
    if PhaseOf(s, act.worker).Published? {
      Backend.InvIntents(c.dir, s.sys.store);
      BatchConsistent(c.dir, s.sys.store.intents, b);
      InstructionWellFormed(c.dir, b, Intents(c, s, b), m.settlement.settledAt, m);
    }
  }

  lemma WorkerPhase(c: Config, s: State, act: Action)
    requires HasWorker(act)
    ensures PhaseOf(After(c, s, act), act.worker) == NextPhase(s, act, PhaseOf(s, act.worker))
  {
    hide NextSystem, NextPhase, NextPublished, NextBroadcast;
  }

  lemma ClaimedOk(c: Config, s: State, act: Action)
    requires Inv(c, s) && Enabled(c, s, act) && act.Claim?
    ensures PhaseOk(c, After(c, s, act), Claimed(|s.sys.store.batches|, act.intents))
  {
    Backend.InvIntents(c.dir, s.sys.store);
    ClaimTakesBatch(c.dir, s.sys.store, act.ids, act.windowEnd, act.at, act.intents);
    SystemAfter(c, s, act);
    PublishedAfter(c, s, act);
    assert |s.sys.store.batches| !in s.published;
    hide After, Backend.Inv, PublishedOk, WorkersOk, ChainOk, JournalsOk, SettledOk, NR.BatchIntents, NR.Assigned,
        NR.AssignedJournals;
  }

  lemma PublishedPhaseOk(c: Config, s: State, act: Action)
    requires act.Publish?
    ensures PhaseOk(c, After(c, s, act), Published(act.summary))
  {
    PublishedAfter(c, s, act);
    hide After;
  }

  lemma ConfirmedOk(c: Config, s: State, act: Action)
    requires Directory(c.dir) && Inv(c, s) && Enabled(c, s, act) && act.Confirm?
    ensures PhaseOk(c, After(c, s, act), Confirmed(PhaseOf(s, act.worker).summary))
  {
    var p := PhaseOf(s, act.worker);
    ConfirmedIsBalanced(c, s, act);
    ActionGrows(c, s, act);
    assert PhaseOk(c, s, p) && Known(s, p.summary);
    assert BatchOf(p.summary) < |s.sys.store.batches|;
    hide After, Enabled, Backend.Inv, PublishedOk, WorkersOk, ChainOk, JournalsOk, SettledOk, Balanced;
    BatchKept(c, s, After(c, s, act), BatchOf(p.summary));
  }

  lemma SubmittedOk(c: Config, s: State, act: Action)
    requires Inv(c, s) && Enabled(c, s, act) && act.Submit?
    ensures PhaseOk(c, After(c, s, act), Waiting(PhaseOf(s, act.worker).summary))
  {
    var m := PhaseOf(s, act.worker).summary;
    assert PhaseOk(c, s, PhaseOf(s, act.worker)) && Known(s, m);
    PublishedAfter(c, s, act);
    hide After, Enabled, Inv;
  }

  lemma GivenUpOk(c: Config, s: State, act: Action)
    requires Inv(c, s) && Enabled(c, s, act) && act.GiveUp?
    ensures PhaseOk(c, After(c, s, act), NextPhase(s, act, PhaseOf(s, act.worker)))
  {
    assert PhaseOk(c, s, PhaseOf(s, act.worker));
    SystemAfter(c, s, act);
    hide After, WorkersOk, ChainOk, JournalsOk, SettledOk, IsSummary, Intents;
  }

  /** The remaining actions leave the worker idle or reconciling. */
  lemma LetGo(c: Config, s: State, act: Action)
    requires Enabled(c, s, act) && HasWorker(act)
    requires !act.Claim? && !act.Publish? && !act.Submit? && !act.Confirm? && !act.GiveUp?
    ensures NextPhase(s, act, PhaseOf(s, act.worker)).Idle? || NextPhase(s, act, PhaseOf(s, act.worker)).Reconciling?
  {
  }

  lemma NextPhaseOk(c: Config, s: State, act: Action)
    requires Directory(c.dir) && Inv(c, s) && Enabled(c, s, act) && HasWorker(act)
    ensures PhaseOk(c, After(c, s, act), PhaseOf(After(c, s, act), act.worker))
  {
    WorkerPhase(c, s, act);
    if act.Claim? {
      ClaimedOk(c, s, act);
    } else if act.Publish? {
      PublishedPhaseOk(c, s, act);
    } else if act.Confirm? {
      ConfirmedOk(c, s, act);
      assert PhaseOf(s, act.worker).Published? || PhaseOf(s, act.worker).Waiting?;
    } else if act.Submit? {
      SubmittedOk(c, s, act);
      assert PhaseOf(s, act.worker).Published?;
    } else if act.GiveUp? {
      GivenUpOk(c, s, act);
    } else {
      LetGo(c, s, act);
    }
    hide Inv, After, Enabled;
  }

  lemma KeepsWorkers(c: Config, s: State, act: Action)
    requires Directory(c.dir) && Inv(c, s) && Enabled(c, s, act)
    ensures WorkersOk(c, After(c, s, act))
  {
    var s' := After(c, s, act);
    ActionGrows(c, s, act);
    if HasWorker(act) {
      NextPhaseOk(c, s, act);
    }
    forall w | w in s'.workers && !(HasWorker(act) && w == act.worker)
      ensures w in s.workers && s'.workers[w] == s.workers[w] && PhaseOk(c, s', s'.workers[w])
    {
      OtherWorker(c, s, act, w);
    }
    ClaimsDiffer(c, s, act);
    hide Inv, Enabled, PhaseOk, After;
  }

  lemma OtherWorker(c: Config, s: State, act: Action, w: nat)
    requires Inv(c, s) && Enabled(c, s, act)
    requires w in After(c, s, act).workers && !(HasWorker(act) && w == act.worker)
    ensures w in s.workers && After(c, s, act).workers[w] == s.workers[w]
    ensures PhaseOk(c, After(c, s, act), s.workers[w])
  {
    ActionGrows(c, s, act);
    PublishedAfter(c, s, act);
    WorkersAfter(c, s, act);
    if act.Publish? {
      PublishedFromClaim(c, s, act);
      assert PhaseOf(s, act.worker).Claimed?;
    }
    hide After, Enabled, NextPhase, Backend.Inv, SettledOk, ChainOk, JournalsOk, PublishedOk, IsSummary, Intents,
        Grows, Balanced;
    assert PhaseOk(c, s, s.workers[w]);
    PhaseStays(c, s, After(c, s, act), s.workers[w]);
  }

  lemma WorkersAfter(c: Config, s: State, act: Action)
    ensures After(c, s, act).workers == NextWorkers(s, act)
  {
    hide NextSystem, NextPhase, NextPublished, NextBroadcast;
  }

  lemma ClaimsDiffer(c: Config, s: State, act: Action)
    requires Inv(c, s) && Enabled(c, s, act)
    ensures var ws := After(c, s, act).workers;
      forall v, w :: v in ws && w in ws && v != w && ws[v].Claimed? && ws[w].Claimed? ==> ws[v].batch != ws[w].batch
  {
    hide Backend.Inv, NextSystem, NextBroadcast, SettledOk, ChainOk, JournalsOk, PublishedOk, Settle, IsSummary,
        Intents, Balanced;
  }

  lemma KnownStays(s: State, s': State, m: Summary)
    requires Known(s, m)
    requires forall b :: b in s.published ==> b in s'.published && s'.published[b] == s.published[b]
    ensures Known(s', m)
  {
  }

  /** What the chain knew stays true when it does not move. */
  lemma ChainStays(c: Config, s: State, s': State)
    requires PublishedOk(c, s) && ChainOk(c, s) && Grows(s, s')
    requires s'.executed == s.executed && s'.settled == s.settled && TokenSane(s'.token, c.self)
    requires forall m :: m in s'.broadcast ==> Known(s', m) && m.settlement.netAmount != 0
    ensures ChainOk(c, s')
  {
    hide TokenSane, IsSummary, BatchesKept;
    forall i | 0 <= i < |s'.executed|
      ensures Known(s', s'.executed[i].summary) && MovesNet(c, s', s'.executed[i])
    {
      KnownStays(s, s', s.executed[i].summary);
      BatchKept(c, s, s', BatchOf(s.executed[i].summary));
      assert MovesNet(c, s, s.executed[i]);
    }
  }

  lemma BroadcastKnown(c: Config, s: State, act: Action, m: Summary)
    requires Inv(c, s) && Enabled(c, s, act) && m in NextBroadcast(s, act)
    ensures Known(s, m) && m.settlement.netAmount != 0
  {
    hide Backend.Inv, SettledOk, JournalsOk, PublishedOk, IsSummary, Intents, Balanced, TokenSane, MovesNet;
    if m !in s.broadcast {
      assert PhaseOk(c, s, PhaseOf(s, act.worker));
    }
  }

  /** A mined settlement moves the net positions of a batch that had not been executed. */
  lemma MineKeepsChain(c: Config, s: State, m: Summary)
    requires Directory(c.dir) && Inv(c, s) && m in s.broadcast
    ensures ChainOk(c, Mined(c, s, m))
  {
    var r := Settle(c.self, c.settler, s.settled, s.token, CallFor(c.settler, c.digest(m.manifest), m.settlement));
    MinedEffect(c, s, m);
    hide Inv, Settle, ChainOk;
    if r.Success? {
      ExecutionAdded(c, s, m, r.value);
    }
  }

  lemma ExecutionAdded(c: Config, s: State, m: Summary, after: Token)
    requires ChainOk(c, s) && Known(s, m)
    requires c.digest(m.manifest) !in s.settled && TokenSane(after, c.self) && MovesNet(c, s, Execution(m, s.token, after))
    ensures ChainOk(c, s.(settled := s.settled + {c.digest(m.manifest)}, token := after, executed := s.executed + [Execution(m, s.token, after)]))
  {
    var s' := s.(settled := s.settled + {c.digest(m.manifest)}, token := after, executed := s.executed + [Execution(m, s.token, after)]);
    hide TokenSane, MovesNet;
    forall i | 0 <= i < |s'.executed|
      ensures MovesNet(c, s', s'.executed[i]) && Known(s', s'.executed[i].summary)
      ensures c.digest(s'.executed[i].summary.manifest) in s'.settled
      ensures i < |s.executed| ==> BatchOf(s'.executed[i].summary) != BatchOf(m)
    {
      if i < |s.executed| {
        assert s'.executed[i] == s.executed[i];
        assert Known(s, s.executed[i].summary);
      }
      SameStoreMoves(c, s, s', s'.executed[i]);
    }
  }

  lemma SameStoreMoves(c: Config, s: State, s': State, e: Execution)
    requires s'.sys == s.sys && MovesNet(c, s, e)
    ensures MovesNet(c, s', e)
  {
  }

  lemma MinedEffect(c: Config, s: State, m: Summary)
    requires Directory(c.dir) && Inv(c, s) && m in s.broadcast
    ensures Known(s, m) && Payable(m.settlement)
    ensures var r := Settle(c.self, c.settler, s.settled, s.token, CallFor(c.settler, c.digest(m.manifest), m.settlement));
      r.Success? ==>
        && c.digest(m.manifest) !in s.settled
        && TokenSane(r.value, c.self)
        && MovesNet(c, s, Execution(m, s.token, r.value))
  {
    var b := BatchOf(m);
    assert Known(s, m);
    Backend.InvIntents(c.dir, s.sys.store);
    BatchConsistent(c.dir, s.sys.store.intents, b);
    BatchSettles(c.dir, c.self, c.settler, s.settled, s.token, c.digest(m.manifest), b, Intents(c, s, b),
        m.settlement.settledAt, m);
  }

  lemma KeepsChain(c: Config, s: State, act: Action)
    requires Directory(c.dir) && Inv(c, s) && Enabled(c, s, act)
    ensures ChainOk(c, After(c, s, act))
  {
    if act.Mine? {
      MineKeepsChain(c, s, act.summary);
    } else {
      var s' := After(c, s, act);
      ActionGrows(c, s, act);
      forall m | m in s'.broadcast
        ensures Known(s', m) && m.settlement.netAmount != 0
      {
        BroadcastKnown(c, s, act, m);
        KnownStays(s, s', m);
      }
      assert TokenSane(s'.token, c.self);
      hide Backend.Inv, WorkersOk, JournalsOk, SettledOk, TokenSane, NextSystem, NextWorkers, NextPublished,
          NextBroadcast, Known, Grows, PublishedOk, MovesNet;
      ChainStays(c, s, s');
    }
  }

  lemma KeepsJournals(c: Config, s: State, act: Action)
    requires Directory(c.dir) && Inv(c, s) && Enabled(c, s, act)
    ensures JournalsOk(c, After(c, s, act))
  {
    var s' := After(c, s, act);
    StoreAfter(c, s, act);
    ActionGrows(c, s, act);
    forall b: nat | SettlementKey(b) in s'.sys.store.books.journals
      ensures Balanced(c, s', b)
    {
      JournaledBatch(c, s, act, b);
      BatchKept(c, s, s', b);
    }
  }

  lemma JournaledBatch(c: Config, s: State, act: Action, b: nat)
    requires Inv(c, s) && Enabled(c, s, act)
    requires SettlementKey(b) in After(c, s, act).sys.store.books.journals
    ensures b < |s.sys.store.batches| && Balanced(c, s, b)
  {
    StoreAfter(c, s, act);
    hide After, BatchesKept, SettledOk, ChainOk, Balanced, IsSummary;
    if SettlementKey(b) in s.sys.store.books.journals {
      Backend.InvIntents(c.dir, s.sys.store);
    } else {
      assert PhaseOk(c, s, PhaseOf(s, act.worker));
    }
  }

  lemma ActionKeepsInv(c: Config, s: State, act: Action)
    requires Directory(c.dir) && Inv(c, s) && Enabled(c, s, act)
    ensures Inv(c, After(c, s, act))
  {
    StoreAfter(c, s, act);
    KeepsPublished(c, s, act);
    KeepsWorkers(c, s, act);
    KeepsChain(c, s, act);
    KeepsJournals(c, s, act);
    hide After, Enabled, Backend.Inv, PublishedOk, WorkersOk, ChainOk, JournalsOk, SettledOk, BatchesKept;
  }

  // ---- Every run ----

  function Initial(token: Token): State {
    State(Backend.System(EmptyStore(), {}), map[], map[], {}, {}, token, [])
  }

  ghost predicate IsRun(c: Config, trace: seq<State>, acts: seq<Action>) {
    && Directory(c.dir)
    && |trace| == |acts| + 1
    && TokenSane(trace[0].token, c.self)
    && trace[0] == Initial(trace[0].token)
    && forall i :: 0 <= i < |acts| ==> Enabled(c, trace[i], acts[i]) && trace[i + 1] == After(c, trace[i], acts[i])
  }

  lemma InitialInv(c: Config, trace: seq<State>, acts: seq<Action>)
    requires IsRun(c, trace, acts)
    ensures Inv(c, trace[0])
  {
    Backend.EmptyInv(c.dir);
    hide Enabled, After, TokenSane, Backend.Inv;
  }

  lemma {:induction false} RunKeepsInv(c: Config, trace: seq<State>, acts: seq<Action>, i: nat)
    requires IsRun(c, trace, acts) && i < |trace|
    ensures Inv(c, trace[i])
  {
    hide *;
    if i == 0 {
      InitialInv(c, trace, acts);
    } else {
      RunKeepsInv(c, trace, acts, i - 1);
      RunStep(c, trace, acts, i);
      ActionKeepsInv(c, trace[i - 1], acts[i - 1]);
    }
  }

  lemma RunStep(c: Config, trace: seq<State>, acts: seq<Action>, i: nat)
    requires IsRun(c, trace, acts) && 0 < i < |trace|
    ensures Directory(c.dir) && i <= |acts|
    ensures Enabled(c, trace[i - 1], acts[i - 1]) && trace[i] == After(c, trace[i - 1], acts[i - 1])
  {
    hide Enabled, After;
  }

  /** Whatever the interleaving and the crashes, a batch with a settlement journal, and in
      particular every batch ever marked settled, was executed on the chain or had nothing
      to move. */
  lemma JournaledWasExecuted(c: Config, trace: seq<State>, acts: seq<Action>, i: nat, b: nat)
    requires IsRun(c, trace, acts) && i < |trace| && b < |trace[i].sys.store.batches|
    ensures trace[i].sys.store.batches[b].status == BatchSettled ==> SettlementKey(b) in trace[i].sys.store.books.journals
    ensures SettlementKey(b) in trace[i].sys.store.books.journals ==>
      ExecutedBatch(trace[i], b) || forall a :: NR.Receivable(trace[i].sys.store.intents, b, a) == NR.Payable(trace[i].sys.store.intents, b, a)
  {
    var s := trace[i];
    RunKeepsInv(c, trace, acts, i);
    forall a
      ensures Net(Intents(c, s, b), a) == NR.Receivable(s.sys.store.intents, b, a) - NR.Payable(s.sys.store.intents, b, a)
    {
      BatchPositions(c.dir, s.sys.store.intents, b, a);
    }
    hide Backend.Inv, PublishedOk, WorkersOk, ChainOk;
  }

  /** No intent is in the manifests of two settlements on the chain. */
  lemma NoIntentSettledTwice(c: Config, trace: seq<State>, acts: seq<Action>, k: nat, i: nat, j: nat,
      m: ManifestIntent, n: ManifestIntent)
    requires IsRun(c, trace, acts) && k < |trace|
    requires i < |trace[k].executed| && m in trace[k].executed[i].summary.manifest.intents
    requires j < |trace[k].executed| && n in trace[k].executed[j].summary.manifest.intents
    requires m.id == n.id
    ensures i == j
  {
    var s := trace[k];
    RunKeepsInv(c, trace, acts, k);
    ManifestOfBatch(c, s, i, m);
    ManifestOfBatch(c, s, j, n);
    hide Backend.Inv, PublishedOk, WorkersOk, JournalsOk, SettledOk;
  }

  lemma ManifestOfBatch(c: Config, s: State, i: nat, m: ManifestIntent)
    requires Inv(c, s) && i < |s.executed| && m in s.executed[i].summary.manifest.intents
    ensures m.id < |s.sys.store.intents| && s.sys.store.intents[m.id].batch == Some(BatchOf(s.executed[i].summary))
  {
    var sum := s.executed[i].summary;
    var xs := Intents(c, s, BatchOf(sum));
    assert Known(s, sum);
    hide Backend.Inv, WorkersOk, JournalsOk, SettledOk;
    assert m in multiset(sum.manifest.intents);
    assert m in ManifestIntents(xs);
    var k :| 0 <= k < |xs| && ManifestIntents(xs)[k] == m;
    BatchMembers(c.dir, s.sys.store.intents, BatchOf(sum));
    assert xs[k] in xs;
  }

  // ---- Settled rows ----

  /** The row of a settled batch carries the hash and the totals of its manifest. */
  ghost predicate TellsManifest(c: Config, s: State, b: nat, r: BatchRow) {
    && b in s.published
    && var m := s.published[b];
       && r.hash == Some(c.digest(m.manifest))
       && r.grossIntentCount == m.settlement.grossIntentCount && r.transferCount == m.settlement.transferCount
       && r.grossAmount == m.settlement.grossAmount && r.netAmount == m.settlement.netAmount
  }

  ghost predicate RowsTell(c: Config, s: State) {
    forall b: nat :: b < |s.sys.store.batches| && s.sys.store.batches[b].status == BatchSettled ==>
      TellsManifest(c, s, b, s.sys.store.batches[b])
  }

  /** A row that has become settled is the acting worker's, and every other settled row is
      as it was. */
  lemma SettledRowsAfter(c: Config, s: State, act: Action, b: nat)
    requires Inv(c, s) && Enabled(c, s, act)
    requires b < |After(c, s, act).sys.store.batches| && After(c, s, act).sys.store.batches[b].status == BatchSettled
    ensures b < |s.sys.store.batches|
    ensures var r, r' := s.sys.store.batches[b], After(c, s, act).sys.store.batches[b];
      || r' == r
      || (act.MarkSettled? && PhaseOf(s, act.worker).Confirmed?
          && var m := PhaseOf(s, act.worker).summary;
             b == BatchOf(m) && r' == NR.SettledRow(r, c.digest(m.manifest), m.settlement) && r.status == BatchProcessing)
  {
    SystemAfter(c, s, act);
    var step := Transaction(c, s, act);
    if !act.Mine? && step.Some? && !step.value.MarkSettledStep? {
      NothingSettled(c.dir, s.sys, step.value);
      hide Inv, After, Enabled, Transaction, Backend.After;
    } else {
      hide Inv, After, Record, NR.SettlementPostings;
    }
  }

  lemma RowStaysTold(c: Config, s: State, s': State, b: nat, r: BatchRow)
    requires TellsManifest(c, s, b, r)
    requires forall b :: b in s.published ==> b in s'.published && s'.published[b] == s.published[b]
    ensures TellsManifest(c, s', b, r)
  {
  }

  lemma ActionKeepsRows(c: Config, s: State, act: Action)
    requires Inv(c, s) && Enabled(c, s, act) && RowsTell(c, s)
    ensures RowsTell(c, After(c, s, act))
  {
    var s' := After(c, s, act);
    ActionGrows(c, s, act);
    forall b: nat | b < |s'.sys.store.batches| && s'.sys.store.batches[b].status == BatchSettled
      ensures TellsManifest(c, s', b, s'.sys.store.batches[b])
    {
      SettledRowsAfter(c, s, act, b);
      if s'.sys.store.batches[b] == s.sys.store.batches[b] {
        hide After, Inv, Enabled, TellsManifest, BatchesKept;
        RowStaysTold(c, s, s', b, s.sys.store.batches[b]);
      } else {
        assert PhaseOk(c, s, PhaseOf(s, act.worker));
        hide After, Backend.Inv, PublishedOk, WorkersOk, ChainOk, JournalsOk, SettledOk, Enabled, BatchesKept, Balanced;
      }
    }
  }

  lemma {:induction false} RunKeepsRows(c: Config, trace: seq<State>, acts: seq<Action>, i: nat)
    requires IsRun(c, trace, acts) && i < |trace|
    ensures RowsTell(c, trace[i])
  {
    if i == 0 {
      hide Enabled, After;
    } else {
      hide *;
      RunKeepsRows(c, trace, acts, i - 1);
      RunKeepsInv(c, trace, acts, i - 1);
      RunStep(c, trace, acts, i);
      ActionKeepsRows(c, trace[i - 1], acts[i - 1]);
    }
  }

  /** In every run the row of a settled batch has the root hash of the manifest that was
      published for it, and the count, the gross amount, the number of agents with a net
      position, and the net amount, of the intents that are stored under it. */
  lemma SettledRowTellsBatch(c: Config, trace: seq<State>, acts: seq<Action>, i: nat, b: nat)
    requires IsRun(c, trace, acts) && i < |trace|
    requires b < |trace[i].sys.store.batches| && trace[i].sys.store.batches[b].status == BatchSettled
    ensures var r, xs := trace[i].sys.store.batches[b], Intents(c, trace[i], b);
      && b in trace[i].published && r.hash == Some(c.digest(trace[i].published[b].manifest))
      && r.grossIntentCount == |xs|
      && r.grossAmount == Gross(xs)
      && r.transferCount == |set a | a in Agents(xs) && Net(xs, a) != 0|
      && 2 * r.netAmount == SumSet(Agents(xs), Magnitude(xs))
  {
    var s := trace[i];
    RunKeepsInv(c, trace, acts, i);
    RunKeepsRows(c, trace, acts, i);
    var m := s.published[b];
    NetAmountIsHalf(b, Intents(c, s, b), m.settlement.settledAt, m);
    TransfersCounted(b, Intents(c, s, b), m.settlement.settledAt, m);
    hide IsRun, Backend.Inv, WorkersOk, ChainOk, JournalsOk, SettledOk, Intents;
  }

  // ---- Chain and ledger agree ----

  /** The tokens that one settlement moved for a wallet. */
  function Moves(wallet: Address): Execution -> int {
    (e: Execution) => e.after.BalanceOf(wallet) - e.before.BalanceOf(wallet)
  }

  function StoredNetOf(t: Store, a: AgentId): nat -> int {
    (b: nat) => StoredNet(t.intents, b, a)
  }

  function WhenJournaled(t: Store, a: AgentId, journaled: bool): nat -> int {
    (b: nat) => if (SettlementKey(b) in t.books.journals) == journaled then StoredNet(t.intents, b, a) else 0
  }

  /** The agent's net in a batch that was executed on the chain but is not journaled. */
  function OnChainOnly(t: Store, a: AgentId): Execution -> int {
    (e: Execution) => WhenJournaled(t, a, false)(BatchOf(e.summary))
  }

  function RowBatch(r: IntentRow): nat { if r.batch.Some? then r.batch.value else 0 }

  function Below(n: nat): (s: set<nat>)
    ensures forall b: nat :: b in s <==> b < n
  {
    if n == 0 then {} else Below(n - 1) + {n - 1}
  }

  /** A batch's share of an agent's cash is its stored net, once journaled. */
  lemma CashOfBatch(t: Store, a: AgentId, b: nat)
    ensures Totals(t.intents, RowBatch, Backend.IntentWeight(t.books.journals, AccountKey(a, Cash)))(b) == WhenJournaled(t, a, true)(b)
  {
    var weight := Backend.IntentWeight(t.books.journals, AccountKey(a, Cash));
    var paid, received := Keyed(NR.RowPayer, NR.AmountIn(b), a), Keyed(NR.RowPayee, NR.AmountIn(b), a);
    forall i | 0 <= i < |t.intents|
      ensures SettlementKey(b) in t.books.journals ==> received(t.intents[i]) == Keyed(RowBatch, weight, b)(t.intents[i]) + paid(t.intents[i])
      ensures SettlementKey(b) !in t.books.journals ==> Keyed(RowBatch, weight, b)(t.intents[i]) == 0
    {
      var r := t.intents[i];
      assert NR.RowPayer(r) == r.payer && NR.RowPayee(r) == r.payee;
      assert RowBatch(r) == if r.batch.Some? then r.batch.value else 0;
    }
    if SettlementKey(b) in t.books.journals {
      SumSplit(t.intents, received, t.intents, Keyed(RowBatch, weight, b), t.intents, paid);
    } else {
      SumZero(t.intents, Keyed(RowBatch, weight, b));
    }
  }

  lemma CashByBatch(dir: map<AgentId, Address>, t: Store, a: AgentId)
    requires Backend.IntentsOk(dir, t) && Backend.BooksAgree(t)
    ensures BalanceOf(t.books, AccountKey(a, Cash)) == SumSet(Below(|t.batches|), WhenJournaled(t, a, true))
  {
    var key := AccountKey(a, Cash);
    var weight := Backend.IntentWeight(t.books.journals, key);
    assert BalanceOf(t.books, key) == Backend.Expected(t, key);
    SumZero(t.orders, Backend.OrderWeight(key));
    forall i | 0 <= i < |t.intents| && weight(t.intents[i]) != 0
      ensures RowBatch(t.intents[i]) in Below(|t.batches|)
    {
    }
    SumByKey(Below(|t.batches|), t.intents, RowBatch, weight);
    forall b | b in Below(|t.batches|)
      ensures Totals(t.intents, RowBatch, weight)(b) == WhenJournaled(t, a, true)(b)
    {
      CashOfBatch(t, a, b);
    }
    SumSetAgree(Below(|t.batches|), Totals(t.intents, RowBatch, weight), WhenJournaled(t, a, true));
  }

  function ExecutedBatches(s: State): seq<nat> {
    seq(|s.executed|, i requires 0 <= i < |s.executed| => BatchOf(s.executed[i].summary))
  }

  lemma StoredNetIsNet(c: Config, s: State, b: nat, a: AgentId)
    ensures Net(Intents(c, s, b), a) == StoredNet(s.sys.store.intents, b, a)
  {
    BatchPositions(c.dir, s.sys.store.intents, b, a);
  }

  lemma MovesByBatch(c: Config, s: State, a: AgentId)
    requires ChainOk(c, s) && a in c.dir
    ensures Sum(s.executed, Moves(c.dir[a])) == Sum(ExecutedBatches(s), StoredNetOf(s.sys.store, a))
  {
    hide TokenSane, Intents;
    forall i | 0 <= i < |s.executed|
      ensures Moves(c.dir[a])(s.executed[i]) == StoredNetOf(s.sys.store, a)(ExecutedBatches(s)[i])
    {
      assert MovesNet(c, s, s.executed[i]);
      StoredNetIsNet(c, s, BatchOf(s.executed[i].summary), a);
    }
    SumAgree(s.executed, Moves(c.dir[a]), ExecutedBatches(s), StoredNetOf(s.sys.store, a));
  }

  /** Journaled batches are executed batches, but for those with nothing to move. */
  lemma JournaledAmongExecuted(c: Config, s: State, a: AgentId)
    requires Inv(c, s)
    ensures Sum(ExecutedBatches(s), WhenJournaled(s.sys.store, a, true)) ==
      SumSet(Below(|s.sys.store.batches|), WhenJournaled(s.sys.store, a, true))
  {
    hide Backend.Inv, WorkersOk, SettledOk, TokenSane, Intents, IsSummary, StoredNet, Sum, SumSet;
    var t, ids := s.sys.store, ExecutedBatches(s);
    forall i | 0 <= i < |ids|
      ensures ids[i] in Below(|t.batches|)
    {
      assert Known(s, s.executed[i].summary);
    }
    SumDistinct(ids, WhenJournaled(t, a, true));
    forall b | b in Below(|t.batches|) - Elements(ids)
      ensures WhenJournaled(t, a, true)(b) == 0
    {
      if SettlementKey(b) in t.books.journals {
        assert Balanced(c, s, b);
        assert !ExecutedBatch(s, b) by {
          assert forall i :: 0 <= i < |s.executed| ==> ids[i] == BatchOf(s.executed[i].summary) && ids[i] in ids;
        }
        StoredNetIsNet(c, s, b, a);
      }
    }
    SumSetWiden(Elements(ids), Below(|t.batches|), WhenJournaled(t, a, true));
  }

  /** In every run, the tokens that all successful settlements moved for an agent are its
      cash balance and its net in the batches that the ledger has not caught up with. */
  lemma ChainAgreesWithBooks(c: Config, trace: seq<State>, acts: seq<Action>, i: nat, a: AgentId)
    requires IsRun(c, trace, acts) && i < |trace| && a in c.dir
    ensures var s := trace[i];
      Sum(s.executed, Moves(c.dir[a])) ==
        BalanceOf(s.sys.store.books, AccountKey(a, Cash)) + Sum(s.executed, OnChainOnly(s.sys.store, a))
  {
    hide Sum;
    var s := trace[i];
    var t, ids := s.sys.store, ExecutedBatches(s);
    RunKeepsInv(c, trace, acts, i);
    MovesByBatch(c, s, a);
    JournaledAmongExecuted(c, s, a);
    CashByBatch(c.dir, t, a);
    hide Inv, IsRun, StoredNet;
    SumSplit(ids, StoredNetOf(t, a), ids, WhenJournaled(t, a, true), ids, WhenJournaled(t, a, false));
    SumAgree(s.executed, OnChainOnly(t, a), ids, WhenJournaled(t, a, false));
  }

  /** Once every executed batch is journaled, cash is exactly what the chain moved. */
  lemma CashIsWhatMoved(c: Config, trace: seq<State>, acts: seq<Action>, i: nat, a: AgentId)
    requires IsRun(c, trace, acts) && i < |trace| && a in c.dir
    requires forall k :: 0 <= k < |trace[i].executed| ==>
      SettlementKey(BatchOf(trace[i].executed[k].summary)) in trace[i].sys.store.books.journals
    ensures BalanceOf(trace[i].sys.store.books, AccountKey(a, Cash)) == Sum(trace[i].executed, Moves(c.dir[a]))
  {
    ChainAgreesWithBooks(c, trace, acts, i, a);
    var executed, t := trace[i].executed, trace[i].sys.store;
    forall k | 0 <= k < |executed|
      ensures OnChainOnly(t, a)(executed[k]) == 0
    {
      assert OnChainOnly(t, a)(executed[k]) == WhenJournaled(t, a, false)(BatchOf(executed[k].summary));
    }
    SumZero(executed, OnChainOnly(t, a));
  }

  /** The cash legs that a worker journals are the debits and credits that its batch settled
      on the chain. */
  lemma JournalMirrorsSettlement(c: Config, trace: seq<State>, acts: seq<Action>, i: nat)
    requires IsRun(c, trace, acts) && i < |acts| && acts[i].MarkSettled?
    ensures PhaseOf(trace[i], acts[i].worker).Confirmed?
    ensures var st := PhaseOf(trace[i], acts[i].worker).summary.settlement;
      var entry := NR.SettlementPostings(NR.Closed(trace[i].sys.store.intents, st.batchId, IntentSettled, st.settledAt), st.batchId, acts[i].order);
      && multiset(CashLegs(entry, Credit)) == multiset(PartyLegs(st.debtors, Credit))
      && multiset(CashLegs(entry, Debit)) == multiset(PartyLegs(st.creditors, Debit))
  {
    var s, act := trace[i], acts[i];
    assert Enabled(c, s, act);
    RunKeepsInv(c, trace, acts, i);
    var m := PhaseOf(s, act.worker).summary;
    var b, at, rows := BatchOf(m), m.settlement.settledAt, s.sys.store.intents;
    assert PhaseOk(c, s, PhaseOf(s, act.worker)) && Known(s, m);
    hide Backend.Inv, WorkersOk, ChainOk, JournalsOk, SettledOk, IsRun;
    NR.ClosedKeepsPositions(rows, b, IntentSettled, at);
    IntentsAgree(c.dir, rows, NR.Closed(rows, b, IntentSettled, at), b);
    TwoNettingsAgree(c.dir, NR.Closed(rows, b, IntentSettled, at), b, act.order, Intents(c, s, b), at, m);
  }
}
