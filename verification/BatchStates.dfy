/**
 The status of batch rows. Processes that do not overlap keep every batch in one of three
 states, whatever crashes; processes that overlap need not, and it is shown exactly when.
 */
module BatchStates {
  import opened Wrappers
  import opened Sums
  import opened Identity
  import opened Schema
  import opened Bookkeeping
  import NR = NettingRepository
  import opened Netting
  import Backend
  import opened Protocol

  ghost predicate AllIn(t: Store, b: nat, status: IntentStatus) {
    forall i :: 0 <= i < |t.intents| && t.intents[i].batch == Some(b) ==> t.intents[i].status == status
  }

  /** Open, with all intents batched; settled, with all intents settled and a journal; or
      failed, with all intents failed and no journal. */
  ghost predicate Coherent(t: Store, b: nat) {
    && b < |t.batches|
    && match t.batches[b].status
       case BatchProcessing => AllIn(t, b, IntentBatched) && SettlementKey(b) !in t.books.journals
       case BatchSettled => AllIn(t, b, IntentSettled) && SettlementKey(b) in t.books.journals
       case BatchFailed => AllIn(t, b, IntentFailed) && SettlementKey(b) !in t.books.journals
  }

  ghost predicate AllCoherent(t: Store) {
    forall b: nat :: b < |t.batches| ==> Coherent(t, b)
  }

  // ---- Exactly when closing a batch leaves it in one of the three states ----

  lemma MarkSettledTouches(t: Store, hash: nat, st: Settlement, order: seq<AgentId>)
    requires NR.MarkSettled(t, hash, st, order).Some?
    ensures var b := st.batchId;
      var t' := NR.MarkSettled(t, hash, st, order).value;
      && b < |t.batches| && SettlementKey(b) !in t.books.journals
      && t'.intents == NR.Closed(t.intents, b, IntentSettled, st.settledAt)
      && t'.batches == t.batches[b := NR.SettledRow(t.batches[b], hash, st)]
      && t'.books.journals == t.books.journals[SettlementKey(b) := JournalRow(None, None, Some(b), st.settledAt)]
  {
    RecordAppends(t.books, SettlementKey(st.batchId), JournalRow(None, None, Some(st.batchId), st.settledAt),
                  NR.SettlementPostings(NR.Closed(t.intents, st.batchId, IntentSettled, st.settledAt), st.batchId,
                      order));
  }

  /** Marking a batch settled keeps the three states if and only if it is still processing.
      The row's status is not checked before the journal is written: a failed batch stays
      failed and gets a journal. */
  lemma SettlingIsCoherentIff(t: Store, hash: nat, st: Settlement, order: seq<AgentId>)
    requires Coherent(t, st.batchId)
    requires NR.MarkSettled(t, hash, st, order).Some?
    ensures Coherent(NR.MarkSettled(t, hash, st, order).value, st.batchId) <==> t.batches[st.batchId].status == BatchProcessing
    ensures t.batches[st.batchId].status != BatchProcessing ==> t.batches[st.batchId].status == BatchFailed
  {
    MarkSettledTouches(t, hash, st, order);
    hide NR.MarkSettled;
  }

  /** Marking a batch failed keeps the three states if and only if it is not settled. */
  lemma FailingIsCoherentIff(t: Store, b: nat, at: int)
    requires Coherent(t, b)
    ensures Coherent(NR.MarkFailed(t, b, at), b) <==> t.batches[b].status != BatchSettled
  {
  }

  lemma OthersUntouchedBySettling(t: Store, hash: nat, st: Settlement, order: seq<AgentId>, b: nat)
    requires NR.MarkSettled(t, hash, st, order).Some? && b != st.batchId && b < |t.batches|
    ensures Coherent(NR.MarkSettled(t, hash, st, order).value, b) <==> Coherent(t, b)
    ensures NR.MarkSettled(t, hash, st, order).value.batches[b] == t.batches[b]
  {
    MarkSettledTouches(t, hash, st, order);
    hide NR.MarkSettled;
    var t' := NR.MarkSettled(t, hash, st, order).value;
    assert forall i :: 0 <= i < |t.intents| && t.intents[i].batch == Some(b) ==> t'.intents[i] == t.intents[i];
    assert forall i :: 0 <= i < |t.intents| ==> t'.intents[i].batch == t.intents[i].batch;
  }

  lemma OthersUntouchedByFailing(t: Store, at: int, c: nat, b: nat)
    requires b != c && b < |t.batches|
    ensures Coherent(NR.MarkFailed(t, c, at), b) <==> Coherent(t, b)
    ensures NR.MarkFailed(t, c, at).batches[b] == t.batches[b]
  {
    var t' := NR.MarkFailed(t, c, at);
    assert forall i :: 0 <= i < |t.intents| && t.intents[i].batch == Some(b) ==> t'.intents[i] == t.intents[i];
    assert forall i :: 0 <= i < |t.intents| ==> t'.intents[i].batch == t.intents[i].batch;
  }

  lemma ClaimIsCoherent(dir: map<AgentId, Address>, t: Store, ids: set<nat>, windowEnd: int, at: int, b: nat)
    requires Backend.IntentsOk(dir, t) && AllCoherent(t)
    requires NR.Claim(t, ids, windowEnd, at).Some?
    requires b <= |t.batches|
    ensures Coherent(NR.Claim(t, ids, windowEnd, at).value, b)
    ensures b < |t.batches| ==> NR.Claim(t, ids, windowEnd, at).value.batches[b] == t.batches[b]
  {
    var t' := NR.Claim(t, ids, windowEnd, at).value;
    assert t'.books.journals.Keys == t.books.journals.Keys;
    if b < |t.batches| {
      assert Coherent(t, b);
      assert forall i :: 0 <= i < |t.intents| && t'.intents[i].batch == Some(b) ==> t'.intents[i] == t.intents[i];
    }
  }

  /** The other transactions touch no batch. */
  lemma OtherIsCoherent(dir: map<AgentId, Address>, s: Backend.System, step: Backend.Step, b: nat)
    requires Backend.IntentsOk(dir, s.store)
    requires !step.ClaimStep? && !step.MarkSettledStep? && !step.MarkFailedStep?
    requires Coherent(s.store, b)
    ensures Backend.After(dir, s, step).store.batches == s.store.batches
    ensures Coherent(Backend.After(dir, s, step).store, b)
  {
    var t, t' := s.store, Backend.After(dir, s, step).store;
    OtherTables(dir, s, step);
    Backend.StepPersists(dir, s, step);
    if SettlementKey(b) in t'.books.journals {
      StepJournals(dir, s, step, b);
    }
    hide Backend.After;
  }

  lemma OtherTables(dir: map<AgentId, Address>, s: Backend.System, step: Backend.Step)
    requires !step.ClaimStep? && !step.MarkSettledStep? && !step.MarkFailedStep?
    ensures var t, t' := s.store, Backend.After(dir, s, step).store;
      && t'.batches == t.batches && t.intents <= t'.intents
      && forall i :: |t.intents| <= i < |t'.intents| ==> t'.intents[i].batch == None
  {
    hide Record;
  }

  // ---- Processes that do not overlap ----

  /** At most one worker is at work. */
  ghost predicate Exclusive(s: State) {
    forall v, w :: PhaseOf(s, v) != Idle && PhaseOf(s, w) != Idle ==> v == w
  }

  /** The batch that a worker is about to close. */
  function Held(p: Phase): Option<nat> {
    match p
    case Claimed(b, _) => Some(b)
    case Published(m) => Some(BatchOf(m))
    case Waiting(m) => Some(BatchOf(m))
    case Confirmed(m) => Some(BatchOf(m))
    case Failing(b) => Some(b)
    case _ => None
  }

  predicate IsOpen(batches: seq<BatchRow>, b: nat) {
    b < |batches| && batches[b].status == BatchProcessing
  }

  /** A held batch is open; a reconcile works through open batches and, as long as nothing
      went wrong, through all that are stuck. */
  ghost predicate PhaseOrderly(batches: seq<BatchRow>, p: Phase) {
    && (Held(p).Some? ==> IsOpen(batches, Held(p).value))
    && (p.Reconciling? ==>
          && Distinct(p.remaining)
          && (forall b :: b in p.remaining ==> IsOpen(batches, b))
          && (p.clean ==> forall b: nat :: b < |batches| && NR.IsStuck(batches[b], p.cutoff) ==> b in p.remaining))
  }

  ghost predicate Orderly(s: State) {
    AllCoherent(s.sys.store) && forall w :: w in s.workers ==> PhaseOrderly(s.sys.store.batches, s.workers[w])
  }

  /** The actions that commit a transaction on a batch. */
  predicate TouchesBatch(act: Action) {
    act.Claim? || act.MarkSettled? || act.MarkFailed? || act.ReconcileNext?
  }

  lemma StoreStaysCoherent(c: Config, s: State, act: Action)
    requires Inv(c, s) && Enabled(c, s, act) && Orderly(s) && !TouchesBatch(act)
    ensures AllCoherent(After(c, s, act).sys.store)
    ensures After(c, s, act).sys.store.batches == s.sys.store.batches
  {
    SystemAfter(c, s, act);
    hide After, Backend.After, PublishedOk, WorkersOk, ChainOk, JournalsOk, SettledOk, Coherent;
    if act.Other? {
      Backend.InvIntents(c.dir, s.sys.store);
      hide Backend.Inv;
      forall b: nat | b < |s.sys.store.batches|
        ensures Coherent(After(c, s, act).sys.store, b)
        ensures After(c, s, act).sys.store.batches == s.sys.store.batches
      {
        OtherIsCoherent(c.dir, s.sys, act.step, b);
      }
      OtherTables(c.dir, s.sys, act.step);
    }
  }

  /** Closing the held batch, or reconciling the next one, or claiming a new one. */
  lemma TouchedStaysCoherent(c: Config, s: State, act: Action)
    requires Inv(c, s) && Enabled(c, s, act) && Orderly(s) && TouchesBatch(act)
    ensures AllCoherent(After(c, s, act).sys.store)
  {
    StoreTouched(c, s, act);
    ClosesItsOwn(c, s, act);
    hide *;
    WorkerIsOrderly(s, act.worker);
    var t := s.sys.store;
    if act.Claim? {
      Backend.StoreOfInv(c.dir, s.sys);
      Backend.InvIntents(c.dir, t);
      ClaimTouches(c.dir, t, act.ids, act.windowEnd, act.at);
    } else if act.MarkSettled? {
      var m := PhaseOf(s, act.worker).summary;
      SettledTouches(t, c.digest(m.manifest), m.settlement, act.order);
    } else if act.MarkFailed? {
      FailedTouches(t, PhaseOf(s, act.worker).batch, act.at);
    } else if act.ok {
      FailedTouches(t, PhaseOf(s, act.worker).remaining[0], act.at);
    }
  }

  /** The batch that an action closes is open. */
  lemma ClosesItsOwn(c: Config, s: State, act: Action)
    requires Inv(c, s) && Enabled(c, s, act) && Orderly(s)
    ensures Backend.Inv(c.dir, s.sys)
    ensures act.MarkSettled? ==> PhaseOf(s, act.worker).Confirmed? && IsOpen(s.sys.store.batches, PhaseOf(s, act.worker).summary.settlement.batchId)
    ensures act.MarkFailed? ==> PhaseOf(s, act.worker).Failing? && IsOpen(s.sys.store.batches, PhaseOf(s, act.worker).batch)
    ensures act.ReconcileNext? ==>
      && PhaseOf(s, act.worker).Reconciling? && PhaseOf(s, act.worker).remaining != []
      && IsOpen(s.sys.store.batches, PhaseOf(s, act.worker).remaining[0])
  {
    hide Backend.Inv, PublishedOk, WorkersOk, ChainOk, JournalsOk, SettledOk, IsSummary, NR.Claim, NR.Join, NR.Enumerates,
         NR.BatchAgents, Executed;
    if HasWorker(act) {
      WorkerIsOrderly(s, act.worker);
    }
    hide Orderly;
    if act.ReconcileNext? {
      var rest := PhaseOf(s, act.worker).remaining;
      assert rest[0] in rest;
    }
  }

  /** What the action's transaction makes of the store. */
  lemma StoreTouched(c: Config, s: State, act: Action)
    requires Enabled(c, s, act) && TouchesBatch(act)
    ensures var t, t', p := s.sys.store, After(c, s, act).sys.store, PhaseOf(s, act.worker);
      match act
      case Claim(_, ids, windowEnd, at, _) => t' == Backend.Committed(t, NR.Claim(t, ids, windowEnd, at))
      case MarkSettled(_, order) =>
        p.Confirmed? && t' == Backend.Committed(t, NR.MarkSettled(t, c.digest(p.summary.manifest), p.summary.settlement, order))
      case MarkFailed(_, at) => p.Failing? && t' == NR.MarkFailed(t, p.batch, at)
      case ReconcileNext(_, at, ok) =>
        p.Reconciling? && p.remaining != [] && t' == if ok then NR.MarkFailed(t, p.remaining[0], at) else t
      case _ => true
  {
    SystemAfter(c, s, act);
    hide After, NR.Claim, NR.MarkSettled, NR.MarkFailed;
  }

  lemma WorkerIsOrderly(s: State, w: nat)
    requires Orderly(s)
    ensures AllCoherent(s.sys.store) && PhaseOrderly(s.sys.store.batches, PhaseOf(s, w))
  {
    hide AllCoherent;
    IdleIsOrderly(s.sys.store.batches);
  }

  lemma ClaimTouches(dir: map<AgentId, Address>, t: Store, ids: set<nat>, windowEnd: int, at: int)
    requires Backend.IntentsOk(dir, t) && AllCoherent(t)
    ensures AllCoherent(Backend.Committed(t, NR.Claim(t, ids, windowEnd, at)))
  {
    if NR.Claim(t, ids, windowEnd, at).Some? {
      forall b: nat | b <= |t.batches|
        ensures Coherent(NR.Claim(t, ids, windowEnd, at).value, b)
      {
        ClaimIsCoherent(dir, t, ids, windowEnd, at, b);
      }
    }
  }

  lemma SettledTouches(t: Store, hash: nat, st: Settlement, order: seq<AgentId>)
    requires AllCoherent(t) && IsOpen(t.batches, st.batchId)
    ensures AllCoherent(Backend.Committed(t, NR.MarkSettled(t, hash, st, order)))
  {
    assert Coherent(t, st.batchId);
    if NR.MarkSettled(t, hash, st, order).Some? {
      MarkSettledTouches(t, hash, st, order);
      SettlingIsCoherentIff(t, hash, st, order);
      hide NR.MarkSettled, Coherent;
      forall b: nat | b < |t.batches| && b != st.batchId
        ensures Coherent(NR.MarkSettled(t, hash, st, order).value, b)
      {
        OthersUntouchedBySettling(t, hash, st, order, b);
      }
    }
  }

  lemma FailedTouches(t: Store, c: nat, at: int)
    requires AllCoherent(t) && IsOpen(t.batches, c)
    ensures AllCoherent(NR.MarkFailed(t, c, at))
  {
    assert Coherent(t, c);
    FailingIsCoherentIff(t, c, at);
    forall b: nat | b < |t.batches| && b != c
      ensures Coherent(NR.MarkFailed(t, c, at), b)
    {
      OthersUntouchedByFailing(t, at, c, b);
    }
  }

  /** A worker goes on with the batch it holds, or lets go of it. */
  lemma HeldStays(c: Config, s: State, act: Action)
    requires Enabled(c, s, act) && HasWorker(act) && !act.Claim? && !act.StartReconcile? && !act.ReconcileNext?
    ensures var p := NextPhase(s, act, PhaseOf(s, act.worker));
      && !p.Reconciling? && (Held(p).Some? ==> Held(p) == Held(PhaseOf(s, act.worker)))
      && (TouchesBatch(act) ==> p == Idle)
  {
  }

  lemma WorkerStaysOrderly(c: Config, s: State, act: Action)
    requires Inv(c, s) && Enabled(c, s, act) && Orderly(s) && HasWorker(act)
    ensures PhaseOrderly(After(c, s, act).sys.store.batches, NextPhase(s, act, PhaseOf(s, act.worker)))
  {
    IdleIsOrderly(s.sys.store.batches);
    assert PhaseOrderly(s.sys.store.batches, PhaseOf(s, act.worker));
    hide Inv, Orderly, Enabled, After, NextPhase, PhaseOrderly;
    if act.ReconcileNext? {
      ReconcilesOrderly(c, s, act);
    } else if act.Claim? || act.StartReconcile? {
      StartsOrderly(c, s, act);
    } else {
      ContinuesOrderly(c, s, act);
    }
  }

  lemma ReconcilesOrderly(c: Config, s: State, act: Action)
    requires Enabled(c, s, act) && act.ReconcileNext? && PhaseOrderly(s.sys.store.batches, PhaseOf(s, act.worker))
    ensures PhaseOrderly(After(c, s, act).sys.store.batches, NextPhase(s, act, PhaseOf(s, act.worker)))
  {
    SystemAfter(c, s, act);
    hide After, NR.MarkFailed, PhaseOrderly;
    NextReconciled(s.sys.store, PhaseOf(s, act.worker), act.at, act.ok);
  }

  lemma ContinuesOrderly(c: Config, s: State, act: Action)
    requires Inv(c, s) && Enabled(c, s, act) && Orderly(s)
    requires HasWorker(act) && !act.Claim? && !act.StartReconcile? && !act.ReconcileNext?
    requires PhaseOrderly(s.sys.store.batches, PhaseOf(s, act.worker))
    ensures PhaseOrderly(After(c, s, act).sys.store.batches, NextPhase(s, act, PhaseOf(s, act.worker)))
  {
    var p := PhaseOf(s, act.worker);
    hide *;
    HeldStays(c, s, act);
    if TouchesBatch(act) {
      IdleIsOrderly(After(c, s, act).sys.store.batches);
    } else {
      StoreStaysCoherent(c, s, act);
      GoesOnOrderly(s.sys.store.batches, p, NextPhase(s, act, p));
    }
  }

  lemma GoesOnOrderly(batches: seq<BatchRow>, p: Phase, q: Phase)
    requires PhaseOrderly(batches, p)
    requires !q.Reconciling? && (Held(q).Some? ==> Held(q) == Held(p))
    ensures PhaseOrderly(batches, q)
  {
  }

  lemma StartsOrderly(c: Config, s: State, act: Action)
    requires Enabled(c, s, act) && (act.Claim? || act.StartReconcile?)
    ensures PhaseOrderly(After(c, s, act).sys.store.batches, NextPhase(s, act, PhaseOf(s, act.worker)))
  {
    SystemAfter(c, s, act);
    hide After, NR.Assigned, NR.AssignedJournals;
  }

  lemma NextReconciled(t: Store, p: Phase, at: int, ok: bool)
    requires p.Reconciling? && p.remaining != [] && PhaseOrderly(t.batches, p)
    ensures PhaseOrderly(if ok then NR.MarkFailed(t, p.remaining[0], at).batches else t.batches,
                         Reconciling(p.remaining[1..], p.cutoff, p.clean && ok))
  {
    var first, rest := p.remaining[0], p.remaining[1..];
    assert p.remaining == [first] + rest;
    assert first in p.remaining && IsOpen(t.batches, first);
    assert forall b :: b in rest ==> b in p.remaining && b != first;
    assert forall b :: b in p.remaining ==> b in rest || b == first;
  }

  lemma ActionKeepsOrderly(c: Config, s: State, act: Action)
    requires Inv(c, s) && Enabled(c, s, act) && Orderly(s)
    requires Exclusive(s) && Exclusive(After(c, s, act))
    ensures Orderly(After(c, s, act))
  {
    if TouchesBatch(act) {
      TouchedStaysCoherent(c, s, act);
    } else {
      StoreStaysCoherent(c, s, act);
    }
    if HasWorker(act) {
      WorkerStaysOrderly(c, s, act);
    }
    WorkersAfter(c, s, act);
    AloneAtWork(c, s, act);
    hide Inv, Enabled, After, Exclusive, AllCoherent, PhaseOrderly, NextPhase, NextWorkers;
    OrderlyFrom(s, After(c, s, act), act);
  }

  lemma OrderlyFrom(s: State, s': State, act: Action)
    requires Orderly(s) && AllCoherent(s'.sys.store) && s'.workers == NextWorkers(s, act)
    requires HasWorker(act) ==> PhaseOrderly(s'.sys.store.batches, NextPhase(s, act, PhaseOf(s, act.worker)))
    requires !TouchesBatch(act) ==> s'.sys.store.batches == s.sys.store.batches
    requires TouchesBatch(act) ==> forall w :: w in s.workers && w != act.worker ==> s.workers[w] == Idle
    ensures Orderly(s')
  {
    IdleIsOrderly(s'.sys.store.batches);
    hide AllCoherent, PhaseOrderly, NextPhase;
  }

  lemma IdleIsOrderly(batches: seq<BatchRow>)
    ensures PhaseOrderly(batches, Idle)
  {
  }

  /** While a batch is touched nobody else is at work. */
  lemma AloneAtWork(c: Config, s: State, act: Action)
    requires Enabled(c, s, act)
    requires Exclusive(s) && Exclusive(After(c, s, act))
    ensures TouchesBatch(act) ==> forall w :: w in s.workers && w != act.worker ==> s.workers[w] == Idle
  {
    WorkersAfter(c, s, act);
    hide After, NextSystem;
    if TouchesBatch(act) {
      var s' := After(c, s, act);
      assert PhaseOf(s, act.worker) != Idle || PhaseOf(s', act.worker) != Idle;
      forall w | w in s.workers && w != act.worker
        ensures s.workers[w] == Idle
      {
        assert PhaseOf(s', w) == PhaseOf(s, w) == s.workers[w];
      }
    }
  }

  ghost predicate NeverOverlap(trace: seq<State>) {
    forall i :: 0 <= i < |trace| ==> Exclusive(trace[i])
  }

  lemma InitialOrderly(c: Config, trace: seq<State>, acts: seq<Action>)
    requires IsRun(c, trace, acts)
    ensures Orderly(trace[0])
  {
    hide Enabled, After;
  }

  lemma NoOverlapAt(trace: seq<State>, i: nat)
    requires NeverOverlap(trace) && i < |trace|
    ensures Exclusive(trace[i])
  {
    hide Exclusive;
  }

  lemma {:induction false} RunStaysOrderly(c: Config, trace: seq<State>, acts: seq<Action>, i: nat)
    requires IsRun(c, trace, acts) && NeverOverlap(trace) && i < |trace|
    ensures Orderly(trace[i])
  {
    hide *;
    if i == 0 {
      InitialOrderly(c, trace, acts);
    } else {
      RunStaysOrderly(c, trace, acts, i - 1);
      RunKeepsInv(c, trace, acts, i - 1);
      RunStep(c, trace, acts, i);
      NoOverlapAt(trace, i - 1);
      NoOverlapAt(trace, i);
      ActionKeepsOrderly(c, trace[i - 1], acts[i - 1]);
    }
  }

  /** In any sequence of processes that do not overlap, with crashes anywhere, every batch
      is open with all intents batched, settled with all intents settled and a journal, or
      failed with all intents failed and no journal. */
  lemma ThreeStates(c: Config, trace: seq<State>, acts: seq<Action>, i: nat, b: nat)
    requires IsRun(c, trace, acts) && NeverOverlap(trace) && i < |trace|
    requires b < |trace[i].sys.store.batches|
    ensures Coherent(trace[i].sys.store, b)
  {
    RunStaysOrderly(c, trace, acts, i);
  }

  /** When a reconcile that met no error is through, nothing older than its cutoff is still
      processing. */
  lemma ReconcileLeavesNoneStuck(c: Config, trace: seq<State>, acts: seq<Action>, i: nat, w: nat, b: nat)
    requires IsRun(c, trace, acts) && NeverOverlap(trace) && i < |trace|
    requires var p := PhaseOf(trace[i], w); p.Reconciling? && p.remaining == [] && p.clean
    requires b < |trace[i].sys.store.batches|
    ensures !NR.IsStuck(trace[i].sys.store.batches[b], PhaseOf(trace[i], w).cutoff)
  {
    RunStaysOrderly(c, trace, acts, i);
    assert PhaseOrderly(trace[i].sys.store.batches, PhaseOf(trace[i], w));
  }

  // ---- Processes that do overlap ----

  /** A second process starts while the first waits to close its batch, reconciles that
      batch away, and then the first journals it: the batch is failed, and has a journal. */
  lemma OverlapBreaksStates(c: Config, s: State, v: nat, w: nat, cutoff: int, found: seq<nat>, at: int,
      order: seq<AgentId>)
    requires v != w && PhaseOf(s, v).Confirmed? && PhaseOf(s, w) == Idle
    requires var b := BatchOf(PhaseOf(s, v).summary);
      && found != [] && found[0] == b && b < |s.sys.store.batches|
      && SettlementKey(b) !in s.sys.store.books.journals
    requires Enabled(c, s, StartReconcile(w, cutoff, found))
    requires NR.Enumerates(order, NR.BatchAgents(s.sys.store.intents, BatchOf(PhaseOf(s, v).summary)))
    ensures var b := BatchOf(PhaseOf(s, v).summary);
      var s1 := After(c, s, StartReconcile(w, cutoff, found));
      var s2 := After(c, s1, ReconcileNext(w, at, true));
      var s3 := After(c, s2, MarkSettled(v, order));
      && Enabled(c, s1, ReconcileNext(w, at, true)) && Enabled(c, s2, MarkSettled(v, order))
      && b < |s3.sys.store.batches| && s3.sys.store.batches[b].status == BatchFailed
      && SettlementKey(b) in s3.sys.store.books.journals
      && !Coherent(s3.sys.store, b)
  {
    var m := PhaseOf(s, v).summary;
    var b, t := BatchOf(m), s.sys.store;
    var s1 := After(c, s, StartReconcile(w, cutoff, found));
    var s2 := After(c, s1, ReconcileNext(w, at, true));
    assert s1.sys == s.sys && PhaseOf(s1, w) == Reconciling(found, cutoff, true) && PhaseOf(s1, v) == PhaseOf(s, v);
    assert s2.sys.store == NR.MarkFailed(t, b, at) && PhaseOf(s2, v) == PhaseOf(s, v);
    NR.ClosedKeepsPositions(t.intents, b, IntentFailed, at);
    var r := NR.MarkSettled(s2.sys.store, c.digest(m.manifest), m.settlement, order);
    assert r.Some?;
    MarkSettledTouches(s2.sys.store, c.digest(m.manifest), m.settlement, order);
  }
}
