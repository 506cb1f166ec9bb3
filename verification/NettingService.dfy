/**
 The netting use case over the live database: submitting an intent, flushing what is
 pending, and reconciling at start-up. What storage, chain and clock answer are parameters.
 */
module NettingService {
  import opened Wrappers
  import opened Sums
  import opened Identity
  import opened Schema
  import opened Bookkeeping
  import opened JournalKeys
  import NR = NettingRepository
  import opened Netting
  import opened NettingTheory
  import SettlementGateway
  import opened SettlementBooks
  import Backend
  import Protocol
  import opened BatchStates

  // ---- Submitting an intent ----

  /** A request as parsed: no wallet if it is blank or not an address, no amount if it is
      not a decimal integer. */
  datatype Request = Request(idempotencyKey: string, payer: Option<Address>, payee: Option<Address>, asset: string, amount: Option<int>)

  datatype SubmitError = BlankKey | InvalidRequest | UnsupportedAsset | UnknownAgent | NotStored

  function FindKey(rows: seq<IntentRow>, key: string): (r: Option<nat>)
    ensures r.Some? ==> r.value < |rows| && rows[r.value].idempotencyKey == key
    ensures r.None? <==> !NR.KeyTaken(rows, key)
  {
    if rows == [] then None
    else
      match FindKey(rows[..|rows| - 1], key)
      case Some(i) => Some(i)
      case None => if rows[|rows| - 1].idempotencyKey == key then Some(|rows| - 1) else None
  }

  function Validated(q: Request): Result<(Address, Address, int), SubmitError> {
    if q.payer.None? || q.payee.None? || q.payer == q.payee then Failure(InvalidRequest)
    else if !IsRusd(TrimSpace(q.asset)) then Failure(SubmitError.UnsupportedAsset)
    else if q.amount.None? || q.amount.value <= 0 then Failure(InvalidRequest)
    else Success((q.payer.value, q.payee.value, q.amount.value))
  }

  ghost function AgentOf(dir: map<AgentId, Address>, wallet: Address): Option<AgentId> {
    if a :| a in dir && dir[a] == wallet then Some(a) else None
  }

  /** The insert, in whatever state other requests have left the table by then: when it is
      refused, the key is looked up once more. */
  function StoreIntent(dir: map<AgentId, Address>, s: Store, key: string, payer: AgentId, payee: AgentId,
      amount: int, at: int): (Store, Result<nat, SubmitError>) {
    match NR.CreateIntent(dir, s, TrimSpace(key), payer, payee, amount, at)
    case Some(s') => (s', Success(|s.intents|))
    case None =>
      match FindKey(s.intents, key)
      case Some(i) => (s, Success(i))
      case None => (s, Failure(NotStored))
  }

  /** The key is looked up as given, and stored without surrounding space. */
  ghost function Submit(dir: map<AgentId, Address>, s: Store, q: Request, at: int): (Store, Result<nat, SubmitError>) {
    if TrimSpace(q.idempotencyKey) == "" then (s, Failure(BlankKey))
    else if FindKey(s.intents, q.idempotencyKey).Some? then (s, Success(FindKey(s.intents, q.idempotencyKey).value))
    else
      match Validated(q)
      case Failure(e) => (s, Failure(e))
      case Success(v) =>
        var payer, payee := AgentOf(dir, v.0), AgentOf(dir, v.1);
        if payer.None? || payee.None? then (s, Failure(UnknownAgent))
        else StoreIntent(dir, s, q.idempotencyKey, payer.value, payee.value, v.2, at)
  }

  // ---- Flushing and reconciling ----

  datatype FlushError = Claiming | Summarising(error: NettingError) | Uploading | Settling | Persisting

  /** What the outside answers: whether the database can be reached for the claim and for
      closing the batch, the root hash of the stored manifest or an error, whether the
      settlement was mined successfully, and the time at the end. */
  datatype Answers = Answers(claimable: bool, rootHash: Option<nat>, mined: bool, closable: bool, now: int)

  /** Batches are failed one after the other; some updates may not go through. */
  function Reconciled(s: Store, ids: seq<nat>, unavailable: set<nat>, at: int): Store {
    if ids == [] then s
    else
      var s' := Reconciled(s, ids[..|ids| - 1], unavailable, at);
      if ids[|ids| - 1] in unavailable then s' else NR.MarkFailed(s', ids[|ids| - 1], at)
  }

  class NettingUsecase {
    const repository: NR.Repository

    constructor (repository: NR.Repository)
      ensures this.repository == repository
    {
      this.repository := repository;
    }

    method FindAgent(dir: map<AgentId, Address>, wallet: Address) returns (agent: Option<AgentId>)
      requires Directory(dir)
      ensures agent == AgentOf(dir, wallet)
    {
      var rest := dir.Keys;
      while rest != {}
        invariant rest <= dir.Keys
        invariant forall a :: a in dir && a !in rest ==> dir[a] != wallet
        decreases rest
      {
        var a :| a in rest;
        if dir[a] == wallet {
          return Some(a);
        }
        rest := rest - {a};
      }
      return None;
    }

    method SubmitIntent(dir: map<AgentId, Address>, q: Request, at: int) returns (r: Result<nat, SubmitError>)
      requires Directory(dir)
      modifies repository.db
      ensures (repository.db.View(), r) == Submit(dir, old(repository.db.View()), q, at)
    {
      var db := repository.db;
      if TrimSpace(q.idempotencyKey) == "" {
        return Failure(BlankKey);
      }
      var existing := FindKey(db.intents, q.idempotencyKey);
      if existing.Some? {
        return Success(existing.value);
      }
      var v := Validated(q);
      if v.Failure? {
        return Failure(v.error);
      }
      var payer := FindAgent(dir, v.value.0);
      if payer.None? {
        return Failure(UnknownAgent);
      }
      var payee := FindAgent(dir, v.value.1);
      if payee.None? {
        return Failure(UnknownAgent);
      }
      r := CreateOrFind(dir, q.idempotencyKey, payer.value, payee.value, v.value.2, at);
    }

    method CreateOrFind(dir: map<AgentId, Address>, key: string, payer: AgentId, payee: AgentId, amount: int,
        at: int) returns (r: Result<nat, SubmitError>)
      modifies repository.db
      ensures (repository.db.View(), r) == StoreIntent(dir, old(repository.db.View()), key, payer, payee, amount, at)
    {
      var id := |repository.db.intents|;
      var created := repository.CreateIntentWithAccrual(dir, TrimSpace(key), payer, payee, amount, at);
      if created {
        return Success(id);
      }
      var existing := FindKey(repository.db.intents, key);
      if existing.None? {
        return Failure(NotStored);
      }
      return Success(existing.value);
    }

    /** The gateway's checks, then the mined outcome; nothing is sent when nothing is to move. */
    method SettleBatch(st: Settlement, mined: bool) returns (ok: bool)
      ensures ok <==>
        || st.netAmount == 0
        || ((forall p :: p in st.debtors + st.creditors ==> p.amount > 0) && st.debtors != [] && st.creditors != [] && mined)
    {
      if st.netAmount == 0 {
        return true;
      }
      var debtors := SettlementGateway.SettlementParties(st.debtors);
      if debtors.Failure? {
        return false;
      }
      var creditors := SettlementGateway.SettlementParties(st.creditors);
      if creditors.Failure? {
        return false;
      }
      if |debtors.value.0| == 0 || |creditors.value.0| == 0 {
        return false;
      }
      return mined;
    }

    /** An error on the way to a settlement: the batch is failed if the database can be
        reached, and that it could not be is ignored. */
    method CloseAsFailed(batchId: nat, outside: Answers)
      modifies repository.db`batches, repository.db`intents
      ensures repository.db.View() ==
        if outside.closable then NR.MarkFailed(old(repository.db.View()), batchId, outside.now) else old(repository.db.View())
    {
      if outside.closable {
        repository.MarkBatchFailed(batchId, outside.now);
      }
    }

    /** Claim, net, publish, settle, close. Exactly the pending intents of the window that no
        other claim has locked make up the new batch; without one nothing happens. Each
        outcome is given exactly for its cause, and with it what the rows of the batch and
        its intents hold; other rows, and the work orders, stay as they were. The batch is
        left open only when the database cannot be reached at the end, or its root hash was
        already used, and an error is reported. */
    method FlushPending(dir: map<AgentId, Address>, now: int, locked: set<nat>, outside: Answers)
      returns (r: Result<Option<Settlement>, FlushError>)
      requires Backend.StoreInv(dir, repository.db.View()) && AllCoherent(repository.db.View())
      modifies repository.db
      ensures Backend.StoreInv(dir, repository.db.View()) && AllCoherent(repository.db.View())
      ensures repository.db.orders == old(repository.db.orders)
      ensures r == Failure(Claiming) <==> !outside.claimable
      ensures r == Success(None) <==> outside.claimable && forall i :: 0 <= i < |old(repository.db.intents)| && i !in locked ==>
        old(repository.db.intents)[i].status != IntentPending || old(repository.db.intents)[i].createdAt > now
      ensures r == Failure(Claiming) || r == Success(None) ==> repository.db.View() == old(repository.db.View())
      ensures r != Failure(Claiming) && r != Success(None) ==>
        var b, xs := |old(repository.db.batches)|, NR.BatchIntents(dir, repository.db.intents, |old(repository.db.batches)|);
        var sent := outside.mined || forall a :: Net(xs, a) == 0;
        && (r.Failure? && r.error.Summarising? <==> !Supported(xs))
        && (r == Failure(Uploading) <==> Supported(xs) && outside.rootHash == None)
        && (r == Failure(Settling) <==> Supported(xs) && outside.rootHash.Some? && !sent)
        && (r == Failure(Persisting) <==>
              && Supported(xs) && outside.rootHash.Some? && sent
              && (!outside.closable || exists c :: 0 <= c < b && old(repository.db.batches)[c].hash == outside.rootHash))
        && (r.Success? ==> exists s: Summary :: s.settlement == r.value.value && IsSummary(b, xs, now, s))
      ensures r != Failure(Claiming) && r != Success(None) ==>
        var b := |old(repository.db.batches)|;
        if r.Success? then
          var st := r.value.value;
          && repository.db.batches == old(repository.db.batches)
               + [BatchRow(BatchSettled, outside.rootHash, st.grossIntentCount, st.transferCount, st.grossAmount, st.netAmount, now, now)]
          && NR.BatchTook(old(repository.db.intents), repository.db.intents, now, locked, b, IntentSettled, now)
        else if r.error == Persisting || !outside.closable then
          && repository.db.batches == old(repository.db.batches) + [BatchRow(BatchProcessing, None, 0, 0, 0, 0, now, now)]
          && NR.BatchTook(old(repository.db.intents), repository.db.intents, now, locked, b, IntentBatched, now)
        else
          && repository.db.batches == old(repository.db.batches) + [BatchRow(BatchFailed, None, 0, 0, 0, 0, now, outside.now)]
          && NR.BatchTook(old(repository.db.intents), repository.db.intents, now, locked, b, IntentFailed, outside.now)
    {
      hide Backend.StoreInv, AllCoherent, IsSummary, NR.Claim, NR.MarkFailed, NR.MarkSettled, NR.BatchIntents, NR.HashTaken, NR.BatchTook;
      ghost var s0 := repository.db.View();
      ghost var b := |s0.batches|;
      if !outside.claimable {
        return Failure(Claiming);
      }
      var claim := repository.ClaimPendingIntents(dir, now, now, locked);
      if claim.None? {
        return Success(None);
      }
      ghost var s1 := repository.db.View();
      ClaimedBatch(dir, s0, s1, now, locked, claim.value);
      assert |repository.db.batches| == b + 1;
      var batchId := |repository.db.batches| - 1;
      var summary := ComputeNettingSummary(batchId, claim.value, now);
      SupportedPermuted(claim.value, NR.BatchIntents(dir, s1.intents, b));
      if summary.Failure? {
        CloseAsFailed(batchId, outside);
        FailedBatch(dir, s0, s1, now, locked, outside.now);
        return Failure(Summarising(summary.error));
      }
      if outside.rootHash.None? {
        CloseAsFailed(batchId, outside);
        FailedBatch(dir, s0, s1, now, locked, outside.now);
        return Failure(Uploading);
      }
      var st := summary.value.settlement;
      SameSummary(dir, s1, claim.value, now, summary.value);
      SentIff(dir, b, NR.BatchIntents(dir, s1.intents, b), now, summary.value);
      var sent := SettleBatch(st, outside.mined);
      if !sent {
        CloseAsFailed(batchId, outside);
        FailedBatch(dir, s0, s1, now, locked, outside.now);
        return Failure(Settling);
      }
      if !outside.closable {
        return Failure(Persisting);
      }
      var ok, order := repository.MarkBatchSettled(outside.rootHash.value, st);
      SettledBatch(dir, s0, s1, outside.rootHash.value, claim.value, now, locked, summary.value, order);
      if !ok {
        return Failure(Persisting);
      }
      return Success(Some(st));
    }

    /** Everything stuck is failed, batch by batch; an update that does not go through is
        skipped. Without such a failure nothing older than the cutoff is left processing. */
    method ReconcileStuckBatches(cutoff: int, unavailable: set<nat>, at: int) returns (ghost found: seq<nat>)
      modifies repository.db`batches, repository.db`intents
      ensures forall b: nat :: b in found <==>
        b < |old(repository.db.batches)| && old(repository.db.batches)[b].status == BatchProcessing && old(repository.db.batches)[b].updatedAt < cutoff
      ensures repository.db.View() == Reconciled(old(repository.db.View()), found, unavailable, at)
      ensures |repository.db.batches| == |old(repository.db.batches)| && |repository.db.intents| == |old(repository.db.intents)|
      ensures forall b :: 0 <= b < |repository.db.batches| ==>
        var o := old(repository.db.batches)[b];
        repository.db.batches[b] == if b in found && b !in unavailable then o.(status := BatchFailed, updatedAt := at) else o
      ensures forall i :: 0 <= i < |repository.db.intents| ==>
        var o := old(repository.db.intents)[i];
        repository.db.intents[i] ==
          if o.status == IntentBatched && o.batch.Some? && o.batch.value in found && o.batch.value !in unavailable
          then o.(status := IntentFailed, updatedAt := at) else o
      ensures unavailable == {} ==> forall b :: 0 <= b < |repository.db.batches| ==> !NR.IsStuck(repository.db.batches[b], cutoff)
      ensures AllCoherent(old(repository.db.View())) ==> AllCoherent(repository.db.View())
    {
      ghost var before := repository.db.View();
      var ids := repository.FindStuckProcessingBatches(cutoff);
      found := ids;
      for i := 0 to |ids|
        invariant repository.db.View() == Reconciled(before, ids[..i], unavailable, at)
      {
        assert ids[..i + 1][..i] == ids[..i];
        if ids[i] !in unavailable {
          repository.MarkBatchFailed(ids[i], at);
        }
      }
      assert ids[..|ids|] == ids;
      ReconciledRows(before, ids, unavailable, at);
      ReconciledIntents(before, ids, unavailable, at);
      if AllCoherent(before) {
        ReconciledCoherent(before, ids, unavailable, at);
      }
    }
  }

  // ---- The steps of a flush ----

  lemma ClaimedBatch(dir: map<AgentId, Address>, s: Store, s': Store, now: int, locked: set<nat>, xs: seq<PaymentIntent>)
    requires Backend.StoreInv(dir, s) && AllCoherent(s)
    requires exists ids :: NR.IsClaim(dir, s, s', now, now, locked, xs, ids)
    ensures Backend.StoreInv(dir, s') && AllCoherent(s')
    ensures s'.batches == s.batches + [BatchRow(BatchProcessing, None, 0, 0, 0, 0, now, now)] && s'.orders == s.orders
    ensures NR.BatchTook(s.intents, s'.intents, now, locked, |s.batches|, IntentBatched, now)
    ensures multiset(xs) == multiset(NR.BatchIntents(dir, s'.intents, |s.batches|)) && xs != []
  {
    var ids :| NR.IsClaim(dir, s, s', now, now, locked, xs, ids);
    Backend.InvIntents(dir, s);
    Backend.ClaimKeeps(dir, s, ids, now, now);
    ClaimTakesBatch(dir, s, ids, now, now, xs);
    ClaimTouches(dir, s, ids, now, now);
    PendingRowsFree(dir, s);
    hide Backend.StoreInv, AllCoherent, NR.BatchIntents;
  }

  /** A pending intent was never settled. */
  lemma PendingRowsFree(dir: map<AgentId, Address>, s: Store)
    requires Backend.IntentsOk(dir, s)
    ensures forall i :: 0 <= i < |s.intents| ==> s.intents[i].batch != Some(|s.batches|)
  {
  }

  /** Closing the batch closes its rows and no others. */
  lemma ClosingTakes(dir: map<AgentId, Address>, s0: Store, s: Store, now: int, locked: set<nat>, status: IntentStatus, at: int)
    requires Backend.StoreInv(dir, s0)
    requires NR.BatchTook(s0.intents, s.intents, now, locked, |s0.batches|, IntentBatched, now)
    requires status == IntentSettled || status == IntentFailed
    ensures NR.BatchTook(s0.intents, NR.Closed(s.intents, |s0.batches|, status, at), now, locked, |s0.batches|, status, at)
  {
    Backend.InvIntents(dir, s0);
    PendingRowsFree(dir, s0);
    hide Backend.StoreInv;
  }

  lemma FailedBatch(dir: map<AgentId, Address>, s0: Store, s: Store, now: int, locked: set<nat>, at: int)
    requires Backend.StoreInv(dir, s0) && Backend.StoreInv(dir, s) && AllCoherent(s)
    requires s.batches == s0.batches + [BatchRow(BatchProcessing, None, 0, 0, 0, 0, now, now)]
    requires NR.BatchTook(s0.intents, s.intents, now, locked, |s0.batches|, IntentBatched, now)
    ensures var s' := NR.MarkFailed(s, |s0.batches|, at);
      && Backend.StoreInv(dir, s') && AllCoherent(s') && s'.orders == s.orders
      && s'.batches == s0.batches + [BatchRow(BatchFailed, None, 0, 0, 0, 0, now, at)]
      && NR.BatchTook(s0.intents, s'.intents, now, locked, |s0.batches|, IntentFailed, at)
      && NR.BatchIntents(dir, s'.intents, |s0.batches|) == NR.BatchIntents(dir, s.intents, |s0.batches|)
  {
    var b := |s0.batches|;
    Backend.MarkFailedKeeps(dir, s, b, at);
    FailedTouches(s, b, at);
    ClosingTakes(dir, s0, s, now, locked, IntentFailed, at);
    Protocol.IntentsAgree(dir, s.intents, NR.Closed(s.intents, b, IntentFailed, at), b);
    hide Backend.StoreInv, AllCoherent, NR.BatchTook, NR.BatchIntents;
  }

  lemma SettledBatch(dir: map<AgentId, Address>, s0: Store, s: Store, hash: nat, xs: seq<PaymentIntent>, now: int,
      locked: set<nat>, summary: Summary, order: seq<AgentId>)
    requires Backend.StoreInv(dir, s0) && Backend.StoreInv(dir, s) && AllCoherent(s)
    requires s.batches == s0.batches + [BatchRow(BatchProcessing, None, 0, 0, 0, 0, now, now)]
    requires NR.BatchTook(s0.intents, s.intents, now, locked, |s0.batches|, IntentBatched, now)
    requires summary.settlement.batchId == |s0.batches| && summary.settlement.settledAt == now
    requires NR.Enumerates(order, NR.BatchAgents(s.intents, |s0.batches|))
    ensures var b, st := |s0.batches|, summary.settlement;
      var r := NR.MarkSettled(s, hash, st, order);
      && (r.None? <==> exists c :: 0 <= c < b && s0.batches[c].hash == Some(hash))
      && (r.Some? ==>
        && Backend.StoreInv(dir, r.value) && AllCoherent(r.value) && r.value.orders == s.orders
        && r.value.batches == s0.batches
             + [BatchRow(BatchSettled, Some(hash), st.grossIntentCount, st.transferCount, st.grossAmount, st.netAmount, now, now)]
        && NR.BatchTook(s0.intents, r.value.intents, now, locked, b, IntentSettled, now)
        && NR.BatchIntents(dir, r.value.intents, b) == NR.BatchIntents(dir, s.intents, b))
  {
    var b, st := |s0.batches|, summary.settlement;
    OnlyTakenHashRefused(s, hash, st, order);
    HashTakenBefore(s0.batches, s.batches[b], hash);
    if NR.MarkSettled(s, hash, st, order).Some? {
      hide Backend.StoreInv, AllCoherent, NR.MarkSettled, NR.BatchIntents, NR.BatchTook;
      Backend.MarkSettledKeeps(dir, s, hash, st, order);
      SettledTouches(s, hash, st, order);
      MarkSettledTouches(s, hash, st, order);
      ClosingTakes(dir, s0, s, now, locked, IntentSettled, now);
      Protocol.IntentsAgree(dir, s.intents, NR.Closed(s.intents, b, IntentSettled, st.settledAt), b);
    }
  }

  lemma SupportedPermuted(xs: seq<PaymentIntent>, ys: seq<PaymentIntent>)
    requires multiset(xs) == multiset(ys)
    ensures Supported(xs) <==> Supported(ys)
  {
    assert forall i :: i in xs <==> i in multiset(xs);
    assert forall i :: i in ys <==> i in multiset(ys);
  }

  /** Stored intents are all in the one asset, so that a flush never fails for it. */
  lemma {:induction false} BatchSupported(dir: map<AgentId, Address>, rows: seq<IntentRow>, b: nat)
    ensures Supported(NR.BatchIntents(dir, rows, b))
  {
    if rows != [] {
      BatchSupported(dir, rows[..|rows| - 1], b);
    }
  }

  /** An instruction of the engine passes the gateway's checks, unless every net position is
      zero and nothing is sent. */
  lemma SentIff(dir: map<AgentId, Address>, b: nat, xs: seq<PaymentIntent>, now: int, s: Summary)
    requires IsSummary(b, xs, now, s)
    ensures forall p :: p in s.settlement.debtors + s.settlement.creditors ==> p.amount > 0
    ensures s.settlement.netAmount == 0 <==> forall a :: Net(xs, a) == 0
    ensures s.settlement.netAmount != 0 ==> s.settlement.debtors != [] && s.settlement.creditors != []
  {
    var st := s.settlement;
    SettlementBalances(b, xs, now, s);
    forall p | p in st.debtors + st.creditors
      ensures p.amount > 0
    {
      assert IsParty(xs, p, -1) || IsParty(xs, p, 1);
    }
    NonEmptyTotal(st.debtors);
    NonEmptyTotal(st.creditors);
    if st.netAmount == 0 {
      forall a
        ensures Net(xs, a) == 0
      {
        NoPartyNoNet(xs, st.debtors, st.creditors, a);
      }
    } else {
      assert IsParty(xs, st.debtors[0], -1);
    }
  }

  lemma NoPartyNoNet(xs: seq<PaymentIntent>, debtors: seq<PartyAmount>, creditors: seq<PartyAmount>, a: AgentId)
    requires Lists(xs, debtors, -1) && Lists(xs, creditors, 1) && debtors == [] && creditors == []
    ensures Net(xs, a) == 0
  {
    if a in Agents(xs) {
      assert !IsParty(xs, PartyAmount(a, WalletOf(xs, a), -Net(xs, a)), -1);
      assert !IsParty(xs, PartyAmount(a, WalletOf(xs, a), Net(xs, a)), 1);
    } else {
      AbsentNet(xs, a);
    }
  }

  /** An open batch without a journal is refused for its hash alone. */
  lemma OnlyTakenHashRefused(s: Store, hash: nat, st: Settlement, order: seq<AgentId>)
    requires AllCoherent(s) && IsOpen(s.batches, st.batchId)
    ensures NR.MarkSettled(s, hash, st, order).None? <==> NR.HashTaken(s.batches, st.batchId, hash)
  {
    assert Coherent(s, st.batchId);
    hide NR.SettlementPostings, WriteLegs;
  }

  lemma SameSummary(dir: map<AgentId, Address>, s: Store, xs: seq<PaymentIntent>, now: int, summary: Summary)
    requires Backend.StoreInv(dir, s)
    requires multiset(xs) == multiset(NR.BatchIntents(dir, s.intents, summary.settlement.batchId))
    requires IsSummary(summary.settlement.batchId, xs, now, summary)
    ensures IsSummary(summary.settlement.batchId, NR.BatchIntents(dir, s.intents, summary.settlement.batchId), now, summary)
  {
    var b := summary.settlement.batchId;
    Backend.InvIntents(dir, s);
    BatchConsistent(dir, s.intents, b);
    assert forall i :: i in xs ==> i in multiset(xs);
    hide Backend.StoreInv, IsSummary, NR.BatchIntents;
    SummaryPermuted(dir, b, now, xs, NR.BatchIntents(dir, s.intents, b), summary);
  }

  lemma HashTakenBefore(batches: seq<BatchRow>, r: BatchRow, hash: nat)
    ensures NR.HashTaken(batches + [r], |batches|, hash) <==> exists c :: 0 <= c < |batches| && batches[c].hash == Some(hash)
  {
    assert forall c :: 0 <= c < |batches| ==> (batches + [r])[c] == batches[c];
  }

  // ---- Reconciling ----

  lemma {:induction false} ReconciledRows(s: Store, ids: seq<nat>, unavailable: set<nat>, at: int)
    ensures var s' := Reconciled(s, ids, unavailable, at);
      && |s'.batches| == |s.batches|
      && forall b :: 0 <= b < |s.batches| ==>
           s'.batches[b] == if b in ids && b !in unavailable then s.batches[b].(status := BatchFailed, updatedAt := at) else s.batches[b]
  {
    if ids != [] {
      var n := |ids| - 1;
      ReconciledRows(s, ids[..n], unavailable, at);
      assert forall b :: b in ids <==> b in ids[..n] || b == ids[n];
    }
  }

  /** The open intents of those batches fail with them, and no others. */
  lemma {:induction false} ReconciledIntents(s: Store, ids: seq<nat>, unavailable: set<nat>, at: int)
    ensures var s' := Reconciled(s, ids, unavailable, at);
      && |s'.intents| == |s.intents|
      && forall i :: 0 <= i < |s.intents| ==>
           var o := s.intents[i];
           s'.intents[i] ==
             if o.status == IntentBatched && o.batch.Some? && o.batch.value in ids && o.batch.value !in unavailable
             then o.(status := IntentFailed, updatedAt := at) else o
  {
    if ids != [] {
      var n := |ids| - 1;
      ReconciledIntents(s, ids[..n], unavailable, at);
      assert forall b :: b in ids <==> b in ids[..n] || b == ids[n];
    }
  }

  lemma {:induction false} ReconciledCoherent(s: Store, ids: seq<nat>, unavailable: set<nat>, at: int)
    requires AllCoherent(s) && Distinct(ids) && forall b :: b in ids ==> IsOpen(s.batches, b)
    ensures AllCoherent(Reconciled(s, ids, unavailable, at))
  {
    hide AllCoherent, NR.MarkFailed;
    if ids != [] {
      var n := |ids| - 1;
      assert ids[n] in ids && forall b :: b in ids[..n] ==> b in ids;
      ReconciledCoherent(s, ids[..n], unavailable, at);
      ReconciledRows(s, ids[..n], unavailable, at);
      if ids[n] !in unavailable {
        FailedTouches(Reconciled(s, ids[..n], unavailable, at), ids[n], at);
      }
    }
  }

  // ---- What a submission stores ----

  /** Under a key that is new, as given and trimmed, a request that goes through appends one
      pending intent between the agents of its two wallets, and journals its accrual. */
  lemma SubmitStoresIntent(dir: map<AgentId, Address>, s: Store, q: Request, at: int)
    requires Submit(dir, s, q, at).1.Success?
    requires forall i :: 0 <= i < |s.intents| ==>
      s.intents[i].idempotencyKey != q.idempotencyKey && s.intents[i].idempotencyKey != TrimSpace(q.idempotencyKey)
    ensures var s', i := Submit(dir, s, q, at).0, Submit(dir, s, q, at).1.value;
      && i == |s.intents| && |s'.intents| == |s.intents| + 1 && s'.intents[..i] == s.intents
      && s'.batches == s.batches && s'.orders == s.orders
      && s'.books.journals == s.books.journals[AccrualKey(i) := JournalRow(None, Some(i), None, at)]
      && var r := s'.intents[i];
      && r.payer in dir && q.payer == Some(dir[r.payer]) && r.payee in dir && q.payee == Some(dir[r.payee])
      && r.payer != r.payee && q.amount == Some(r.amount) && r.amount > 0
      && r.idempotencyKey == TrimSpace(q.idempotencyKey) && r.status == IntentPending
      && r.createdAt == at && r.updatedAt == at && r.batch == None && r.settledAt == None
  {
    var v := Validated(q).value;
    var payer, payee := AgentOf(dir, v.0).value, AgentOf(dir, v.1).value;
    hide TrimSpace, IsRusd;
    RecordAppends(s.books, AccrualKey(|s.intents|), JournalRow(None, Some(|s.intents|), None, at),
      NR.AccrualPostings(payer, payee, v.2));
    hide Record, NR.AccrualPostings;
  }

  /** Each refusal has its reason, and the first one is given. */
  lemma SubmitRefusals(dir: map<AgentId, Address>, s: Store, q: Request, at: int)
    ensures var r := Submit(dir, s, q, at).1;
      var unused := TrimSpace(q.idempotencyKey) != "" && forall i :: 0 <= i < |s.intents| ==> s.intents[i].idempotencyKey != q.idempotencyKey;
      var parties := q.payer.Some? && q.payee.Some? && q.payer != q.payee;
      var asset := IsRusd(TrimSpace(q.asset));
      var amount := q.amount.Some? && q.amount.value > 0;
      var known := (exists a :: a in dir && q.payer == Some(dir[a])) && (exists a :: a in dir && q.payee == Some(dir[a]));
      && (r == Failure(BlankKey) <==> TrimSpace(q.idempotencyKey) == "")
      && (r == Failure(InvalidRequest) <==> unused && (!parties || (asset && !amount)))
      && (r == Failure(SubmitError.UnsupportedAsset) <==> unused && parties && !asset)
      && (r == Failure(UnknownAgent) <==> unused && parties && asset && amount && !known)
  {
    hide TrimSpace, IsRusd, Record;
  }

  // ---- Submitting again ----

  lemma {:induction false} TrimTwice(s: string)
    ensures TrimSpace(TrimSpace(s)) == TrimSpace(s)
  {
    if s != "" {
      if IsSpace(s[0]) {
        TrimTwice(s[1..]);
      } else if IsSpace(s[|s| - 1]) {
        TrimTwice(s[..|s| - 1]);
      }
    }
  }

  /** Stored keys are unique and carry no surrounding space. */
  ghost predicate KeysStored(rows: seq<IntentRow>) {
    && (forall i, j :: 0 <= i < j < |rows| ==> rows[i].idempotencyKey != rows[j].idempotencyKey)
    && (forall i :: 0 <= i < |rows| ==> TrimSpace(rows[i].idempotencyKey) == rows[i].idempotencyKey)
  }

  lemma SubmitKeepsKeys(dir: map<AgentId, Address>, s: Store, q: Request, at: int)
    requires KeysStored(s.intents)
    ensures KeysStored(Submit(dir, s, q, at).0.intents)
    ensures Submit(dir, s, q, at).1.Success? ==>
      var i := Submit(dir, s, q, at).1.value;
      i < |Submit(dir, s, q, at).0.intents| && Submit(dir, s, q, at).0.intents[i].idempotencyKey == TrimSpace(q.idempotencyKey)
  {
    TrimTwice(q.idempotencyKey);
    hide TrimSpace, Record;
  }

  /** Submitting again under a key that an intent already has never stores anything, at any
      later time. It answers with that intent if and only if the key comes without
      surrounding space, since it is looked up as given but stored trimmed. */
  lemma ResubmitFindsIff(dir: map<AgentId, Address>, s: Store, q: Request, at: int, i: nat)
    requires KeysStored(s.intents) && TrimSpace(q.idempotencyKey) != ""
    requires i < |s.intents| && s.intents[i].idempotencyKey == TrimSpace(q.idempotencyKey)
    ensures Submit(dir, s, q, at).0 == s
    ensures Submit(dir, s, q, at).1 == Success(i) <==> TrimSpace(q.idempotencyKey) == q.idempotencyKey
    ensures Submit(dir, s, q, at).1.Success? ==> Submit(dir, s, q, at).1 == Success(i)
  {
    hide TrimSpace, Record;
  }

  /** The same holds when the other request wins the race between lookup and insert. */
  lemma RacedInsertFindsIff(dir: map<AgentId, Address>, s: Store, key: string, payer: AgentId, payee: AgentId,
      amount: int, at: int, i: nat)
    requires KeysStored(s.intents)
    requires i < |s.intents| && s.intents[i].idempotencyKey == TrimSpace(key)
    ensures var r := StoreIntent(dir, s, key, payer, payee, amount, at);
      r.0 == s && r.1 == if TrimSpace(key) == key then Success(i) else Failure(NotStored)
  {
    hide TrimSpace, Record;
  }

  function PaddedRequest(): Request { Request(" k", Some(10), Some(20), "rUSD", Some(5)) }

  /** Such a resubmission, with one space in front: it is refused, although the intent is
      stored. */
  lemma PaddedResubmitRefused(dir: map<AgentId, Address>, at: int)
    requires dir == map[1 := 10, 2 := 20]
    ensures var first := Submit(dir, EmptyStore(), PaddedRequest(), at);
      first.1 == Success(0) && Submit(dir, first.0, PaddedRequest(), at).1 == Failure(NotStored)
  {
    PaddedKey();
    PlainAsset();
    AgentFound(dir, 1);
    AgentFound(dir, 2);
    PaddedIsStored(dir, at);
    hide TrimSpace, AgentOf, StoreIntent, FindKey;
    var s1 := Submit(dir, EmptyStore(), PaddedRequest(), at).0;
    RacedInsertFindsIff(dir, s1, " k", 1, 2, 5, at, 0);
    PaddedIsNotFound(s1.intents);
  }

  lemma PaddedIsStored(dir: map<AgentId, Address>, at: int)
    requires dir == map[1 := 10, 2 := 20]
    requires TrimSpace(" k") == "k" && TrimSpace("rUSD") == "rUSD"
    requires AgentOf(dir, 10) == Some(1) && AgentOf(dir, 20) == Some(2)
    ensures var first := Submit(dir, EmptyStore(), PaddedRequest(), at);
      first.1 == Success(0) && first.0.intents == [NR.NewIntent("k", 1, 2, 5, at)]
  {
    hide TrimSpace, AgentOf;
  }

  lemma PaddedIsNotFound(rows: seq<IntentRow>)
    requires |rows| == 1 && rows[0].idempotencyKey == "k"
    ensures FindKey(rows, " k") == None
  {
  }

  lemma AgentFound(dir: map<AgentId, Address>, a: AgentId)
    requires Directory(dir) && a in dir
    ensures AgentOf(dir, dir[a]) == Some(a)
  {
  }

  lemma PaddedKey()
    ensures TrimSpace(" k") == "k" && TrimSpace("k") == "k"
  {
    assert " k"[1..] == "k";
  }

  lemma PlainAsset()
    ensures TrimSpace("rUSD") == "rUSD" && IsRusd("rUSD") && IsRusd("rusd") && IsRusd("RUSD") && !IsRusd("USD") && !IsRusd("eUSD")
  {
  }
}
