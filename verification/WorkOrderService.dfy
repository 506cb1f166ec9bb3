/** The work-order use case: drafting an order from a spec, and delivering on it. */
module WorkOrderService {
  import opened Wrappers
  import opened Sums
  import opened Identity
  import opened Schema
  import opened WorkOrders
  import opened JournalKeys
  import Backend
  import Escrow

  datatype SpecError = BlankKey | InvalidSpec | BadAmount | UnknownParty | NotUploaded | NotStored

  datatype DeliveryError = NotFound | InvalidSignature | PayeeMismatch | NotFunded | AlreadyPosted

  function FindOrderKey(orders: seq<WorkOrderRow>, key: string): (r: Option<nat>)
    ensures r.Some? ==> r.value < |orders| && orders[r.value].idempotencyKey == key
    ensures r.None? ==> forall w :: 0 <= w < |orders| ==> orders[w].idempotencyKey != key
  {
    if orders == [] then None
    else
      match FindOrderKey(orders[..|orders| - 1], key)
      case Some(w) => Some(w)
      case None => if orders[|orders| - 1].idempotencyKey == key then Some(|orders| - 1) else None
  }

  function FindBound(orders: seq<WorkOrderRow>, id: nat): (r: Option<nat>)
    ensures r.Some? ==> r.value < |orders| && orders[r.value].onchainOrderId == Some(id)
    ensures r.None? ==> forall w :: 0 <= w < |orders| ==> orders[w].onchainOrderId != Some(id)
  {
    if orders == [] then None
    else
      match FindBound(orders[..|orders| - 1], id)
      case Some(w) => Some(w)
      case None => if orders[|orders| - 1].onchainOrderId == Some(id) then Some(|orders| - 1) else None
  }

  /** Why an order refuses a delivery signed by the given wallet, if it does. */
  function Refusal(dir: map<AgentId, Address>, orders: seq<WorkOrderRow>, id: nat,
      signer: Option<Address>): Option<DeliveryError> {
    match FindBound(orders, id)
    case None => Some(NotFound)
    case Some(w) =>
      if signer.None? then Some(InvalidSignature)
      else if !HasWallet(dir, orders[w].provider, signer.value) then Some(PayeeMismatch)
      else if orders[w].status != OrderFunded then Some(NotFunded)
      else if orders[w].deliverableCid.Some? then Some(AlreadyPosted)
      else None
  }

  /** A request after parsing: whether its fields are in order, the agents found for its
      wallets, its amount if it is a decimal integer, and the root hash of the uploaded spec. */
  datatype SpecRequest = SpecRequest(
    key: string,
    wellFormed: bool,
    payer: Option<AgentId>,
    payee: Option<AgentId>,
    amount: Option<int>,
    rootHash: Option<nat>)

  /** Why a request with a new key is refused before anything is stored, if it is. */
  function SpecRefusal(q: SpecRequest): Option<SpecError> {
    if !q.wellFormed then Some(InvalidSpec)
    else if q.amount.None? || q.amount.value <= 0 then Some(BadAmount)
    else if q.payer.None? || q.payee.None? then Some(UnknownParty)
    else if q.rootHash.None? then Some(NotUploaded)
    else None
  }

  /** The insert, in whatever state other requests have left the table by then: when it is
      refused, the key is looked up once more. */
  function StoreOrder(dir: map<AgentId, Address>, s: Store, key: string, payer: AgentId, payee: AgentId, amount: int,
      specHash: nat, at: int): (Store, Result<nat, SpecError>)
  {
    match CreateWorkOrder(dir, s, key, payer, payee, amount, specHash, at)
    case Some(s') => (s', Success(|s.orders|))
    case None =>
      match FindOrderKey(s.orders, key)
      case Some(w) => (s, Success(w))
      case None => (s, Failure(NotStored))
  }

  function Upload(dir: map<AgentId, Address>, s: Store, q: SpecRequest, at: int): (Store, Result<nat, SpecError>) {
    if TrimSpace(q.key) == "" then (s, Failure(BlankKey))
    else if FindOrderKey(s.orders, q.key).Some? then (s, Success(FindOrderKey(s.orders, q.key).value))
    else if SpecRefusal(q).Some? then (s, Failure(SpecRefusal(q).value))
    else StoreOrder(dir, s, q.key, q.payer.value, q.payee.value, q.amount.value, q.rootHash.value, at)
  }

  class WorkOrderService {
    const db: Database

    constructor (db: Database)
      ensures this.db == db
    {
      this.db := db;
    }

    method UploadSpec(dir: map<AgentId, Address>, q: SpecRequest, at: int) returns (r: Result<nat, SpecError>)
      modifies db`orders
      ensures (db.View(), r) == Upload(dir, old(db.View()), q, at)
    {
      if TrimSpace(q.key) == "" {
        return Failure(BlankKey);
      }
      var existing := FindOrderKey(db.orders, q.key);
      if existing.Some? {
        return Success(existing.value);
      }
      if !q.wellFormed {
        return Failure(InvalidSpec);
      }
      if q.amount.None? || q.amount.value <= 0 {
        return Failure(BadAmount);
      }
      if q.payer.None? || q.payee.None? {
        return Failure(UnknownParty);
      }
      if q.rootHash.None? {
        return Failure(NotUploaded);
      }
      r := CreateOrFind(dir, q.key, q.payer.value, q.payee.value, q.amount.value, q.rootHash.value, at);
    }

    method CreateOrFind(dir: map<AgentId, Address>, key: string, payer: AgentId, payee: AgentId, amount: int, specHash: nat, at: int)
      returns (r: Result<nat, SpecError>)
      modifies db`orders
      ensures (db.View(), r) == StoreOrder(dir, old(db.View()), key, payer, payee, amount, specHash, at)
    {
      if OrderInsertable(dir, db.orders, key, payer, payee, amount, specHash) {
        r := Success(|db.orders|);
        db.orders := db.orders + [Draft(key, payer, payee, amount, specHash, at)];
        return;
      }
      var existing := FindOrderKey(db.orders, key);
      if existing.None? {
        return Failure(NotStored);
      }
      return Success(existing.value);
    }

    method SubmitDelivery(dir: map<AgentId, Address>, id: nat, cid: nat, signer: Option<Address>,
        at: int) returns (r: Result<(), DeliveryError>)
      modifies db`orders
      ensures r.Success? <==> Refusal(dir, old(db.orders), id, signer).None?
      ensures r.Failure? ==> r.error == Refusal(dir, old(db.orders), id, signer).value && db.orders == old(db.orders)
      ensures r.Success? ==> db.View() == WorkOrders.SubmitDelivery(old(db.View()), id, cid, at)
    {
      var target := FindBound(db.orders, id);
      if target.None? {
        return Failure(NotFound);
      }
      var o := db.orders[target.value];
      if signer.None? {
        return Failure(InvalidSignature);
      }
      if !HasWallet(dir, o.provider, signer.value) {
        return Failure(PayeeMismatch);
      }
      if o.status != OrderFunded {
        return Failure(NotFunded);
      }
      if o.deliverableCid.Some? {
        return Failure(AlreadyPosted);
      }
      r := PostDelivery(id, cid, at);
    }

    /** The guarded update, in whatever state the table is by then; if it misses, the reason
        is read back. */
    method PostDelivery(id: nat, cid: nat, at: int) returns (r: Result<(), DeliveryError>)
      modifies db`orders
      ensures r.Success? <==> exists w :: 0 <= w < |old(db.orders)| && Deliverable(old(db.orders)[w], id)
      ensures db.View() == WorkOrders.SubmitDelivery(old(db.View()), id, cid, at)
      ensures r.Failure? ==> db.orders == old(db.orders)
      ensures r == Failure(NotFound) <==> forall w :: 0 <= w < |old(db.orders)| ==> old(db.orders)[w].onchainOrderId != Some(id)
      ensures r.Failure? && r != Failure(NotFound) ==>
        exists w :: 0 <= w < |old(db.orders)| && old(db.orders)[w].onchainOrderId == Some(id)
          && r == Failure(if old(db.orders)[w].status == OrderFunded then AlreadyPosted else NotFunded)
    {
      var updated := false;
      ghost var before := db.orders;
      for i := 0 to |db.orders|
        invariant |db.orders| == |before|
        invariant updated <==> exists w :: 0 <= w < i && Deliverable(before[w], id)
        invariant forall w :: 0 <= w < |before| ==>
          db.orders[w] == if w < i && Deliverable(before[w], id) then Delivered(before[w], cid, at) else before[w]
      {
        if Deliverable(db.orders[i], id) {
          db.orders := db.orders[i := Delivered(db.orders[i], cid, at)];
          updated := true;
        }
      }
      if updated {
        return Success(());
      }
      assert db.orders == before;
      var target := FindBound(db.orders, id);
      if target.None? {
        return Failure(NotFound);
      }
      if db.orders[target.value].status != OrderFunded {
        return Failure(NotFunded);
      }
      return Failure(AlreadyPosted);
    }
  }

  /** An upload is answered with an order if and only if its key is in use, or the request is
      in order, its parties are known, and no order has its spec. */
  lemma UploadSucceedsIff(dir: map<AgentId, Address>, s: Store, q: SpecRequest, at: int)
    ensures Upload(dir, s, q, at).1.Success? <==>
      && TrimSpace(q.key) != ""
      && (FindOrderKey(s.orders, q.key).Some?
          || (SpecRefusal(q).None? && q.payer.value in dir && q.payee.value in dir
              && forall w :: 0 <= w < |s.orders| ==> s.orders[w].specHash != q.rootHash.value))
    ensures Upload(dir, s, q, at).1.Failure? ==> Upload(dir, s, q, at).0 == s
  {
    hide TrimSpace;
  }

  /** An upload under an unused key appends one draft and touches nothing else: the payer
      is its creator and the payee its provider, and no column of a later status is set. */
  lemma UploadStoresDraft(dir: map<AgentId, Address>, s: Store, q: SpecRequest, at: int)
    requires Upload(dir, s, q, at).1.Success?
    requires forall w :: 0 <= w < |s.orders| ==> s.orders[w].idempotencyKey != q.key
    ensures var s', w := Upload(dir, s, q, at).0, Upload(dir, s, q, at).1.value;
      && w == |s.orders| && |s'.orders| == |s.orders| + 1 && s'.orders[..w] == s.orders
      && s'.intents == s.intents && s'.batches == s.batches && s'.books == s.books
      && var o := s'.orders[w];
      && q.payer == Some(o.creator) && q.payee == Some(o.provider) && q.amount == Some(o.amount) && q.rootHash == Some(o.specHash)
      && o.idempotencyKey == q.key && o.status == OrderDraft && o.updatedAt == at
      && o.onchainOrderId == None && o.orderTx == None && o.deliverableCid == None && o.deliveredAt == None
      && o.completedAt == None && o.releaseTx == None && o.refundedAt == None && o.refundTx == None
  {
    hide TrimSpace;
  }

  /** The creation event of the order that the payer places for the spec finds that draft,
      under whatever id and wherever it is logged. */
  lemma CreationFindsUpload(dir: map<AgentId, Address>, s: Store, q: SpecRequest, at: int, id: nat, p: LogPosition, later: int)
    requires Backend.OrdersOk(dir, s)
    requires Upload(dir, s, q, at).1.Success?
    requires forall w :: 0 <= w < |s.orders| ==> s.orders[w].idempotencyKey != q.key
    requires q.payer.value in dir && q.payee.value in dir && q.amount.value >= 0
    ensures var e := Escrow.OrderCreated(id, dir[q.payer.value], dir[q.payee.value], q.amount.value, q.rootHash.value);
      FindTarget(dir, Upload(dir, s, q, at).0.orders, Delivery(e, false, p, later)) == Some(|s.orders|)
  {
    var s' := Upload(dir, s, q, at).0;
    var e := Escrow.OrderCreated(id, dir[q.payer.value], dir[q.payee.value], q.amount.value, q.rootHash.value);
    UploadStoresDraft(dir, s, q, at);
    assert forall w :: 0 <= w < |s.orders| ==> s'.orders[w] == s'.orders[..|s.orders|][w];
    hide TrimSpace, FindTarget;
    assert forall w :: 0 <= w < |s.orders| ==> s.orders[w].specHash != q.rootHash.value;
    assert Matches(dir, s'.orders[|s.orders|], Delivery(e, false, p, later));
  }

  /** Each refusal has its reason, and the first one is given. */
  lemma UploadRefusals(dir: map<AgentId, Address>, s: Store, q: SpecRequest, at: int)
    ensures var r := Upload(dir, s, q, at).1;
      var unused := TrimSpace(q.key) != "" && forall w :: 0 <= w < |s.orders| ==> s.orders[w].idempotencyKey != q.key;
      var amountOk := q.amount.Some? && q.amount.value > 0;
      var known := q.payer.Some? && q.payee.Some?;
      && (r == Failure(BlankKey) <==> TrimSpace(q.key) == "")
      && (r == Failure(InvalidSpec) <==> unused && !q.wellFormed)
      && (r == Failure(BadAmount) <==> unused && q.wellFormed && !amountOk)
      && (r == Failure(UnknownParty) <==> unused && q.wellFormed && amountOk && !known)
      && (r == Failure(NotUploaded) <==> unused && q.wellFormed && amountOk && known && q.rootHash.None?)
  {
    hide TrimSpace;
  }

  /** The key is stored as given, so a second upload under it, whatever else it says and
      whatever was added in between, answers with the same order and stores nothing. */
  lemma ReuploadAnswersFirst(dir: map<AgentId, Address>, s: Store, q: SpecRequest, at: int, t: Store, again: SpecRequest, later: int)
    requires Upload(dir, s, q, at).1.Success? && again.key == q.key
    requires |Upload(dir, s, q, at).0.orders| <= |t.orders|
    requires forall w :: 0 <= w < |Upload(dir, s, q, at).0.orders| ==>
      t.orders[w].idempotencyKey == Upload(dir, s, q, at).0.orders[w].idempotencyKey
    ensures Upload(dir, t, again, later) == (t, Upload(dir, s, q, at).1)
  {
    hide TrimSpace;
    var orders := Upload(dir, s, q, at).0.orders;
    if FindOrderKey(s.orders, q.key).None? {
      assert orders[..|s.orders|] == s.orders;
      assert FindOrderKey(orders, q.key) == Some(|s.orders|);
    }
    FirstKeyStays(orders, t.orders, q.key);
  }

  lemma {:induction false} FirstKeyStays(orders: seq<WorkOrderRow>, later: seq<WorkOrderRow>, key: string)
    requires |orders| <= |later|
    requires forall w :: 0 <= w < |orders| ==> later[w].idempotencyKey == orders[w].idempotencyKey
    requires FindOrderKey(orders, key).Some?
    ensures FindOrderKey(later, key) == FindOrderKey(orders, key)
  {
    if |orders| < |later| {
      FirstKeyStays(orders, later[..|later| - 1], key);
    } else {
      SameKeys(orders, later, key);
    }
  }

  lemma {:induction false} SameKeys(orders: seq<WorkOrderRow>, later: seq<WorkOrderRow>, key: string)
    requires |orders| == |later|
    requires forall w :: 0 <= w < |orders| ==> later[w].idempotencyKey == orders[w].idempotencyKey
    ensures FindOrderKey(later, key) == FindOrderKey(orders, key)
  {
    if orders != [] {
      SameKeys(orders[..|orders| - 1], later[..|later| - 1], key);
    }
  }

  /** A delivery is accepted exactly for the one order bound to the id, and changes that
      order's delivery columns and nothing else. */
  lemma DeliveryTouchesOneOrder(dir: map<AgentId, Address>, s: Store, id: nat, cid: nat, signer: Option<Address>,
      at: int)
    requires Backend.OrdersOk(dir, s)
    requires Refusal(dir, s.orders, id, signer).None?
    ensures var w := FindBound(s.orders, id).value;
      && s.orders[w].onchainOrderId == Some(id) && s.orders[w].status == OrderFunded && s.orders[w].deliverableCid == None
      && WorkOrders.SubmitDelivery(s, id, cid, at) == s.(orders := s.orders[w :=
           s.orders[w].(deliverableCid := Some(cid), deliveredAt := Some(at), updatedAt := at)])
      && signer.Some? && dir[s.orders[w].provider] == signer.value
  {
    var w := FindBound(s.orders, id).value;
    assert forall v :: 0 <= v < |s.orders| && s.orders[v].onchainOrderId == Some(id) ==> v == w;
    assert WorkOrders.SubmitDelivery(s, id, cid, at).orders == s.orders[w := Delivered(s.orders[w], cid, at)];
  }

  /** Each refusal of a delivery has its reason, and the first one is given. */
  lemma DeliveryRefusals(dir: map<AgentId, Address>, orders: seq<WorkOrderRow>, id: nat, signer: Option<Address>)
    ensures var r := Refusal(dir, orders, id, signer);
      && (r == Some(NotFound) <==> forall w :: 0 <= w < |orders| ==> orders[w].onchainOrderId != Some(id))
      && (r.Some? && r != Some(NotFound) ==>
            exists w :: 0 <= w < |orders| && orders[w].onchainOrderId == Some(id) && r == Some(
              if signer == None then InvalidSignature
              else if !(orders[w].provider in dir && dir[orders[w].provider] == signer.value) then PayeeMismatch
              else if orders[w].status != OrderFunded then NotFunded
              else AlreadyPosted))
      && (r.None? ==>
            exists w :: 0 <= w < |orders| && orders[w].onchainOrderId == Some(id) && orders[w].status == OrderFunded
              && orders[w].deliverableCid == None && signer.Some? && orders[w].provider in dir && dir[orders[w].provider] == signer.value)
  {
  }

  /** What was delivered stays: through releases, refunds, and rollbacks of the funding. An
      order that is funded again after a rollback therefore accepts no second delivery. */
  lemma {:induction false} DeliveredOnce(dir: map<AgentId, Address>, trace: seq<Backend.System>,
      steps: seq<Backend.Step>, i: nat, j: nat, w: nat)
    requires Backend.IsRun(dir, trace, steps) && i <= j < |trace|
    requires w < |trace[i].store.orders| && trace[i].store.orders[w].deliverableCid.Some?
    ensures w < |trace[j].store.orders|
    ensures trace[j].store.orders[w].deliverableCid == trace[i].store.orders[w].deliverableCid
    ensures trace[j].store.orders[w].deliveredAt == trace[i].store.orders[w].deliveredAt
    ensures forall id :: !Deliverable(trace[j].store.orders[w], id)
  {
    if i < j {
      DeliveredOnce(dir, trace, steps, i, j - 1, w);
      assert trace[j] == Backend.After(dir, trace[j - 1], steps[j - 1]);
      StepKeepsDelivery(dir, trace[j - 1], steps[j - 1], w);
    }
  }

  /** In every run a delivery that reaches a funded order without one is that order's
      delivery from then on, with its time. */
  lemma DeliveryRecorded(dir: map<AgentId, Address>, trace: seq<Backend.System>, steps: seq<Backend.Step>, i: nat, j: nat,
      w: nat, id: nat, cid: nat, at: int)
    requires Backend.IsRun(dir, trace, steps) && i < j < |trace|
    requires steps[i] == Backend.SubmitDeliveryStep(id, cid, at)
    requires w < |trace[i].store.orders|
    requires var o := trace[i].store.orders[w];
      o.onchainOrderId == Some(id) && o.status == OrderFunded && o.deliverableCid == None
    ensures w < |trace[j].store.orders|
    ensures trace[j].store.orders[w].deliverableCid == Some(cid) && trace[j].store.orders[w].deliveredAt == Some(at)
  {
    assert trace[i + 1] == Backend.After(dir, trace[i], steps[i]);
    assert trace[i + 1].store.orders[w].deliverableCid == Some(cid);
    DeliveredOnce(dir, trace, steps, i + 1, j, w);
  }

  lemma StepKeepsDelivery(dir: map<AgentId, Address>, s: Backend.System, step: Backend.Step, w: nat)
    requires w < |s.store.orders| && s.store.orders[w].deliverableCid.Some?
    ensures w < |Backend.After(dir, s, step).store.orders|
    ensures Backend.After(dir, s, step).store.orders[w].deliverableCid == s.store.orders[w].deliverableCid
    ensures Backend.After(dir, s, step).store.orders[w].deliveredAt == s.store.orders[w].deliveredAt
  {
  }
}
