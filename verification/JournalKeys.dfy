/** The text of journal idempotency keys, and that distinct entries never share one. */
module JournalKeys {
  import opened Schema

  /** Where on the chain an event was logged, as the webhook reports it. */
  datatype LogPosition = LogPosition(txHash: string, blockNumber: string, logIndex: string)

  predicate IsSpace(c: char) {
    c == ' ' || c == '\t' || c == '\n' || c == '\r' || c == '\U{0B}' || c == '\U{0C}' || c == '\U{85}' || c == '\U{A0}'
  }

  function TrimSpace(s: string): string {
    if s == "" then ""
    else if IsSpace(s[0]) then TrimSpace(s[1..])
    else if IsSpace(s[|s| - 1]) then TrimSpace(s[..|s| - 1])
    else s
  }

  function Decimal(n: nat): string {
    if n < 10 then [Digit(n)] else Decimal(n / 10) + [Digit(n % 10)]
  }

  function Digit(n: nat): char
    requires n < 10
  {
    "0123456789"[n]
  }

  /** Transaction, block and log index; the transaction alone when the others are unknown;
      the order id when even the transaction is. */
  function EventId(p: LogPosition, onchainOrderId: nat): string {
    var tx, block, log := TrimSpace(p.txHash), TrimSpace(p.blockNumber), TrimSpace(p.logIndex);
    if tx == "" then Decimal(onchainOrderId)
    else if block != "" || log != "" then tx + ":" + block + ":" + log
    else tx
  }

  function ActionToken(a: EscrowAction): string {
    match a
    case RecordCreated => "order_created"
    case RollbackCreated => "order_created_rollback"
    case RecordReleased => "order_released"
    case RollbackReleased => "order_released_rollback"
    case RecordRefunded => "order_refunded"
    case RollbackRefunded => "order_refunded_rollback"
  }

  /** The ids of each table's rows, as text. */
  datatype Uuids = Uuids(intent: nat -> string, batch: nat -> string, order: nat -> string)

  function KeyText(u: Uuids, k: JournalKey): string {
    match k
    case AccrualKey(i) => "payment_intent" + ":" + (u.intent(i) + ":" + "accrual")
    case SettlementKey(b) => "netting_batch" + ":" + (u.batch(b) + ":" + "settlement")
    case EscrowKey(w, a, e) => "work_order" + ":" + (u.order(w) + ":" + (ActionToken(a) + ":" + e))
  }

  /** Trimming leaves a part of the text without space at either end. */
  lemma {:induction false} TrimmedEnds(s: string)
    ensures var t := TrimSpace(s); t != "" ==> !IsSpace(t[0]) && !IsSpace(t[|t| - 1])
  {
    if s != "" {
      if IsSpace(s[0]) {
        TrimmedEnds(s[1..]);
      } else if IsSpace(s[|s| - 1]) {
        TrimmedEnds(s[..|s| - 1]);
      }
    }
  }

  predicate Spaces(s: string) {
    forall c :: c in s ==> IsSpace(c)
  }

  /** What it takes off is space. */
  lemma {:induction false} TrimmedAway(s: string) returns (before: string, after: string)
    ensures Spaces(before) && Spaces(after)
    ensures before + TrimSpace(s) + after == s
  {
    before, after := "", "";
    if s != "" {
      if IsSpace(s[0]) {
        before, after := TrimmedAway(s[1..]);
        before := [s[0]] + before;
        assert [s[0]] + s[1..] == s;
      } else if IsSpace(s[|s| - 1]) {
        before, after := TrimmedAway(s[..|s| - 1]);
        after := after + [s[|s| - 1]];
        assert s[..|s| - 1] + [s[|s| - 1]] == s;
      }
    }
  }

  lemma Rejoined(a: string, b: string, c: string)
    ensures a + ":" + (b + ":" + c) == (a + ":") + b + (":" + c)
  {
  }

  /** The rendered keys of an accrual, a settlement and an escrow entry. */
  lemma KeyTexts(u: Uuids, row: nat, a: EscrowAction, e: string)
    ensures KeyText(u, AccrualKey(row)) == "payment_intent:" + u.intent(row) + ":accrual"
    ensures KeyText(u, SettlementKey(row)) == "netting_batch:" + u.batch(row) + ":settlement"
    ensures KeyText(u, EscrowKey(row, a, e)) == "work_order:" + u.order(row) + (":" + (ActionToken(a) + ":" + e))
  {
    Rejoined("payment_intent", u.intent(row), "accrual");
    Rejoined("netting_batch", u.batch(row), "settlement");
    Rejoined("work_order", u.order(row), ActionToken(a) + ":" + e);
    assert "payment_intent" + ":" == "payment_intent:" && ":" + "accrual" == ":accrual";
    assert "netting_batch" + ":" == "netting_batch:" && ":" + "settlement" == ":settlement";
    assert "work_order" + ":" == "work_order:";
    hide ActionToken;
  }

  /** All these are space. */
  lemma SpacesTrimmed()
    ensures TrimSpace("\t\n k\r") == "k"
    ensures TrimSpace("\U{0B}k\U{0C}") == "k"
    ensures TrimSpace("\U{85}k\U{A0}") == "k"
  {
    assert "\t\n k\r"[1..] == "\n k\r" && "\n k\r"[1..] == " k\r" && " k\r"[1..] == "k\r" && "k\r"[..1] == "k";
    assert "\U{0B}k\U{0C}"[1..] == "k\U{0C}" && "k\U{0C}"[..1] == "k";
    assert "\U{85}k\U{A0}"[1..] == "k\U{A0}" && "k\U{A0}"[..1] == "k";
  }

  predicate ColonFree(s: string) {
    ':' !in s
  }

  /** Text ids are colon-free and tell rows of one table apart. */
  ghost predicate FaithfulIds(id: nat -> string) {
    && (forall i :: ColonFree(id(i)))
    && (forall i, j :: id(i) == id(j) ==> i == j)
  }

  ghost predicate Faithful(u: Uuids) {
    FaithfulIds(u.intent) && FaithfulIds(u.batch) && FaithfulIds(u.order)
  }

  /** The first colon separates uniquely. */
  lemma SplitUnique(a: string, x: string, b: string, y: string)
    requires ColonFree(a) && ColonFree(b)
    requires a + ":" + x == b + ":" + y
    ensures a == b && x == y
  {
    var s := a + ":" + x;
    assert forall i :: 0 <= i < |a| ==> s[i] == a[i] && s[i] != ':';
    assert forall i :: 0 <= i < |b| ==> s[i] == b[i] && s[i] != ':';
    assert s[|a|] == ':' && s[|b|] == ':';
    assert |a| == |b|;
    assert a == s[..|a|] && b == s[..|b|];
    assert x == s[|a| + 1..] && y == s[|b| + 1..];
  }

  lemma ActionTokensDiffer(a: EscrowAction, b: EscrowAction)
    ensures ColonFree(ActionToken(a))
    ensures ActionToken(a) == ActionToken(b) ==> a == b
  {
    assert |ActionToken(a)| == |ActionToken(b)| && ActionToken(a)[6] == ActionToken(b)[6] && ActionToken(a)[8] == ActionToken(b)[8] ==> a == b;
  }

  /** The unique constraint on the rendered key is a unique constraint on its parts: escrow,
      accrual and settlement keys never collide with one another or among themselves. */
  lemma KeysInjective(u: Uuids, k: JournalKey, l: JournalKey)
    requires Faithful(u)
    requires KeyText(u, k) == KeyText(u, l)
    ensures k == l
  {
    var (hk, tk) := HeadAndTail(u, k);
    var (hl, tl) := HeadAndTail(u, l);
    SplitUnique(hk, tk, hl, tl);
    assert |hk| == |hl|;
    match k
    case AccrualKey(i) => SplitUnique(u.intent(i), "accrual", u.intent(l.intent), "accrual");
    case SettlementKey(b) => SplitUnique(u.batch(b), "settlement", u.batch(l.batch), "settlement");
    case EscrowKey(w, a, e) =>
      SplitUnique(u.order(w), ActionToken(a) + ":" + e, u.order(l.workOrder), ActionToken(l.action) + ":" + l.eventId);
      ActionTokensDiffer(a, l.action);
      ActionTokensDiffer(l.action, a);
      SplitUnique(ActionToken(a), e, ActionToken(l.action), l.eventId);
  }

  ghost function HeadAndTail(u: Uuids, k: JournalKey): (r: (string, string))
    ensures KeyText(u, k) == r.0 + ":" + r.1
    ensures ColonFree(r.0)
    ensures |r.0| == match k { case AccrualKey(_) => 14 case SettlementKey(_) => 13 case EscrowKey(_, _, _) => 10 }
    ensures r.1 == match k {
      case AccrualKey(i) => u.intent(i) + ":" + "accrual"
      case SettlementKey(b) => u.batch(b) + ":" + "settlement"
      case EscrowKey(w, a, e) => u.order(w) + ":" + (ActionToken(a) + ":" + e)
    }
  {
    match k
    case AccrualKey(i) => ("payment_intent", u.intent(i) + ":" + "accrual")
    case SettlementKey(b) => ("netting_batch", u.batch(b) + ":" + "settlement")
    case EscrowKey(w, a, e) => ("work_order", u.order(w) + ":" + (ActionToken(a) + ":" + e))
  }

  // ---- Event ids ----

  /** Text without spaces or colons. */
  predicate Plain(s: string) {
    forall c :: c in s ==> c != ':' && !IsSpace(c)
  }

  /** What identifies an event to the backend: its place on the chain, or its order. */
  datatype EventIdentity = ByLog(position: LogPosition) | ByOrder(onchainOrderId: nat)

  function IdentityOf(p: LogPosition, onchainOrderId: nat): EventIdentity {
    if p.txHash == "" then ByOrder(onchainOrderId) else ByLog(p)
  }

  predicate WellFormedPosition(p: LogPosition) {
    && Plain(p.txHash) && Plain(p.blockNumber) && Plain(p.logIndex)
    && (p.txHash != "" ==> 2 <= |p.txHash| && p.txHash[0] == '0' && p.txHash[1] == 'x')
  }

  lemma TrimPlain(s: string)
    requires Plain(s)
    ensures TrimSpace(s) == s
  {
    if s != "" {
      assert s[0] in s && s[|s| - 1] in s;
    }
  }

  lemma {:induction false} DecimalDigits(n: nat)
    ensures forall c :: c in Decimal(n) ==> '0' <= c <= '9'
    ensures Decimal(n) != ""
  {
    if n >= 10 {
      DecimalDigits(n / 10);
    }
  }

  lemma {:induction false} DecimalInjective(m: nat, n: nat)
    requires Decimal(m) == Decimal(n)
    ensures m == n
  {
    DecimalDigits(m / 10);
    DecimalDigits(n / 10);
    if m < 10 && n < 10 {
      DigitInjective(m, n);
    } else if m >= 10 && n >= 10 {
      assert Decimal(m)[..|Decimal(m)| - 1] == Decimal(m / 10);
      assert Decimal(n)[..|Decimal(n)| - 1] == Decimal(n / 10);
      assert Decimal(m)[|Decimal(m)| - 1] == Digit(m % 10);
      assert Decimal(n)[|Decimal(n)| - 1] == Digit(n % 10);
      DecimalInjective(m / 10, n / 10);
      DigitInjective(m % 10, n % 10);
    }
  }

  lemma DigitInjective(m: nat, n: nat)
    requires m < 10 && n < 10
    requires Digit(m) == Digit(n)
    ensures m == n
  {
  }

  /** Distinct events have distinct ids. */
  lemma EventIdsInjective(p: LogPosition, k: nat, q: LogPosition, l: nat)
    requires WellFormedPosition(p) && WellFormedPosition(q)
    requires EventId(p, k) == EventId(q, l)
    ensures IdentityOf(p, k) == IdentityOf(q, l)
  {
    if p.txHash != "" { LogIdShape(p, k); } else { OrderIdShape(p, k); }
    if q.txHash != "" { LogIdShape(q, l); } else { OrderIdShape(q, l); }
    if p.txHash == "" && q.txHash == "" {
      DecimalInjective(k, l);
    } else if p.txHash != "" && q.txHash != "" {
      LogIdsInjective(p, q, k, l);
    }
  }

  lemma OrderIdShape(p: LogPosition, k: nat)
    requires p.txHash == ""
    ensures EventId(p, k) == Decimal(k)
    ensures forall i :: 0 <= i < |EventId(p, k)| ==> EventId(p, k)[i] != 'x'
  {
    DecimalDigits(k);
    forall i | 0 <= i < |Decimal(k)|
      ensures Decimal(k)[i] != 'x'
    {
      assert Decimal(k)[i] in Decimal(k);
    }
  }

  /** A log id starts with the transaction hash, and has a colon exactly when the block or
      the log index is known. */
  lemma LogIdShape(p: LogPosition, k: nat)
    requires WellFormedPosition(p) && p.txHash != ""
    ensures |EventId(p, k)| >= 2 && EventId(p, k)[1] == 'x'
    ensures p.blockNumber == "" && p.logIndex == "" ==> EventId(p, k) == p.txHash && ':' !in EventId(p, k)
    ensures p.blockNumber != "" || p.logIndex != "" ==>
      EventId(p, k) == p.txHash + ":" + (p.blockNumber + ":" + p.logIndex) && ':' in EventId(p, k)
  {
    TrimPlain(p.txHash);
    TrimPlain(p.blockNumber);
    TrimPlain(p.logIndex);
    if p.blockNumber != "" || p.logIndex != "" {
      assert EventId(p, k) == p.txHash + ":" + (p.blockNumber + ":" + p.logIndex);
      assert EventId(p, k)[|p.txHash|] == ':';
    }
  }

  lemma LogIdsInjective(p: LogPosition, q: LogPosition, k: nat, l: nat)
    requires WellFormedPosition(p) && WellFormedPosition(q) && p.txHash != "" && q.txHash != ""
    requires EventId(p, k) == EventId(q, l)
    ensures p == q
  {
    LogIdShape(p, k);
    LogIdShape(q, l);
    if p.blockNumber != "" || p.logIndex != "" {
      SplitUnique(p.txHash, p.blockNumber + ":" + p.logIndex, q.txHash, q.blockNumber + ":" + q.logIndex);
      SplitUnique(p.blockNumber, p.logIndex, q.blockNumber, q.logIndex);
    }
  }

  /** Event ids of one position each: complete, by transaction alone, by order alone. */
  lemma EventIdTexts()
    ensures EventId(LogPosition("0x", "1", "2"), 5) == "0x:1:2"
    ensures EventId(LogPosition("0x", "", ""), 5) == "0x"
    ensures EventId(LogPosition("", "", ""), 5) == "5"
  {
    TrimPlain("0x");
    TrimPlain("1");
    TrimPlain("2");
  }
}
