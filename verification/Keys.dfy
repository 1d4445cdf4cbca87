/** The idempotency keys as the strings the code builds. `id` renders a payment's id; it
    is injective and uses no colon, as for UUIDs. */
module Keys {
  import opened Domain
  import opened Sums
  import opened Repositories
  import opened Workers
  import opened Resolvers
  import opened Lifecycles
  import opened Controls
  import opened Apis
  import opened Machine
  import opened Rows
  import opened Consistency
  import opened Safety
  import opened Frames

  ghost predicate Ids(id: nat -> string) {
    && (forall p: nat, q: nat :: id(p) == id(q) ==> p == q)
    && (forall p: nat :: ':' !in id(p))
  }

  predicate IsDigit(c: char) {
    '0' <= c <= '9'
  }

  /** The decimal digits of a number, at least n of them. */
  function Digits(c: nat, n: nat): (s: string)
    ensures |s| >= n && s != []
    ensures forall i :: 0 <= i < |s| ==> IsDigit(s[i])
    decreases c + n
  {
    var last := [('0' as int + c % 10) as char];
    if c < 10 && n <= 1 then last else Digits(c / 10, if n > 0 then n - 1 else 0) + last
  }

  function Read(s: string): int {
    if s == [] then 0 else 10 * Read(s[..|s| - 1]) + s[|s| - 1] as int - '0' as int
  }

  lemma {:induction false} DigitsRead(c: nat, n: nat)
    ensures Read(Digits(c, n)) == c
    decreases c + n
  {
    var s := Digits(c, n);
    if c < 10 && n <= 1 {
      assert s[..0] == [];
    } else {
      var front := Digits(c / 10, if n > 0 then n - 1 else 0);
      assert s[..|s| - 1] == front;
      DigitsRead(c / 10, if n > 0 then n - 1 else 0);
    }
  }

  /** The amount as text, its scale's worth of digits after the point. */
  function Text(a: Amount): (s: string)
    ensures ':' !in s
  {
    var digits := Digits(a.coefficient, a.scale + 1);
    var whole := |digits| - a.scale;
    if a.scale == 0 then digits else digits[..whole] + "." + digits[whole..]
  }

  lemma TextShowsScale(a: Amount)
    ensures var s := Text(a);
            && (a.scale == 0 ==> '.' !in s)
            && (a.scale > 0 ==> |s| > a.scale && s[|s| - 1 - a.scale] == '.'
                                && forall i :: 0 <= i < |s| && i != |s| - 1 - a.scale ==> s[i] != '.')
  {
  }

  /** Amounts with different texts are different, and the other way about: 5.0 is not 5.00. */
  lemma TextIsInjective(a: Amount, b: Amount)
    ensures Text(a) == Text(b) <==> a == b
  {
    if Text(a) == Text(b) {
      TextShowsScale(a);
      TextShowsScale(b);
      var s := Text(a);
      if a.scale > 0 {
        assert s[|s| - 1 - a.scale] == '.';
      }
      if b.scale > 0 {
        assert s[|s| - 1 - b.scale] == '.';
      }
      assert a.scale == b.scale;
      var d, e := Digits(a.coefficient, a.scale + 1), Digits(b.coefficient, b.scale + 1);
      if a.scale > 0 {
        var point := |s| - 1 - a.scale;
        assert d == s[..point] + s[point + 1..] && e == s[..point] + s[point + 1..];
      }
      DigitsRead(a.coefficient, a.scale + 1);
      DigitsRead(b.coefficient, b.scale + 1);
    }
  }

  function Join(prefix: string, id: string, suffix: string): string {
    prefix + ":" + id + ":" + suffix
  }

  /** Parts free of colons can be told apart at the first colon. */
  lemma ColonSplits(a: string, b: string, c: string, d: string)
    requires ':' !in a && ':' !in c && a + ":" + b == c + ":" + d
    ensures a == c && b == d
  {
    var s, t := a + ":" + b, c + ":" + d;
    assert s[|a|] == ':' && t[|c|] == ':';
    assert forall i :: 0 <= i < |a| ==> s[i] == a[i] && a[i] in a;
    assert forall i :: 0 <= i < |c| ==> t[i] == c[i] && c[i] in c;
    assert |a| == |c|;
    assert a == s[..|a|] && c == t[..|c|];
    assert b == s[|a| + 1..] && d == t[|c| + 1..];
  }

  lemma JoinSplits(a: string, x: string, s: string, b: string, y: string, t: string)
    requires ':' !in a && ':' !in b && ':' !in x && ':' !in y && Join(a, x, s) == Join(b, y, t)
    ensures a == b && x == y && s == t
  {
    assert Join(a, x, s) == a + ":" + (x + ":" + s);
    assert Join(b, y, t) == b + ":" + (y + ":" + t);
    ColonSplits(a, x + ":" + s, b, y + ":" + t);
    ColonSplits(x, s, y, t);
  }

  function RefundSuffix(a: Amount, currency: Currency): string {
    "refund:" + Text(a) + ":" + currency
  }

  lemma RefundSuffixSplits(a: Amount, c: Currency, b: Amount, d: Currency)
    requires RefundSuffix(a, c) == RefundSuffix(b, d)
    ensures a == b && c == d
  {
    var left, right := Text(a) + ":" + c, Text(b) + ":" + d;
    assert RefundSuffix(a, c) == "refund:" + left && RefundSuffix(b, d) == "refund:" + right;
    assert left == RefundSuffix(a, c)[7..] && right == RefundSuffix(b, d)[7..];
    ColonSplits(Text(a), c, Text(b), d);
    TextIsInjective(a, b);
  }

  function OpSuffix(k: OpKey): string {
    match k
    case ChargeKey(_) => "charge"
    case CaptureKey(_) => "capture"
    case VoidKey(_) => "void"
    case RefundKey(_, a, c) => RefundSuffix(a, c)
  }

  function OpText(id: nat -> string, k: OpKey): string {
    Join("payment", id(k.payment), OpSuffix(k))
  }

  function TxPrefix(k: TxKey): string {
    if k.TxCaptureByEvent? then "payment" else "tx"
  }

  function TxSuffix(k: TxKey): string {
    match k
    case TxCapture(_) => "capture"
    case TxCaptureByEvent(_) => "capture:transaction"
    case TxCaptureFailed(_) => "capture:failed"
    case TxVoid(_) => "void"
    case TxVoidFailed(_) => "void:failed"
    case TxRefund(_, a, c) => RefundSuffix(a, c)
  }

  function TxText(id: nat -> string, k: TxKey): string {
    Join(TxPrefix(k), id(k.payment), TxSuffix(k))
  }

  /** A capture's journal goes under the key of the capture operation, a refund's under
      the key of the refund operation. */
  function JournalText(id: nat -> string, k: JournalKey): string {
    match k
    case JCapture(p) => OpText(id, CaptureKey(p))
    case JRefund(p, a, c) => OpText(id, RefundKey(p, a, c))
  }

  lemma OpSuffixStarts(k: OpKey)
    ensures OpSuffix(k) != [] && (OpSuffix(k)[0] == 'r' <==> k.RefundKey?)
  {
  }

  lemma TxSuffixStarts(k: TxKey)
    ensures TxSuffix(k) != [] && (TxSuffix(k)[0] == 'r' <==> k.TxRefund?)
  {
  }

  /** Operation keys differ as strings whenever payment, kind, refund amount or refund
      currency differ. */
  lemma OpTextIsInjective(id: nat -> string, k: OpKey, m: OpKey)
    requires Ids(id)
    ensures OpText(id, k) == OpText(id, m) <==> k == m
  {
    if OpText(id, k) == OpText(id, m) {
      JoinSplits("payment", id(k.payment), OpSuffix(k), "payment", id(m.payment), OpSuffix(m));
      OpSuffixStarts(k);
      OpSuffixStarts(m);
      if k.RefundKey? {
        RefundSuffixSplits(k.amount, k.currency, m.amount, m.currency);
      }
    }
  }

  lemma TxTextIsInjective(id: nat -> string, k: TxKey, m: TxKey)
    requires Ids(id)
    ensures TxText(id, k) == TxText(id, m) <==> k == m
  {
    if TxText(id, k) == TxText(id, m) {
      JoinSplits(TxPrefix(k), id(k.payment), TxSuffix(k), TxPrefix(m), id(m.payment), TxSuffix(m));
      TxSuffixStarts(k);
      TxSuffixStarts(m);
      if k.TxRefund? {
        RefundSuffixSplits(k.amount, k.currency, m.amount, m.currency);
      }
    }
  }

  lemma JournalTextIsInjective(id: nat -> string, k: JournalKey, m: JournalKey)
    requires Ids(id)
    ensures JournalText(id, k) == JournalText(id, m) <==> k == m
  {
    OpTextIsInjective(id, if k.JCapture? then CaptureKey(k.payment) else RefundKey(k.payment, k.amount, k.currency),
                      if m.JCapture? then CaptureKey(m.payment) else RefundKey(m.payment, m.amount, m.currency));
  }

  // --- operation rows over runs ---

  /** Rows are only added; a row there may change its status and nothing else. */
  ghost predicate OpsGrow(before: seq<Operation>, after: seq<Operation>) {
    && |before| <= |after|
    && forall i :: 0 <= i < |before| ==> after[i].(status := before[i].status) == before[i]
  }

  lemma FinishKeepsOps(db: Db, e: Execution, customer: nat, clearing: nat, outcome: Outcome)
    ensures OpsGrow(db.operations, Commit(db, FinishSpec(db, e, customer, clearing, outcome)).operations)
  {
    hide Sum, Find;
  }

  lemma ResolveKeepsOps(db: Db, event: nat, op: nat, outcome: Outcome, customer: nat, clearing: nat)
    ensures OpsGrow(db.operations, Commit(db, ResolveSpec(db, event, op, outcome, customer, clearing)).operations)
  {
    hide Sum, Find;
  }

  lemma CaptureKeepsOps(db: Db, p: nat, amount: Money, currency: Currency, customer: nat, clearing: nat, answer: Outcome)
    ensures OpsGrow(db.operations, Commit(db, CaptureSpec(db, p, amount, currency, customer, clearing, answer)).operations)
  {
    hide Sum, Find;
  }

  lemma VoidKeepsOps(db: Db, p: nat, amount: Money, currency: Currency, answer: Outcome)
    ensures OpsGrow(db.operations, Commit(db, VoidSpec(db, p, amount, currency, answer)).operations)
  {
    hide Sum, Find;
  }

  lemma RefundKeepsOps(db: Db, p: nat, requested: Amount, currency: Currency, customer: nat, clearing: nat, answer: Outcome)
    ensures OpsGrow(db.operations, Commit(db, RefundSpec(db, p, requested, currency, customer, clearing, answer)).operations)
  {
    hide Sum, Find;
  }

  lemma StepKeepsOps(catalog: seq<PolicyVersion>, w: World, s: Step)
    ensures OpsGrow(w.db.operations, Apply(catalog, w, s).db.operations)
  {
    hide Sum, Find, CreateSpec, ApproveSpec, DenySpec, BirthSpec, FinishSpec, ResolveSpec, CaptureSpec, VoidSpec, RefundSpec;
    match s
    case Begin(_) =>
    case Charge(_, _) =>
    case ReceiveEvent(_) =>
    case Finish(k, customer, clearing) =>
      if k < |w.workers| && w.workers[k].outcome.Some? {
        FinishKeepsOps(w.db, w.workers[k].execution, customer, clearing, w.workers[k].outcome.value);
      }
    case Resolve(event, op, outcome, customer, clearing) => ResolveKeepsOps(w.db, event, op, outcome, customer, clearing);
    case Capture(p, amount, currency, customer, clearing, answer) =>
      CaptureKeepsOps(w.db, p, amount, currency, customer, clearing, answer);
    case Void(p, amount, currency, answer) => VoidKeepsOps(w.db, p, amount, currency, answer);
    case Refund(p, requested, currency, customer, clearing, answer) =>
      RefundKeepsOps(w.db, p, requested, currency, customer, clearing, answer);
    case _ => AdmissionFrame(catalog, w, s);
  }

  predicate SameText(id: nat -> string, a: Operation, b: Operation) {
    OpText(id, a.key) == OpText(id, b.key)
  }

  /** No operation row is ever re-bound: after any run no two rows share a key text, a row
      once there keeps its payment, kind and key at the next step, and asking for any
      key's operation finds or makes that key's own row and never conflicts. */
  lemma OperationsAreNeverRebound(catalog: seq<PolicyVersion>, start: World, steps: seq<Step>, s: Step, id: nat -> string,
                                  key: OpKey)
    requires Init(start) && Ids(id)
    ensures var db := Execute(catalog, start, steps).db;
            && (forall i: nat, j: nat ::
                  i < |db.operations| && j < |db.operations| && SameText(id, db.operations[i], db.operations[j]) ==> i == j)
            && OpsGrow(db.operations, Apply(catalog, Execute(catalog, start, steps), s).db.operations)
            && (key.payment < |db.payments| ==>
                  var a := RegisterOperation(db, key.payment, KindOf(key), key);
                  a.Done? && a.value < |a.db.operations|
                  && a.db.operations[a.value].key == key && a.db.operations[a.value].payment == key.payment)
  {
    hide Sum, Apply, OpText, TxRows, JournalRows, HoldRows, OpsGrow;
    Reached(catalog, start, steps);
    var w := Execute(catalog, start, steps);
    StepKeepsOps(catalog, w, s);
    var ops := w.db.operations;
    forall i: nat, j: nat | i < |ops| && j < |ops| && SameText(id, ops[i], ops[j])
      ensures i == j
    {
      OpTextIsInjective(id, ops[i].key, ops[j].key);
      if i != j {
        SumAtLeastTwo(ops, OpKeyCount(ops[i].key), if i < j then i else j, if i < j then j else i);
      }
    }
    if key.payment < |w.db.payments| {
      RegisterSound(w.db, key.payment, key);
      var i := Find(ops, OpHasKey(key));
      if i >= 0 {
        assert OpRow(|w.db.payments|, ops[i]);
      }
    }
  }
}
