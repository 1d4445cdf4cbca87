/** The view of one payment as a small state machine. Every step of the system is,
    for every payment, one of these moves. */
module Moves {
  import opened Domain
  import opened Views
  import opened Effects
  import opened Lifecycles
  import opened Admission

  datatype Move =
    | Stay
    | Start                                             // a worker begins
    | Settle(outcome: Outcome)                          // a worker finalizes
    | Hear(kind: OpKind, was: OpStatus, outcome: Outcome)  // an event is applied
    | CardCapture(answer: Outcome)
    | CardVoid(answer: Outcome)
    | PayBack(amount: Money, isNew: bool, answer: Outcome)
    | Admit                                             // an approval is given
    | Turn                                              // an approval is denied

  predicate Open(status: PaymentStatus) {
    status == Processing || status == UnknownOutcome
  }

  predicate Allowed(v: View, m: Move) {
    match m
    case Stay => true
    case Start => v.hold.Some?
    case Settle(outcome) => v.hold.Some? && Open(v.status) && !(v.status == UnknownOutcome && outcome == Unknown)
    case Hear(kind, was, outcome) =>
      && Open(v.status) && outcome != Unknown
      && (kind == ChargeOp ==>
            v.calls.charges > 0 && v.calls.won >= One(was == OpSucceeded) && v.calls.lost >= One(was == OpFailed))
      && (kind == CaptureOp || kind == VoidOp ==> v.calls.cardOps > 0)
      && (kind == RefundOp ==> v.calls.refunds > 0)
    case CardCapture(_) => v.status == Authorized
    case CardVoid(_) => v.status == Authorized
    case PayBack(amount, _, _) =>
      Refundable(v.status) && 0 < amount <= v.filing.captured - v.filing.refunded
    case Admit => v.status == ApprovalRequired && v.hold.None?
    case Turn => v.status == ApprovalRequired
  }

  function Moved(v: View, m: Move): View {
    match m
    case Stay => v
    case Start => AfterBegin(v)
    case Settle(Unknown) => AfterUnknown(v)
    case Settle(Failure) => AfterFailure(v)
    case Settle(Success) => AfterSuccess(v)
    case Hear(kind, was, outcome) =>
      if kind != ChargeOp then v.(status := if outcome == Success then Succeeded else Failed)
      else if outcome == Success then AfterEventSuccess(v, was)
      else AfterEventFailure(v, was)
    case CardCapture(answer) => AfterCapture(v, answer)
    case CardVoid(answer) => AfterVoid(v, answer)
    case PayBack(amount, isNew, answer) => AfterRefund(v, amount, isNew, answer)
    case Admit => v.(status := Processing, hold := Some(Reserved))
    case Turn => v.(status := Failed)
  }

  /** What holds of every payment between any two steps, whatever the provider says. */
  predicate Good(v: View) {
    var f, c := v.filing, v.calls;
    && v.amount > 0
    && 0 <= f.byWorker <= 1 && 0 <= f.byEvent <= 1 && 0 <= f.voids <= 1
    && f.captured == (if f.byWorker == 1 then v.amount else 0) + (if f.byEvent == 1 then v.amount else 0)
    && 0 <= f.refunded <= f.captured
    && v.journals == (if f.captured > 0 then 1 else 0)
    && 0 <= c.charges <= 1 && c.cardOps >= 0 && c.refunds >= 0
    && (c.charges > 0 ==> v.hold.Some?)
    && (c.cardOps > 0 ==> v.hold.None?)
    && (c.refunds > 0 ==> f.captured > 0)
    && (f.byEvent > 0 ==> v.hold.Some?)
    && (f.voids > 0 ==> v.status == Voided)
    && (v.status == Voided ==> f.captured == 0 && v.hold.None?)
    && (v.status == Authorized || v.status == ApprovalRequired || v.status == PolicyCheck ==>
          v.hold.None? && f == Blank && c == Silent)
    && (v.status == Processing ==> v.hold.Some?)
    && (v.status == Succeeded && v.hold.Some? ==> f.captured > 0)
    && (v.status == Refunded || v.status == RefundFailed ==> f.captured > 0)
    && (v.status == Refunded ==> f.refunded == f.captured)
    && v.status != VoidRequested && v.status != RefundProcessing && v.status != PaymentPending && v.status != Cancelled
  }

  lemma GoodWorkerMoves(v: View, m: Move)
    requires Good(v) && Allowed(v, m) && (m.Start? || m.Settle?)
    ensures Good(Moved(v, m))
  {
  }

  lemma GoodEventMoves(v: View, m: Move)
    requires Good(v) && Allowed(v, m) && m.Hear?
    ensures Good(Moved(v, m))
  {
  }

  lemma GoodCallerMoves(v: View, m: Move)
    requires Good(v) && Allowed(v, m) && !m.Start? && !m.Settle? && !m.Hear?
    ensures Good(Moved(v, m))
  {
  }

  lemma GoodMoves(v: View, m: Move)
    requires Good(v) && Allowed(v, m)
    ensures Good(Moved(v, m))
  {
    hide Good, Moved, Allowed;
    if m.Start? || m.Settle? {
      GoodWorkerMoves(v, m);
    } else if m.Hear? {
      GoodEventMoves(v, m);
    } else {
      GoodCallerMoves(v, m);
    }
  }

  /** Captured money, journals and refunds never go back; a hold, once there, stays there. */
  lemma MovesGrow(v: View, m: Move)
    requires Good(v) && Allowed(v, m)
    ensures var w := Moved(v, m);
            && w.amount == v.amount
            && w.filing.captured >= v.filing.captured && w.filing.refunded >= v.filing.refunded
            && w.filing.voids >= v.filing.voids && w.journals >= v.journals
            && (v.hold.Some? ==> w.hold.Some?)
            && (w.status == Authorized ==> v.status == Authorized)
            && (w.status == ApprovalRequired ==> v.status == ApprovalRequired)
            && (v.status == ApprovalRequired && m != Admit && m != Turn ==> w.status == ApprovalRequired)
  {
  }
}
