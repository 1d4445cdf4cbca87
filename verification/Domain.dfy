/** Rows of the payment database and the values they hold. A table is a sequence
    whose index is the row's generated id. */
module Domain {

  datatype Option<+T> = None | Some(value: T) {
    function Or(other: T): T {
      if Some? then value else other
    }
  }

  datatype Error =
    | NotFound
    | BindingInvalid
    | EvidenceRequired
    | EvidenceRejected
    | IntentMismatch
    | AlreadyTerminal
    | BudgetInsufficient
    | UniqueViolation
    | CheckViolation
    | NotExecutable
    | NoReservation
    | UnbalancedJournal
    | OperationKeyConflict
    | InvalidAmount
    | ExceedsRefundable
    | InvalidSignature
    | UnsupportedOutcome
    | KeyReused
    | IncompleteRequest
    | NotPending
    | ApprovalExpired
    | NotAwaitingApproval
    | NoBudget
    | BindingChanged

  datatype Result<+T> = Ok(value: T) | Err(error: Error) {
    predicate IsFailure() { Err? }
    function PropagateFailure<U>(): Result<U>
      requires Err?
    {
      Err(error)
    }
    function Extract(): T
      requires Ok?
    {
      value
    }
  }

  // Money in ten-thousandths, the scale of NUMERIC(20,4).
  type Money = int
  type Currency = string

  /** A decimal as written: 5.0 and 5.00 have one value and two texts, and the
      refund keys are built from the text. */
  type Scale = n: nat | n <= 4
  datatype Amount = Amount(coefficient: nat, scale: Scale)

  function Value(a: Amount): (v: Money)
    ensures v >= 0
    ensures v == 0 <==> a.coefficient == 0
  {
    match a.scale
    case 0 => a.coefficient * 10000
    case 1 => a.coefficient * 1000
    case 2 => a.coefficient * 100
    case 3 => a.coefficient * 10
    case _ => a.coefficient
  }

  datatype Outcome = Success | Failure | Unknown

  datatype PaymentStatus =
    | PolicyCheck | ApprovalRequired | PaymentPending | Processing | UnknownOutcome
    | Authorized | Succeeded | Failed | Cancelled | VoidRequested | Voided | VoidFailed
    | RefundProcessing | Refunded | RefundFailed

  datatype OpKind = ChargeOp | CaptureOp | VoidOp | RefundOp
  datatype OpKey =
    | ChargeKey(payment: nat)
    | CaptureKey(payment: nat)
    | VoidKey(payment: nat)
    | RefundKey(payment: nat, amount: Amount, currency: Currency)
  datatype OpStatus = OpPending | OpSucceeded | OpFailed | OpUnknown

  datatype TxType = CaptureType | VoidType | RefundType
  datatype TxStatus = TxPending | TxPosted | TxFailed
  datatype TxKey =
    | TxCapture(payment: nat)
    | TxCaptureByEvent(payment: nat)
    | TxCaptureFailed(payment: nat)
    | TxVoid(payment: nat)
    | TxVoidFailed(payment: nat)
    | TxRefund(payment: nat, amount: Amount, currency: Currency)

  datatype JournalKey =
    | JCapture(payment: nat)
    | JRefund(payment: nat, amount: Amount, currency: Currency)
  datatype Side = Debit | Credit

  datatype HoldStatus = Reserved | Consumed | Released
  datatype ApprovalStatus = ApprovalPending | Approved | Denied | Expired

  /** What a verified authorization assertion grants. */
  datatype Claims = Claims(evidenceId: string, issuer: string, version: string, agent: string, account: string,
                           scope: set<string>, maxAmount: Option<Money>, currency: Option<Currency>,
                           validUntil: Option<int>)

  /** The eight fields an approval binds; the digest is modelled as the fields. */
  datatype Binding = Binding(request: nat, account: string, agent: string, amount: Money, currency: Currency,
                             merchant: Option<string>, policyVersion: Option<nat>, evidence: Option<nat>)

  datatype Evidence = Evidence(account: string, agent: string, claims: Claims, verified: bool, request: Option<nat>)

  /** The body of a create-payment call; its fingerprint is modelled as the body. */
  datatype EvidenceDocument = EvidenceDocument(id: string, issuer: string, version: Option<string>,
                                               assertion: Option<Option<Claims>>)
  datatype Body = Body(agent: string, account: string, policy: Option<nat>, budget: Option<nat>,
                       merchant: Option<string>, category: Option<string>, amount: Amount, currency: Currency,
                       purpose: string, evidence: Option<EvidenceDocument>)

  datatype Request = Request(account: string, agent: string, amount: Money, currency: Currency,
                             merchant: Option<string>, category: Option<string>,
                             key: string, fingerprint: Option<Body>,
                             evidence: Option<nat>, policyVersion: Option<nat>,
                             budget: Option<nat>, reservation: Option<nat>)
  datatype Payment = Payment(request: nat, amount: Money, currency: Currency, status: PaymentStatus)
  datatype Approval = Approval(request: nat, status: ApprovalStatus, expires: int, digest: Binding, decided: Option<int>)
  datatype Budget = Budget(account: string, currency: Currency, active: bool, policy: Option<nat>,
                           limit: Money, consumed: Money, reserved: Money)
  datatype Reservation = Reservation(budget: nat, request: nat, amount: Money, status: HoldStatus)
  datatype Operation = Operation(payment: nat, kind: OpKind, key: OpKey, status: OpStatus)
  datatype Transaction = Transaction(payment: nat, kind: TxType, status: TxStatus, amount: Money,
                                     currency: Currency, key: TxKey)
  datatype Posting = Posting(account: nat, side: Side, amount: Money, currency: Currency)
  datatype Journal = Journal(key: JournalKey, currency: Currency, postings: seq<Posting>)
  datatype ProviderEvent = ProviderEvent(signatureValid: bool, processed: bool)

  datatype Fact =
    | PaymentStarted(reservation: nat)
    | PaymentFailed
    | PaymentOutcomeUnknown
    | PaymentSucceeded(amount: Money, currency: Currency)
    | ApprovalRequested(approval: nat)
    | PaymentApproved(approval: nat)
    | NotificationRequested
  datatype OutboxRow = OutboxRow(payment: nat, fact: Fact)

  datatype Db = Db(requests: seq<Request>, payments: seq<Payment>, approvals: seq<Approval>,
                   evidence: seq<Evidence>, budgets: seq<Budget>, reservations: seq<Reservation>,
                   operations: seq<Operation>, transactions: seq<Transaction>, journals: seq<Journal>,
                   outbox: seq<OutboxRow>, events: seq<ProviderEvent>)

  /** What a database operation does: new contents and a value, or an exception. */
  datatype Attempt<+T> = Done(db: Db, value: T) | Raised(error: Error) {
    predicate IsFailure() { Raised? }
    function PropagateFailure<U>(): Attempt<U>
      requires Raised?
    {
      Raised(error)
    }
    function Extract(): (Db, T)
      requires Done?
    {
      (db, value)
    }
  }

  /** The contents after a transaction: an exception leaves them as they were. */
  function Commit<T>(before: Db, attempt: Attempt<T>): Db {
    match attempt
    case Done(after, _) => after
    case Raised(_) => before
  }

  function ToResult<T>(attempt: Attempt<T>): Result<T> {
    match attempt
    case Done(_, value) => Ok(value)
    case Raised(error) => Err(error)
  }

  /** A method working on `db` agrees with its specification; what it had
      written before an exception is left to the transaction to undo. */
  predicate Agrees<T(==)>(attempt: Attempt<T>, db: Db, result: Result<T>) {
    match attempt
    case Done(after, value) => db == after && result == Ok(value)
    case Raised(error) => result == Err(error)
  }
}
