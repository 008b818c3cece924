/**
  The reliability contract: operation rows, their validity check, the
  transition table and its class-aware guard, and retry policies.
  (src/hermes_life_bridge/reliability_contract.py)
*/
module ReliabilityContract {
  import opened Basics

  datatype OperationState =
    Prepared | InFlight | RetryWait | Completed | FailedSafe | DeliveryUnknown | Exhausted

  datatype RetryClass = Percept | Cognition | Contact

  datatype DeliveryOutcome = NotAttempted | Delivered | NotDelivered | Unknown

  /** stable_id(kind, key, hash): a name-based identifier, taken to be injective. */
  datatype OpId = StableId(kind: RetryClass, key: string, hash: string)

  datatype Operation = Operation(
    id: OpId,
    kind: RetryClass,
    key: string,
    requestHash: string,
    state: OperationState,
    attempt: int,
    createdAt: real,
    updatedAt: real,
    nextAttemptAt: Option<real>,
    outcome: Option<DeliveryOutcome>,
    errorCode: Option<string>)

  type Rows = map<OpId, Operation>

  // ---------------------------------------------------------------- validity

  predicate IsSpace(c: char) {
    c == ' ' || '\t' <= c <= '\r'
  }

  predicate NonBlank(s: string) {
    exists i | 0 <= i < |s| :: !IsSpace(s[i])
  }

  predicate IsSha256Hex(s: string) {
    |s| == 64 && forall i | 0 <= i < |s| :: '0' <= s[i] <= '9' || 'a' <= s[i] <= 'f'
  }

  predicate IsSafeToken(s: string) {
    && 1 <= |s| <= 128
    && forall i | 0 <= i < |s| ::
         || 'A' <= s[i] <= 'Z' || 'a' <= s[i] <= 'z' || '0' <= s[i] <= '9'
         || s[i] == '_' || s[i] == '.' || s[i] == ':' || s[i] == '-'
  }

  /** The delivery outcomes a contact may carry in each state. */
  predicate ContactOutcomeFits(state: OperationState, outcome: Option<DeliveryOutcome>) {
    match state
    case Completed => outcome == Some(Delivered)
    case FailedSafe => outcome == Some(NotDelivered)
    case DeliveryUnknown => outcome == Some(Unknown)
    case Exhausted => outcome == Some(NotDelivered)
    case RetryWait => outcome == Some(NotDelivered)
    case Prepared => outcome == None || outcome == Some(NotAttempted)
    case InFlight => outcome == None || outcome == Some(NotAttempted)
  }

  /** BridgeOperation.__post_init__ accepts the row. */
  predicate ValidOperation(op: Operation) {
    && NonBlank(op.key)
    && IsSha256Hex(op.requestHash)
    && op.attempt >= 0
    && (op.errorCode.Some? ==> IsSafeToken(op.errorCode.value))
    && (op.state == RetryWait <==> op.nextAttemptAt.Some?)
    && (op.state == DeliveryUnknown ==> op.kind == Contact)
    && (if op.kind == Contact then ContactOutcomeFits(op.state, op.outcome) else op.outcome == None)
  }

  // -------------------------------------------------------------- transitions

  function Successors(state: OperationState): set<OperationState> {
    match state
    case Prepared => {InFlight}
    case InFlight => {Completed, FailedSafe, DeliveryUnknown}
    case FailedSafe => {RetryWait, Exhausted}
    case RetryWait => {Prepared}
    case DeliveryUnknown => {Completed, FailedSafe}
    case Completed => {}
    case Exhausted => {}
  }

  predicate SameIdentity(a: Operation, b: Operation) {
    && a.id == b.id && a.kind == b.kind && a.key == b.key
    && a.requestHash == b.requestHash && a.createdAt == b.createdAt
  }

  /** is_operation_transition_allowed */
  predicate TransitionAllowed(current: Operation, candidate: Operation) {
    && SameIdentity(current, candidate)
    && candidate.attempt == (if current.state == Prepared && candidate.state == InFlight
                             then current.attempt + 1 else current.attempt)
    && (|| candidate.state in Successors(current.state)
        || (&& current.kind == Cognition
            && current.attempt >= 1
            && current.state in {Prepared, FailedSafe, RetryWait}
            && candidate.state == Completed))
  }

  predicate Terminal(state: OperationState) {
    state == Completed || state == Exhausted
  }

  /**
    How far an operation has moved. Attempt `a` occupies the five values from
    `5 * a`; a terminal state sits just above them.
  */
  function Progress(op: Operation): int {
    5 * op.attempt + match op.state {
      case InFlight => 0
      case DeliveryUnknown => 1
      case FailedSafe => 2
      case RetryWait => 3
      case Prepared => 4
      case Completed => 5
      case Exhausted => 5
    }
  }

  /** No allowed transition ever goes back, and terminal states are never left. */
  lemma TransitionsMoveForward(current: Operation, candidate: Operation)
    requires TransitionAllowed(current, candidate)
    ensures Progress(current) < Progress(candidate)
    ensures !Terminal(current.state)
    ensures current.attempt <= candidate.attempt
  {
  }

  // ------------------------------------------------------------------- policy

  datatype RetryPolicy = RetryPolicy(
    retryClass: RetryClass,
    maxAttempts: int,
    initialBackoff: real,
    maxBackoff: real,
    multiplier: real,
    jitter: real,
    retryAfterFailedSafe: bool,
    retryAfterDeliveryUnknown: bool,
    requiresDurableState: bool,
    reconcileBeforeRetry: bool)

  /** RetryPolicy.__post_init__ accepts the policy. */
  predicate ValidPolicy(p: RetryPolicy) {
    && p.maxAttempts >= 1
    && 0.0 <= p.initialBackoff <= p.maxBackoff
    && p.multiplier >= 1.0
    && 0.0 <= p.jitter <= 1.0
    && (p.retryClass == Contact ==> !p.retryAfterDeliveryUnknown)
  }

  const PERCEPT_RETRY_POLICY :=
    RetryPolicy(Percept, 5, 0.25, 4.0, 2.0, 0.2, true, false, true, false)
  const COGNITION_RETRY_POLICY :=
    RetryPolicy(Cognition, 3, 1.0, 8.0, 2.0, 0.2, true, false, true, true)
  const CONTACT_RETRY_POLICY :=
    RetryPolicy(Contact, 2, 2.0, 8.0, 2.0, 0.2, false, false, true, false)
}
