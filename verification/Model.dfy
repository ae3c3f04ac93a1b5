/** The entities of internal/model/parameter.go. */
module Model {

  datatype Option<+T> = None | Some(value: T)

  /** Lifecycle states. `Unset` is the empty string the ledger uses as the
      origin of a SUBMITTED event. */
  datatype State =
    | Unset
    | Submitted
    | Validating
    | ConsensusPending
    | Canonical
    | Rejected
    | Revoked

  /** Value types stay strings: a caller can send one the service does not know. */
  type ValueType = string

  const TYPE_STRING: ValueType := "string"
  const TYPE_NUMBER: ValueType := "number"
  const TYPE_BOOL: ValueType := "bool"
  const TYPE_JSON: ValueType := "json"
  const TYPE_SEMVER: ValueType := "semver"
  const TYPE_TIMESTAMP: ValueType := "timestamp"

  datatype Parameter = Parameter(
    id: string,
    key: string,
    value: string,
    valueType: ValueType,
    namespace: string,
    source: string,
    sourceRef: string,
    version: int,
    prev: string,
    state: State,
    metadata: map<string, string>,
    createdAt: int,
    updatedAt: int)

  datatype EventKind =
    | SubmittedEvent
    | ValidatedEvent
    | ConsensusReachedEvent
    | PromotedEvent
    | RejectedEvent
    | RevokedEvent
    | SupersededEvent

  /** A ledger entry. Its own uuid is left out: the position in the ledger identifies it. */
  datatype Event = Event(
    parameterId: string,
    kind: EventKind,
    from: State,
    to: State,
    actor: string,
    reason: string,
    context: map<string, string>,
    occurredAt: int)

  /** The states an entry of each kind says it joins. */
  function Leaves(kind: EventKind): State {
    match kind
    case SubmittedEvent => Unset
    case ValidatedEvent => Submitted
    case ConsensusReachedEvent => Validating
    case PromotedEvent => ConsensusPending
    case RejectedEvent => Validating
    case RevokedEvent => Canonical
    case SupersededEvent => Canonical
  }

  function Enters(kind: EventKind): State {
    match kind
    case SubmittedEvent => Submitted
    case ValidatedEvent => Validating
    case ConsensusReachedEvent => ConsensusPending
    case PromotedEvent => Canonical
    case RejectedEvent => Rejected
    case RevokedEvent => Revoked
    case SupersededEvent => Revoked
  }

  predicate Labelled(e: Event) {
    e.from == Leaves(e.kind) && e.to == Enters(e.kind)
  }

  datatype Request = Request(
    key: string,
    value: string,
    valueType: ValueType,
    namespace: string,
    source: string,
    sourceRef: string,
    metadata: map<string, string>,
    actor: string)

  /** Two records of one row: everything but the state and its time stamp agrees. */
  predicate SameFacts(a: Parameter, b: Parameter) {
    a == b.(state := a.state, updatedAt := a.updatedAt)
  }

  /** The single legal moves of a row. */
  predicate Edge(a: State, b: State) {
    || (a == Submitted && b == Validating)
    || (a == Validating && (b == Rejected || b == ConsensusPending))
    || (a == ConsensusPending && b == Canonical)
    || (a == Canonical && b == Revoked)
  }

  /** The state has been CANONICAL at some point. */
  predicate OnceCanonical(s: State) {
    s == Canonical || s == Revoked
  }

  /** What can follow a state, after any number of moves. */
  predicate Later(a: State, b: State) {
    match a
    case Unset => b == Unset
    case Submitted => b != Unset
    case Validating => b != Unset && b != Submitted
    case ConsensusPending => b == ConsensusPending || OnceCanonical(b)
    case Canonical => OnceCanonical(b)
    case Rejected => b == Rejected
    case Revoked => b == Revoked
  }

  /** The library parsers behind three of the value types. */
  datatype Parsers = Parsers(number: string -> bool, json: string -> bool, timestamp: string -> bool)

  /** The values that are accepted (internal/consensus/validate.go). */
  predicate ValidValue(ps: Parsers, value: string, valueType: ValueType) {
    || valueType == "string"
    || (valueType == "number" && ps.number(value))
    || (valueType == "bool" && (value == "true" || value == "false"))
    || (valueType == "json" && ps.json(value))
    || (valueType == "timestamp" && ps.timestamp(value))
    || (valueType == "semver" && value != "")
  }

  predicate ValidParameter(ps: Parsers, p: Parameter) {
    ValidValue(ps, p.value, p.valueType)
  }
}
