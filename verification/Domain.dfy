/** Canonical types and the payment lifecycle. */
module Domain {

  datatype Option<+T> = None | Some(value: T)

  datatype State = RECEIVED | VALIDATED | AUTHORIZED | CAPTURED | SETTLED | RECONCILED | FAILED

  datatype Source = CARD | UPI | BANK_TRANSFER | WALLET

  datatype Transaction = Transaction(
    paymentId: string,
    idempotencyKey: string,
    source: Source,
    externalTxnId: string,
    accountId: string,
    minorUnits: int,
    currency: string,
    state: State,
    createdAt: int)

  function Allowed(from: State): set<State> {
    match from
    case RECEIVED => {VALIDATED, FAILED}
    case VALIDATED => {AUTHORIZED, CAPTURED, FAILED}
    case AUTHORIZED => {CAPTURED, FAILED}
    case CAPTURED => {SETTLED, FAILED}
    case SETTLED => {RECONCILED}
    case RECONCILED => {}
    case FAILED => {}
  }

  predicate Transition(from: State, to: State) {
    to in Allowed(from)
  }

  function Rank(state: State): nat {
    match state
    case RECEIVED => 0
    case VALIDATED => 1
    case AUTHORIZED => 2
    case CAPTURED => 3
    case SETTLED => 4
    case RECONCILED => 5
    case FAILED => 5
  }
}
