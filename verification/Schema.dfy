/**
 * The gateway's tables. A transaction id is the hash of the signed raw data, so it
 * determines the owner address and the contract type; both are fields of the id here.
 * A provider order is identified by the transaction it belongs to (tx_id is UNIQUE).
 */
module Schema {
  import opened Options

  type Address = nat
  type ProviderId = nat
  type Day = int

  datatype Contract = TransferContract | TriggerSmartContract | OtherContract

  datatype TxId = TxId(owner: Address, contract: Contract, digest: nat)

  datatype Binding = Binding(enabled: bool, expiresAt: Option<int>, max: Option<nat>, used: nat, reserved: nat)

  datatype RequestState =
    | Received
    | QuotaReserved
    | ResourceEstimated
    | ResourceReady
    | Rejected
    | Failed
    | UpstreamAccepted
    | UpstreamRejected
    | SolidifiedSuccess
    | SolidifiedFailed
    | Expired

  datatype Request = Request(state: RequestState, quotaReserved: bool, response: Option<bool>)

  datatype OrderState = Pending | Ordering | Accepted | Fulfilled | Rejected | Unknown

  datatype OrderEvent = OrderEvent(state: OrderState, provider: Option<ProviderId>)

  datatype Order = Order(
    receiver: Address, requested: nat, amount: nat, provider: Option<ProviderId>,
    state: OrderState, attempts: seq<OrderEvent>)

  datatype LedgerState = Reserved | Charged | Released

  datatype LedgerRow = LedgerRow(day: Day, amount: nat, state: LedgerState)

  type Ledger = map<(TxId, ProviderId), LedgerRow>

  datatype Limits = Limits(maxEnergyPerOrder: nat, dailyOrders: nat, dailyEnergy: nat)

  datatype Provider = Provider(enabled: bool, adapter: nat, priority: nat, limits: Limits)

  /** openLeases holds the transactions with a lease in none of the three closed lease states. */
  datatype Db = Db(
    bindings: map<Address, Binding>,
    requests: map<TxId, Request>,
    claims: map<Address, TxId>,
    orders: map<TxId, Order>,
    ledger: Ledger,
    providers: map<ProviderId, Provider>,
    openLeases: set<TxId>)

  /** An order whose outcome still blocks the address. */
  predicate Open(state: OrderState) {
    state.Ordering? || state.Accepted? || state.Unknown?
  }

  /** An order that counts as paid when a reservation is settled. */
  predicate Billable(state: OrderState) {
    Open(state) || state.Fulfilled?
  }

  predicate Attempted(order: Order, p: ProviderId) {
    OrderEvent(Ordering, Some(p)) in order.attempts
  }

  /** Request states that end a request. */
  predicate Terminal(state: RequestState) {
    || state.Rejected? || state.Failed? || state.UpstreamRejected?
    || state.SolidifiedSuccess? || state.SolidifiedFailed? || state.Expired?
  }

  /** A ledger row that uses up budget. */
  predicate InUse(row: LedgerRow) {
    row.state.Reserved? || row.state.Charged?
  }
}
