/**
 * What each operation of the provider repository does to the order and ledger tables.
 * A result of false stands for a rolled-back transaction.
 */
module ProviderRepository {
  import opened Options
  import opened Schema
  import opened Totals

  const MAX_ENERGY_ORDER_AMOUNT: nat := 10_000_000

  predicate ValidEnergyAmount(amount: int) {
    1 <= amount <= MAX_ENERGY_ORDER_AMOUNT
  }

  function OrderWeights(ledger: Ledger, d: Day): map<(TxId, ProviderId), nat> {
    map k | k in ledger :: if ledger[k].day == d && InUse(ledger[k]) then 1 else 0
  }

  function EnergyWeights(ledger: Ledger, d: Day): map<(TxId, ProviderId), nat> {
    map k | k in ledger :: if ledger[k].day == d && InUse(ledger[k]) then ledger[k].amount else 0
  }

  /** The rows of one provider. */
  function RowsOfProvider(ledger: Ledger, p: ProviderId): Ledger {
    map k | k in ledger && k.1 == p :: ledger[k]
  }

  ghost function OrdersOn(ledger: Ledger, d: Day): nat {
    Total(OrderWeights(ledger, d))
  }

  ghost function EnergyOn(ledger: Ledger, d: Day): nat {
    Total(EnergyWeights(ledger, d))
  }

  datatype BeginOrderResult = Created(order: Order) | Existing(order: Order) | NoRequest

  function BeginOrder(db: Db, t: TxId, receiver: Address, amount: nat): (Db, BeginOrderResult) {
    if t in db.orders then (db, Existing(db.orders[t]))
    else if t !in db.requests then (db, NoRequest)
    else
      var order := Order(receiver, amount, amount, None, Pending, []);
      (db.(orders := db.orders[t := order]), Created(order))
  }

  /** The amount fits under a limit set together with what the day already uses. */
  predicate Fits(limits: Limits, orders: nat, energy: nat, amount: nat) {
    && amount <= limits.maxEnergyPerOrder
    && orders + 1 <= limits.dailyOrders
    && energy + amount <= limits.dailyEnergy
  }

  /** Whether a provider may be tried for an order at all, budgets aside. */
  predicate Eligible(db: Db, t: TxId, p: ProviderId) {
    && t in db.orders && p in db.providers && db.providers[p].enabled
    && (db.orders[t].state.Pending? || db.orders[t].state.Rejected?)
    && !Attempted(db.orders[t], p)
    && (t, p) !in db.ledger
  }

  ghost predicate Affordable(db: Db, limits: Limits, p: ProviderId, amount: nat, d: Day)
    requires p in db.providers
  {
    var own := RowsOfProvider(db.ledger, p);
    && Fits(limits, OrdersOn(db.ledger, d), EnergyOn(db.ledger, d), amount)
    && Fits(db.providers[p].limits, OrdersOn(own, d), EnergyOn(own, d), amount)
  }

  function EnterOrdering(order: Order, p: ProviderId, amount: nat): Order {
    order.(provider := Some(p), amount := amount, state := Ordering,
      attempts := order.attempts + [OrderEvent(Ordering, Some(p))])
  }

  ghost function StartAttempt(db: Db, limits: Limits, t: TxId, p: ProviderId, amount: nat, d: Day): (Db, bool) {
    if !Eligible(db, t, p) || !Affordable(db, limits, p, amount, d) then (db, false)
    else
      (db.(ledger := db.ledger[(t, p) := LedgerRow(d, amount, Reserved)],
        orders := db.orders[t := EnterOrdering(db.orders[t], p, amount)]), true)
  }

  /** The three outcomes an attempt can be given, and the ledger state that goes with each. */
  function LedgerStateFor(outcome: OrderState): LedgerState {
    if outcome.Rejected? then Released else Charged
  }

  /** The order half of an attempt's transition applies. */
  predicate AttemptOpen(db: Db, t: TxId, p: ProviderId) {
    t in db.orders && db.orders[t].provider == Some(p) && db.orders[t].state.Ordering?
  }

  /** The ledger half of an attempt's transition applies. */
  predicate ReservationOpen(db: Db, t: TxId, p: ProviderId) {
    (t, p) in db.ledger && db.ledger[(t, p)].state.Reserved?
  }

  function TransitionAttempt(db: Db, t: TxId, p: ProviderId, outcome: OrderState): (Db, bool) {
    if !AttemptOpen(db, t, p) || !ReservationOpen(db, t, p) then (db, false)
    else
      var order := db.orders[t];
      (db.(
        orders := db.orders[t := order.(state := outcome, attempts := order.attempts + [OrderEvent(outcome, Some(p))])],
        ledger := db.ledger[(t, p) := db.ledger[(t, p)].(state := LedgerStateFor(outcome))]), true)
  }

  function RejectWithoutProvider(db: Db, t: TxId): (Db, bool) {
    if t !in db.orders || !db.orders[t].state.Pending? then (db, false)
    else
      var order := db.orders[t];
      (db.(orders := db.orders[t := order.(
        state := OrderState.Rejected, attempts := order.attempts + [OrderEvent(OrderState.Rejected, None)])]), true)
  }

  function FinishConfirmation(db: Db, t: TxId, state: OrderState): (Db, bool) {
    if t !in db.orders then (db, false)
    else if db.orders[t].state.Accepted? then
      var order := db.orders[t];
      (db.(orders := db.orders[t := order.(state := state, attempts := order.attempts + [OrderEvent(state,
        order.provider)])]), true)
    else (db, db.orders[t].state == state)
  }

  function InterruptedOrder(order: Order): Order {
    if order.state.Ordering?
    then order.(state := Unknown, attempts := order.attempts + [OrderEvent(Unknown, order.provider)])
    else order
  }

  function RecoveredRow(db: Db, k: (TxId, ProviderId)): LedgerRow
    requires k in db.ledger
  {
    var row := db.ledger[k];
    if AttemptOpen(db, k.0, k.1) && row.state.Reserved? then row.(state := Charged) else row
  }

  function RecoverInterruptedOrders(db: Db): Db {
    db.(
      ledger := map k | k in db.ledger :: RecoveredRow(db, k),
      orders := map t | t in db.orders :: InterruptedOrder(db.orders[t]))
  }
}
