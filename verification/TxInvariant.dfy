/** What holds of each transaction, and of each handler at work on it, in every reachable state. */
module TxInvariant {
  import opened Options
  import opened Schema
  import opened Gateway

  // ---- one transaction's part of the state ---------------------------------------------

  datatype View = View(request: Option<Request>, order: Option<Order>, rows: map<ProviderId, LedgerRow>, trace: Trace)

  function Tried(ledger: Ledger, t: TxId): set<ProviderId> {
    set k | k in ledger && k.0 == t :: k.1
  }

  function RowsOf(ledger: Ledger, t: TxId): map<ProviderId, LedgerRow> {
    map p | p in Tried(ledger, t) && (t, p) in ledger :: ledger[(t, p)]
  }

  function ViewOf(db: Db, trace: Trace, t: TxId): View {
    View(
      if t in db.requests then Some(db.requests[t]) else None,
      if t in db.orders then Some(db.orders[t]) else None,
      RowsOf(db.ledger, t),
      trace)
  }

  function TxView(s: State, t: TxId): View {
    ViewOf(s.db, TraceOf(s, t), t)
  }

  lemma RowKeys(ledger: Ledger, t: TxId, p: ProviderId)
    ensures p in RowsOf(ledger, t) <==> (t, p) in ledger
    ensures (t, p) in ledger ==> RowsOf(ledger, t)[p] == ledger[(t, p)]
  {
    if (t, p) in ledger {
      var k := (t, p);
      assert k in ledger && k.0 == t && k.1 == p;
    }
  }

  lemma RowsAfterWrite(ledger: Ledger, t: TxId, p: ProviderId, row: LedgerRow, u: TxId)
    ensures RowsOf(ledger[(t, p) := row], u) == if u == t then RowsOf(ledger, t)[p := row] else RowsOf(ledger, u)
  {
    var after := ledger[(t, p) := row];
    var left, right := RowsOf(after, u), if u == t then RowsOf(ledger, t)[p := row] else RowsOf(ledger, u);
    forall q
      ensures q in left <==> q in right
      ensures q in left ==> left[q] == right[q]
    {
      RowKeys(after, u, q);
      RowKeys(ledger, u, q);
    }
  }

  // ---- the transaction invariant ---------------------------------------------------------

  ghost predicate FlagOf(v: View) {
    v.request.Some? && v.request.value.quotaReserved
  }

  /** The order and its budget rows agree. */
  ghost predicate OrderAgreesWithLedger(order: Option<Order>, rows: map<ProviderId, LedgerRow>) {
    match order
    case None => rows == map[]
    case Some(o) =>
      && (forall p :: p in rows <==> Attempted(o, p))
      && (forall p :: p in rows && o.provider != Some(p) ==> rows[p].state.Released?)
      && match o.state
         case Pending => rows == map[]
         case Rejected => forall p :: p in rows ==> rows[p].state.Released?
         case Ordering =>
           && o.provider.Some? && o.provider.value in rows
           && rows[o.provider.value].state.Reserved? && rows[o.provider.value].amount == o.amount
         case _ =>
           && o.provider.Some? && o.provider.value in rows
           && rows[o.provider.value].state.Charged? && rows[o.provider.value].amount == o.amount
  }

  /** Every rentEnergy call was made under its own budget row; only the last can be anything but rejected. */
  ghost predicate CallsAgreeWithLedger(calls: seq<Call>, rows: map<ProviderId, LedgerRow>) {
    && (forall i :: 0 <= i < |calls| ==>
          && calls[i].provider in rows
          && rows[calls[i].provider].day == calls[i].day && rows[calls[i].provider].amount == calls[i].amount)
    && (forall i :: 0 <= i < |calls| && !calls[i].answer.SaidNo? ==>
          i == |calls| - 1 && !rows[calls[i].provider].state.Released?)
    && (forall i, j :: 0 <= i < j < |calls| ==> calls[i].provider != calls[j].provider)
  }

  /** A call was answered with yes, unclearly, or not at all: it may have been charged. */
  ghost predicate MayBeCharged(calls: seq<Call>) {
    exists i :: 0 <= i < |calls| && !calls[i].answer.SaidNo?
  }

  /** A reason to count the unit as used: a charge, an order that stands, or an accepted broadcast. */
  ghost predicate Cause(v: View) {
    MayBeCharged(v.trace.calls) || (v.order.Some? && Billable(v.order.value.state)) || v.trace.accepted > 0
  }

  ghost predicate Recoverable(state: RequestState) {
    state.QuotaReserved? || state.ResourceEstimated? || state.ResourceReady? || state.Failed?
  }

  ghost predicate QuotaAgrees(cfg: Config, v: View) {
    && v.trace.reserved <= 1
    && v.trace.consumed + v.trace.released + (if FlagOf(v) then 1 else 0) == v.trace.reserved
    && (FlagOf(v) ==> Recoverable(v.request.value.state))
    && (MayBeCharged(v.trace.calls) ==> v.trace.released == 0 && (cfg.boundAddress ==> v.trace.reserved == 1))
    && (v.trace.forwards != [] && v.trace.outcomes == 0 ==> v.trace.released == 0)
    && (v.trace.consumed > 0 ==> Cause(v))
  }

  ghost predicate EnergySafe(cfg: Config, t: TxId, need: Option<nat>, reading: nat) {
    Guarded(cfg, t) ==> need.Some? && reading >= need.value
  }

  ghost predicate Covers(call: Call) {
    call.shortfall.Some? ==> call.amount >= call.shortfall.value
  }

  ghost predicate TxOk(cfg: Config, t: TxId, v: View) {
    && (v.request.None? ==> v.order.None? && v.trace == NO_TRACE)
    && (v.order.Some? ==> v.order.value.receiver == t.owner)
    && (v.order.None? ==> v.trace.calls == [])
    && OrderAgreesWithLedger(v.order, v.rows)
    && CallsAgreeWithLedger(v.trace.calls, v.rows)
    && QuotaAgrees(cfg, v)
    && |v.trace.forwards| <= 1
    && (forall i :: 0 <= i < |v.trace.forwards| ==> EnergySafe(cfg, t, v.trace.forwards[i].required,
      v.trace.forwards[i].reading))
    && (forall i :: 0 <= i < |v.trace.calls| ==> Covers(v.trace.calls[i]))
    && (!cfg.ownerEnergyBurn ==> forall i :: 0 <= i < |v.trace.calls| ==> v.trace.calls[i].shortfall.Some?)
  }

  // ---- the handler invariant -------------------------------------------------------------

  /** Nothing has been done for the transaction beyond inserting its row. */
  ghost predicate Untouched(v: View) {
    v.order.None? && v.trace == NO_TRACE && !FlagOf(v)
  }

  /** The unit is reserved and not yet settled, when there are units at all. */
  ghost predicate Held(cfg: Config, v: View, h: Handler) {
    && h.quota == cfg.boundAddress == FlagOf(v)
    && v.trace.reserved == (if cfg.boundAddress then 1 else 0)
  }

  ghost predicate NotSent(v: View) {
    v.trace.forwards == [] && v.trace.outcomes == 0
  }

  /** Where a handler stands with respect to its unit, its order and its broadcast. */
  datatype Phase =
    | Fresh       // the row is inserted, nothing else
    | Unordered   // the unit is held, there is no order
    | Buying      // there is an order, every call for it was rejected
    | Due         // the unit is held and has to be consumed
    | Spent       // the unit is consumed
    | Clear       // the unit is held, nothing was charged, the resources are there
    | Sent        // the broadcast was made
    | Consuming0  // the catch block consumes the unit
    | Releasing   // the catch block gives the unit back
    | Closing     // the rest of the catch block

  function PhaseOf(h: Handler): Phase {
    match h.pc
    case Claiming => Fresh
    case Discarding => Fresh
    case Reserving => Fresh
    case DroppingClaim => Fresh
    case CachingReject => Fresh
    case Estimating => Unordered
    case SavingEstimate => Unordered
    case Delegating => Unordered
    case Planning => Unordered
    case Opening(_) => Unordered
    case Calling(_, _, _) => Due
    case Accepting(_) => Due
    case Doubting(_) => Due
    case Consuming(_) => Due
    case Confirming => Spent
    case Fulfilling => Spent
    case TimingOut => Spent
    case Rechecking(paid) => if paid then Spent else Clear
    case Readying => if h.charged then Spent else Clear
    case Forwarding => if h.charged then Spent else Clear
    case Recording(_) => Sent
    case CatchConsuming => Consuming0
    case CatchReleasing => Releasing
    case CatchDropping => Closing
    case CatchReadying => Closing
    case CatchFailing => Closing
    case _ => Buying
  }

  ghost predicate PhaseOk(cfg: Config, v: View, h: Handler, phase: Phase) {
    match phase
    case Fresh => Untouched(v) && !h.quota
    case Unordered => Held(cfg, v, h) && NotSent(v) && v.order.None?
    case Buying => Held(cfg, v, h) && NotSent(v) && v.order.Some? && !MayBeCharged(v.trace.calls)
    case Due => Held(cfg, v, h) && NotSent(v) && Cause(v)
    case Spent => NotSent(v) && !FlagOf(v) && v.trace.released == 0
    case Clear => Held(cfg, v, h) && NotSent(v) && !MayBeCharged(v.trace.calls)
    case Sent => h.forwarded
    case Consuming0 => NotSent(v) && v.trace.released == 0 && (FlagOf(v) ==> Cause(v))
    case Releasing => NotSent(v) && !MayBeCharged(v.trace.calls)
    case Closing => true
  }

  ghost predicate HandlerOk(cfg: Config, v: View, h: Handler) {
    && v.request.Some? && !v.request.value.state.UpstreamAccepted?
    && (h.forwarded ==> h.pc.Recording?)
    && (h.charged ==> !h.quota && h.retain && (h.pc.Readying? || h.pc.Forwarding? || h.pc.Recording?))
    && (h.pc.Reserving? ==> cfg.boundAddress)
    && (h.pc.Claiming? || h.pc.Discarding? ==> !h.claimed && !h.retain)
    && PhaseOk(cfg, v, h, PhaseOf(h))
  }

  // ---- amounts, readings and the call in flight --------------------------------------------

  ghost predicate OffersOk(rest: seq<Offer>, plan: Plan) {
    forall i :: 0 <= i < |rest| && rest[i].amount.Some? ==> rest[i].amount.value >= plan.minimum
  }

  ghost predicate PlanOk(cfg: Config, plan: Plan) {
    && (plan.shortfall.Some? ==> plan.minimum >= plan.shortfall.value)
    && (!cfg.ownerEnergyBurn ==> plan.shortfall.Some?)
  }

  ghost predicate ListOk(cfg: Config, plan: Plan, rest: seq<Offer>) {
    PlanOk(cfg, plan) && OffersOk(rest, plan)
  }

  /** A budget row is reserved for exactly this call, which has not been made. */
  ghost predicate MayCall(v: View, p: ProviderId, amount: nat, day: Day) {
    && p in v.rows && v.rows[p] == LedgerRow(day, amount, Reserved)
    && forall i :: 0 <= i < |v.trace.calls| ==> v.trace.calls[i].provider != p
  }

  ghost predicate AwaitsAnswer(v: View) {
    v.trace.calls != [] && v.trace.calls[|v.trace.calls| - 1].answer.InFlight?
  }

  ghost predicate DetailOk(cfg: Config, v: View, h: Handler) {
    match h.pc
    case Opening(plan) => PlanOk(cfg, plan)
    case Listing(plan) => PlanOk(cfg, plan)
    case Choosing(plan, rest, _) => ListOk(cfg, plan, rest)
    case Attempting(plan, _, amount, rest, _) => ListOk(cfg, plan, rest) && amount >= plan.minimum
    case Rereading(plan, rest, _) => ListOk(cfg, plan, rest)
    case Ready(plan, p, amount, day, rest) =>
      ListOk(cfg, plan, rest) && amount >= plan.minimum && MayCall(v, p, amount, day)
    case Calling(plan, _, rest) => ListOk(cfg, plan, rest) && AwaitsAnswer(v)
    case Refusing(plan, _, rest, _) => ListOk(cfg, plan, rest)
    case _ => true
  }

  /** The safe requirement is known from the estimate on, and met by the last reading before a broadcast. */
  ghost predicate EnergyOk(cfg: Config, h: Handler) {
    match h.pc
    case Claiming => true
    case Discarding => true
    case Reserving => true
    case DroppingClaim => true
    case CachingReject => true
    case Estimating => true
    case Readying => EnergySafe(cfg, h.tx, h.need, h.reading)
    case Forwarding => EnergySafe(cfg, h.tx, h.need, h.reading)
    case _ => Guarded(cfg, h.tx) && !Ending(h.pc) ==> h.need.Some?
  }

  predicate Ending(pc: Pc) {
    pc.Recording? || pc.CatchConsuming? || pc.CatchReleasing? || pc.CatchDropping? || pc.CatchReadying?
      || pc.CatchFailing?
  }

  /** Everything that holds of a handler at work. */
  ghost predicate Fit(cfg: Config, v: View, h: Handler) {
    HandlerOk(cfg, v, h) && DetailOk(cfg, v, h) && EnergyOk(cfg, h)
  }

  ghost predicate NextFit(cfg: Config, v: View, next: Option<Handler>) {
    next.Some? ==> Fit(cfg, v, next.value)
  }
}
