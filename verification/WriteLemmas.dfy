/** Every database write a handler or worker may issue keeps the invariant of its transaction. */
module WriteLemmas {
  import opened Options
  import opened Schema
  import opened Gateway
  import opened TxInvariant
  import G = GatewayRepository
  import P = ProviderRepository

  /** What the issuer of a write has to know for the write to be harmless. */
  ghost predicate Allowed(v: View, w: Write) {
    match w
    case DiscardRow => Untouched(v)
    case ReserveUnit(_) => Untouched(v) && v.request.Some?
    case ConsumeUnit => FlagOf(v) ==> Cause(v)
    case ReleaseUnit => NotSent(v) && !MayBeCharged(v.trace.calls)
    case SetState(state) => Recoverable(state)
    case Complete(state) => state.Failed? || (state.Rejected? && !FlagOf(v))
    case FinishAttempt(_, outcome) =>
      outcome.Accepted? || outcome.Unknown? || (outcome.Rejected? && !MayBeCharged(v.trace.calls)
        && v.trace.consumed == 0)
    case FinishConfirmation(result) => result.Fulfilled? || result.Unknown?
    case _ => true
  }

  ghost function After(cfg: Config, db: Db, trace: Trace, t: TxId, w: Write): View {
    var after := Apply(cfg, db, t, w).0;
    ViewOf(after, Observe(trace, db, after, t, w), t)
  }

  /** A write to the request, binding and claim tables only. */
  predicate RequestWrite(w: Write) {
    || w.AcquireClaim? || w.DropClaim? || w.DiscardRow? || w.ReserveUnit? || w.ConsumeUnit? || w.ReleaseUnit?
    || w.SaveEstimate? || w.SetState? || w.Complete? || w.RecordOutcome?
  }

  // ---- which rows a write touches --------------------------------------------------------

  /** A request write leaves the order tables, and the requests of other transactions, as they were. */
  ghost predicate RequestFrame(before: Db, after: Db, t: TxId) {
    && after.orders == before.orders && after.ledger == before.ledger && after.providers == before.providers
    && after.openLeases == before.openLeases
    && (forall u :: u != t ==> (u in after.requests <==> u in before.requests))
    && (forall u :: u != t && u in before.requests ==> after.requests[u] == before.requests[u])
  }

  lemma MoveQuotaFrame(db: Db, a: Address, t: TxId, consume: bool)
    ensures RequestFrame(db, G.MoveQuota(db, a, t, consume), t)
  {
  }

  lemma RecordOutcomeFrame(db: Db, a: Address, t: TxId, accepted: bool)
    ensures RequestFrame(db, G.RecordBroadcastOutcome(db, a, t, accepted), t)
  {
    MoveQuotaFrame(db, a, t, accepted || G.ProviderBillable(db, t));
  }

  lemma ReserveQuotaFrame(db: Db, a: Address, t: TxId, finite: bool, now: int)
    ensures RequestFrame(db, G.ReserveQuota(db, a, t, finite, now).0, t)
  {
  }

  lemma SetStateFrame(db: Db, t: TxId, state: RequestState)
    ensures RequestFrame(db, G.SetRequestState(db, t, state), t)
  {
  }

  lemma CompleteFrame(db: Db, t: TxId, state: RequestState)
    ensures RequestFrame(db, G.CompleteRequest(db, t, state), t)
  {
  }

  lemma DiscardFrame(db: Db, t: TxId)
    ensures RequestFrame(db, G.DiscardUnpreparedRequest(db, t), t)
  {
  }

  lemma ClaimFrame(db: Db, a: Address, t: TxId)
    ensures RequestFrame(db, G.TryAcquireAddressClaim(db, a, t).0, t)
    ensures RequestFrame(db, G.ReleaseAddressClaim(db, a, t), t)
  {
  }

  lemma RequestWriteTouches(cfg: Config, db: Db, t: TxId, w: Write)
    requires RequestWrite(w)
    ensures RequestFrame(db, Apply(cfg, db, t, w).0, t)
  {
    match w
    case AcquireClaim => ClaimFrame(db, t.owner, t);
    case DropClaim => ClaimFrame(db, t.owner, t);
    case DiscardRow => DiscardFrame(db, t);
    case ReserveUnit(now) => ReserveQuotaFrame(db, t.owner, t, cfg.provider, now);
    case ConsumeUnit => MoveQuotaFrame(db, t.owner, t, true);
    case ReleaseUnit => MoveQuotaFrame(db, t.owner, t, false);
    case SaveEstimate => SetStateFrame(db, t, ResourceEstimated);
    case SetState(state) => SetStateFrame(db, t, state);
    case Complete(state) => CompleteFrame(db, t, state);
    case RecordOutcome(accepted) => RecordOutcomeFrame(db, t.owner, t, accepted);
  }

  /** An order write leaves everything but the order and ledger tables as they were. */
  ghost predicate OrderFrame(before: Db, after: Db) {
    && after.requests == before.requests && after.bindings == before.bindings && after.claims == before.claims
    && after.providers == before.providers && after.openLeases == before.openLeases
  }

  /** The rows of one transaction are the same before and after. */
  ghost predicate SameOrderRows(before: Db, after: Db, u: TxId) {
    && (u in after.orders <==> u in before.orders)
    && (u in before.orders ==> after.orders[u] == before.orders[u])
    && RowsOf(after.ledger, u) == RowsOf(before.ledger, u)
  }

  lemma StartFrame(db: Db, limits: Limits, t: TxId, p: ProviderId, amount: nat, d: Day, u: TxId)
    ensures var after := P.StartAttempt(db, limits, t, p, amount, d).0;
      OrderFrame(db, after) && (u != t ==> SameOrderRows(db, after, u))
  {
    RowsAfterWrite(db.ledger, t, p, LedgerRow(d, amount, Reserved), u);
  }

  lemma StartEffect(db: Db, limits: Limits, t: TxId, p: ProviderId, amount: nat, d: Day)
    ensures var (after, done) := P.StartAttempt(db, limits, t, p, amount, d);
      && (!done ==> after == db)
      && (done ==>
            && t in db.orders && (db.orders[t].state.Pending? || db.orders[t].state.Rejected?)
              && p !in RowsOf(db.ledger, t)
            && t in after.orders && after.orders[t] == P.EnterOrdering(db.orders[t], p, amount)
            && RowsOf(after.ledger, t) == RowsOf(db.ledger, t)[p := LedgerRow(d, amount, Reserved)])
  {
    RowsAfterWrite(db.ledger, t, p, LedgerRow(d, amount, Reserved), t);
    RowKeys(db.ledger, t, p);
  }

  lemma TransitionFrame(db: Db, t: TxId, p: ProviderId, outcome: OrderState, u: TxId)
    ensures var after := P.TransitionAttempt(db, t, p, outcome).0;
      OrderFrame(db, after) && (u != t ==> SameOrderRows(db, after, u))
  {
    if (t, p) in db.ledger {
      RowsAfterWrite(db.ledger, t, p, db.ledger[(t, p)].(state := P.LedgerStateFor(outcome)), u);
    }
  }

  lemma TransitionEffect(db: Db, t: TxId, p: ProviderId, outcome: OrderState)
    ensures var (after, done) := P.TransitionAttempt(db, t, p, outcome);
      && (!done ==> after == db)
      && (done ==>
            && t in db.orders && db.orders[t].provider == Some(p) && db.orders[t].state.Ordering?
            && p in RowsOf(db.ledger, t) && t in after.orders
            && after.orders[t] == db.orders[t].(state := outcome,
                 attempts := db.orders[t].attempts + [OrderEvent(outcome, Some(p))])
            && RowsOf(after.ledger, t) ==
                 RowsOf(db.ledger, t)[p := RowsOf(db.ledger, t)[p].(state := P.LedgerStateFor(outcome))])
  {
    RowKeys(db.ledger, t, p);
    if (t, p) in db.ledger {
      RowsAfterWrite(db.ledger, t, p, db.ledger[(t, p)].(state := P.LedgerStateFor(outcome)), t);
    }
  }

  /** Only the order row of t may differ. */
  ghost predicate OneOrderFrame(before: Db, after: Db, t: TxId) {
    && OrderFrame(before, after) && after.ledger == before.ledger
    && (forall u :: u != t ==> (u in after.orders <==> u in before.orders))
    && (forall u :: u != t && u in before.orders ==> after.orders[u] == before.orders[u])
  }

  lemma BeginOrderFrame(db: Db, t: TxId, a: Address, amount: nat)
    ensures OneOrderFrame(db, P.BeginOrder(db, t, a, amount).0, t)
  {
  }

  lemma RejectFrame(db: Db, t: TxId)
    ensures OneOrderFrame(db, P.RejectWithoutProvider(db, t).0, t)
  {
  }

  lemma ConfirmationFrame(db: Db, t: TxId, state: OrderState)
    ensures OneOrderFrame(db, P.FinishConfirmation(db, t, state).0, t)
  {
  }

  lemma OrderWriteTouches(cfg: Config, db: Db, t: TxId, w: Write)
    requires w.OpenOrder? || w.RefuseOrder? || w.FinishConfirmation?
    ensures OneOrderFrame(db, Apply(cfg, db, t, w).0, t)
  {
    match w
    case OpenOrder(requested) =>
      if requested >= 0 {
        BeginOrderFrame(db, t, t.owner, requested);
      }
    case RefuseOrder => RejectFrame(db, t);
    case FinishConfirmation(result) => ConfirmationFrame(db, t, result);
  }

  /** A write for one transaction leaves every other transaction's rows alone. */
  lemma WriteTouchesOneTx(cfg: Config, db: Db, t: TxId, w: Write, u: TxId, trace: Trace)
    requires u != t
    ensures ViewOf(Apply(cfg, db, t, w).0, trace, u) == ViewOf(db, trace, u)
  {
    if RequestWrite(w) {
      RequestWriteTouches(cfg, db, t, w);
    } else if w.StartAttempt? {
      StartFrame(db, cfg.limits, t, w.provider, w.amount, w.day, u);
    } else if w.FinishAttempt? {
      TransitionFrame(db, t, w.provider, w.outcome, u);
    } else {
      OrderWriteTouches(cfg, db, t, w);
    }
  }

  // ---- request, claim and quota writes -----------------------------------------------------

  /** Settling or reserving a unit in the view. */
  ghost predicate RequestMove(cfg: Config, v: View, v': View, w: Write) {
    && v'.order == v.order && v'.rows == v.rows && v'.trace.calls == v.trace.calls
      && v'.trace.forwards == v.trace.forwards && v'.trace.arrivals == v.trace.arrivals
    && match w
       case AcquireClaim => v' == v
       case DropClaim => v' == v
       case DiscardRow => v' == v || (v'.request.None? && v'.trace == v.trace)
       case ReserveUnit(_) =>
         v' == v || (v.request.Some?
             && v'.request == Some(v.request.value.(state := QuotaReserved, quotaReserved := true))
             && v'.trace == v.trace.(reserved := v.trace.reserved + (if FlagOf(v) then 0 else 1)))
       case ConsumeUnit => Settles(v, v', true)
       case ReleaseUnit => Settles(v, v', false)
       case SaveEstimate => Restates(v, v', ResourceEstimated, false)
       case SetState(state) => Restates(v, v', state, false)
       case Complete(state) => Restates(v, v', state, true)
       case RecordOutcome(accepted) =>
         && (v.request.None? ==> v' == v)
         && (v.request.Some? ==>
              && v'.request ==
                   Some(Request(if accepted then UpstreamAccepted else UpstreamRejected, false, Some(accepted)))
              && v'.trace.outcomes == v.trace.outcomes + 1
                && v'.trace.accepted == v.trace.accepted + (if accepted then 1 else 0)
              && v'.trace.reserved == v.trace.reserved
              && var consume := accepted || (v.order.Some? && Billable(v.order.value.state));
              && v'.trace.consumed == v.trace.consumed + (if FlagOf(v) && consume then 1 else 0)
              && v'.trace.released == v.trace.released + (if FlagOf(v) && !consume then 1 else 0))
       case _ => true
  }

  ghost predicate Settles(v: View, v': View, consume: bool) {
    if !FlagOf(v) then v' == v
    else
      && v'.request == Some(v.request.value.(quotaReserved := false))
      && v'.trace == v.trace.(
           consumed := v.trace.consumed + (if consume then 1 else 0),
           released := v.trace.released + (if consume then 0 else 1))
  }

  /** The request gets a state, and a cached answer where it is completed. */
  ghost predicate Restates(v: View, v': View, state: RequestState, answered: bool) {
    && v'.trace == v.trace
    && (v.request.None? ==> v' == v)
    && (v.request.Some? ==>
          v'.request == Some(v.request.value.(
            state := state, response := if answered then Some(false) else v.request.value.response)))
  }

  ghost function RequestIn(db: Db, t: TxId): Option<Request> {
    if t in db.requests then Some(db.requests[t]) else None
  }

  lemma MoveQuotaEffect(db: Db, t: TxId, consume: bool)
    requires Flagged(db, t) ==> t.owner in db.bindings
    ensures var after := G.MoveQuota(db, t.owner, t, consume);
      if Flagged(db, t) then
        && RequestIn(after, t) == Some(db.requests[t].(quotaReserved := false))
        && UsedOf(after, t.owner) == UsedOf(db, t.owner) + (if consume then 1 else 0)
      else after == db
  {
  }

  lemma RecordOutcomeEffect(db: Db, t: TxId, accepted: bool)
    requires Flagged(db, t) ==> t.owner in db.bindings
    ensures var after := G.RecordBroadcastOutcome(db, t.owner, t, accepted);
      && (t !in db.requests ==> RequestIn(after, t) == None && UsedOf(after, t.owner) == UsedOf(db, t.owner))
      && (t in db.requests ==>
            && RequestIn(after, t) == Some(Request(if accepted then UpstreamAccepted else UpstreamRejected, false,
              Some(accepted)))
            && UsedOf(after, t.owner) == UsedOf(db, t.owner) +
                 (if Flagged(db, t) && (accepted || G.ProviderBillable(db, t)) then 1 else 0))
  {
    MoveQuotaEffect(db, t, accepted || G.ProviderBillable(db, t));
  }

  lemma ReserveQuotaEffect(db: Db, t: TxId, finite: bool, now: int)
    ensures var (after, done) := G.ReserveQuota(db, t.owner, t, finite, now);
      && (!done ==> after == db)
      && (done && t in db.requests ==>
            RequestIn(after, t) == Some(db.requests[t].(state := QuotaReserved, quotaReserved := true)))
      && (done && t !in db.requests ==> RequestIn(after, t) == None)
  {
  }

  lemma RestateEffect(db: Db, t: TxId, state: RequestState)
    ensures RequestIn(G.SetRequestState(db, t, state), t) ==
      if t in db.requests then Some(db.requests[t].(state := state)) else None
    ensures RequestIn(G.CompleteRequest(db, t, state), t) ==
      if t in db.requests then Some(db.requests[t].(state := state, response := Some(false))) else None
  {
  }

  lemma ClaimEffect(db: Db, a: Address, t: TxId)
    ensures RequestIn(G.TryAcquireAddressClaim(db, a, t).0, t) == RequestIn(db, t)
    ensures RequestIn(G.ReleaseAddressClaim(db, a, t), t) == RequestIn(db, t)
  {
  }

  lemma DiscardEffect(db: Db, t: TxId)
    ensures var after := G.DiscardUnpreparedRequest(db, t);
      after == db || (t in db.requests && !db.requests[t].quotaReserved && RequestIn(after, t) == None)
  {
  }

  predicate QuotaWrite(w: Write) {
    w.ReserveUnit? || w.ConsumeUnit? || w.ReleaseUnit? || w.RecordOutcome?
  }

  lemma ReserveMoves(cfg: Config, db: Db, trace: Trace, t: TxId, w: Write)
    requires w.ReserveUnit? && RequestFrame(db, Apply(cfg, db, t, w).0, t)
    ensures RequestMove(cfg, ViewOf(db, trace, t), After(cfg, db, trace, t, w), w)
  {
    ReserveQuotaEffect(db, t, cfg.provider, w.now);
  }

  lemma SettleMoves(cfg: Config, db: Db, trace: Trace, t: TxId, w: Write)
    requires (w.ConsumeUnit? || w.ReleaseUnit?) && RequestFrame(db, Apply(cfg, db, t, w).0, t)
    requires Flagged(db, t) ==> t.owner in db.bindings
    ensures RequestMove(cfg, ViewOf(db, trace, t), After(cfg, db, trace, t, w), w)
  {
    MoveQuotaEffect(db, t, w.ConsumeUnit?);
  }

  lemma OutcomeMoves(cfg: Config, db: Db, trace: Trace, t: TxId, w: Write)
    requires w.RecordOutcome? && RequestFrame(db, Apply(cfg, db, t, w).0, t)
    requires Flagged(db, t) ==> t.owner in db.bindings
    ensures RequestMove(cfg, ViewOf(db, trace, t), After(cfg, db, trace, t, w), w)
  {
    hide G.RecordBroadcastOutcome;
    RecordOutcomeEffect(db, t, w.accepted);
  }

  lemma PlainWriteMoves(cfg: Config, db: Db, trace: Trace, t: TxId, w: Write)
    requires RequestWrite(w) && !QuotaWrite(w)
    requires RequestFrame(db, Apply(cfg, db, t, w).0, t)
    ensures RequestMove(cfg, ViewOf(db, trace, t), After(cfg, db, trace, t, w), w)
  {
    match w
    case AcquireClaim => ClaimEffect(db, t.owner, t);
    case DropClaim => ClaimEffect(db, t.owner, t);
    case DiscardRow => DiscardEffect(db, t);
    case SaveEstimate => RestateEffect(db, t, ResourceEstimated);
    case SetState(state) => RestateEffect(db, t, state);
    case Complete(state) => RestateEffect(db, t, state);
  }

  lemma RequestWriteMoves(cfg: Config, db: Db, trace: Trace, t: TxId, w: Write)
    requires RequestWrite(w)
    requires Flagged(db, t) ==> t.owner in db.bindings
    ensures RequestMove(cfg, ViewOf(db, trace, t), After(cfg, db, trace, t, w), w)
  {
    RequestWriteTouches(cfg, db, t, w);
    if w.ReserveUnit? {
      ReserveMoves(cfg, db, trace, t, w);
    } else if w.ConsumeUnit? || w.ReleaseUnit? {
      SettleMoves(cfg, db, trace, t, w);
    } else if w.RecordOutcome? {
      OutcomeMoves(cfg, db, trace, t, w);
    } else {
      PlainWriteMoves(cfg, db, trace, t, w);
    }
  }

  lemma MoveKeepsTx(cfg: Config, t: TxId, v: View, v': View, w: Write)
    requires RequestWrite(w) && TxOk(cfg, t, v) && Allowed(v, w) && RequestMove(cfg, v, v', w)
    ensures TxOk(cfg, t, v')
  {
    if MayBeCharged(v.trace.calls) {
      ChargedIsBillable(cfg, t, v);
    }
  }

  /** An order that may have been charged is billable, so its unit is never given back. */
  lemma ChargedIsBillable(cfg: Config, t: TxId, v: View)
    requires TxOk(cfg, t, v) && MayBeCharged(v.trace.calls)
    ensures v.order.Some? && Billable(v.order.value.state)
  {
    var i :| 0 <= i < |v.trace.calls| && !v.trace.calls[i].answer.SaidNo?;
    assert !v.rows[v.trace.calls[i].provider].state.Released?;
  }

  // ---- order and ledger writes ---------------------------------------------------------------

  lemma EnterOrderingKeepsTx(cfg: Config, t: TxId, v: View, p: ProviderId, amount: nat, d: Day)
    requires TxOk(cfg, t, v) && v.order.Some? && p !in v.rows
    requires v.order.value.state.Pending? || v.order.value.state.Rejected?
    ensures !MayBeCharged(v.trace.calls)
    ensures TxOk(cfg, t, v.(
      order := Some(P.EnterOrdering(v.order.value, p, amount)), rows := v.rows[p := LedgerRow(d, amount, Reserved)]))
  {
    if MayBeCharged(v.trace.calls) {
      ChargedIsBillable(cfg, t, v);
      assert false;
    }
    var o, o' := v.order.value, P.EnterOrdering(v.order.value, p, amount);
    var rows' := v.rows[p := LedgerRow(d, amount, Reserved)];
    forall q
      ensures q in rows' <==> Attempted(o', q)
    {
      assert q in v.rows <==> Attempted(o, q);
    }
    assert OrderAgreesWithLedger(Some(o'), rows');
    assert CallsAgreeWithLedger(v.trace.calls, rows');
  }

  lemma FinishAttemptKeepsTx(cfg: Config, t: TxId, v: View, p: ProviderId, outcome: OrderState)
    requires TxOk(cfg, t, v) && v.order.Some? && v.order.value.state.Ordering? && v.order.value.provider == Some(p)
    requires p in v.rows
    requires outcome.Accepted? || outcome.Unknown? || (outcome.Rejected? && !MayBeCharged(v.trace.calls)
      && v.trace.consumed == 0)
    ensures TxOk(cfg, t, v.(
      order := Some(v.order.value.(state := outcome, attempts := v.order.value.attempts + [OrderEvent(outcome,
        Some(p))])),
      rows := v.rows[p := v.rows[p].(state := P.LedgerStateFor(outcome))]))
  {
    var o := v.order.value;
    var o' := o.(state := outcome, attempts := o.attempts + [OrderEvent(outcome, Some(p))]);
    var rows' := v.rows[p := v.rows[p].(state := P.LedgerStateFor(outcome))];
    forall q
      ensures q in rows' <==> Attempted(o', q)
    {
      assert q in v.rows <==> Attempted(o, q);
    }
    assert OrderAgreesWithLedger(Some(o'), rows');
    assert CallsAgreeWithLedger(v.trace.calls, rows');
  }

  /** Appending an event that is not an ORDERING one does not change which providers were attempted. */
  lemma AppendKeepsAttempts(o: Order, o': Order, e: OrderEvent)
    requires o'.attempts == o.attempts + [e] && !e.state.Ordering?
    ensures forall q :: Attempted(o', q) <==> Attempted(o, q)
  {
  }

  /** The order row of t after one of the three order-only writes. */
  ghost predicate OrderMove(cfg: Config, t: TxId, v: View, o': Option<Order>, w: Write) {
    || o' == v.order
    || (&& w.OpenOrder? && v.order.None? && v.request.Some? && o'.Some?
        && o'.value.receiver == t.owner && o'.value.state.Pending? && o'.value.attempts == [])
    || (&& w.RefuseOrder? && v.order.Some? && v.order.value.state.Pending?
        && o' == Some(v.order.value.(state := OrderState.Rejected,
             attempts := v.order.value.attempts + [OrderEvent(OrderState.Rejected, None)])))
    || (&& w.FinishConfirmation? && v.order.Some? && v.order.value.state.Accepted?
        && o' == Some(v.order.value.(state := w.result,
             attempts := v.order.value.attempts + [OrderEvent(w.result, v.order.value.provider)])))
  }

  ghost function OrderIn(db: Db, t: TxId): Option<Order> {
    if t in db.orders then Some(db.orders[t]) else None
  }

  lemma OrderWriteMoves(cfg: Config, db: Db, trace: Trace, t: TxId, w: Write)
    requires w.OpenOrder? || w.RefuseOrder? || w.FinishConfirmation?
    ensures OrderMove(cfg, t, ViewOf(db, trace, t), OrderIn(Apply(cfg, db, t, w).0, t), w)
  {
    match w
    case OpenOrder(requested) =>
    case RefuseOrder =>
    case FinishConfirmation(result) =>
  }

  lemma OrderMoveKeepsTx(cfg: Config, t: TxId, v: View, o': Option<Order>, w: Write)
    requires TxOk(cfg, t, v) && Allowed(v, w) && OrderMove(cfg, t, v, o', w)
    ensures TxOk(cfg, t, v.(order := o'))
  {
    if o' != v.order && v.order.Some? {
      var e := if w.RefuseOrder? then OrderEvent(OrderState.Rejected, None) else OrderEvent(o'.value.state,
        v.order.value.provider);
      AppendKeepsAttempts(v.order.value, o'.value, e);
      assert OrderAgreesWithLedger(o', v.rows);
    }
  }

  /** Opening or closing an attempt in the view. */
  ghost predicate AttemptMove(v: View, v': View, w: Write) {
    || v' == v
    || (&& w.StartAttempt? && v.order.Some? && w.provider !in v.rows
        && (v.order.value.state.Pending? || v.order.value.state.Rejected?)
        && v' == v.(order := Some(P.EnterOrdering(v.order.value, w.provider, w.amount)),
             rows := v.rows[w.provider := LedgerRow(w.day, w.amount, Reserved)]))
    || (&& w.FinishAttempt? && v.order.Some? && v.order.value.state.Ordering?
        && v.order.value.provider == Some(w.provider) && w.provider in v.rows
        && v' == v.(
             order := Some(v.order.value.(state := w.outcome,
               attempts := v.order.value.attempts + [OrderEvent(w.outcome, Some(w.provider))])),
             rows := v.rows[w.provider := v.rows[w.provider].(state := P.LedgerStateFor(w.outcome))]))
  }

  lemma StartMoves(cfg: Config, db: Db, trace: Trace, t: TxId, w: Write)
    requires w.StartAttempt?
    ensures AttemptMove(ViewOf(db, trace, t), After(cfg, db, trace, t, w), w)
  {
    StartFrame(db, cfg.limits, t, w.provider, w.amount, w.day, t);
    StartEffect(db, cfg.limits, t, w.provider, w.amount, w.day);
  }

  lemma FinishMoves(cfg: Config, db: Db, trace: Trace, t: TxId, w: Write)
    requires w.FinishAttempt?
    ensures AttemptMove(ViewOf(db, trace, t), After(cfg, db, trace, t, w), w)
  {
    TransitionFrame(db, t, w.provider, w.outcome, t);
    TransitionEffect(db, t, w.provider, w.outcome);
  }

  lemma AttemptMoveKeepsTx(cfg: Config, t: TxId, v: View, v': View, w: Write)
    requires TxOk(cfg, t, v) && Allowed(v, w) && (w.StartAttempt? || w.FinishAttempt?) && AttemptMove(v, v', w)
    ensures TxOk(cfg, t, v')
  {
    if v' == v {
    } else if w.StartAttempt? {
      EnterOrderingKeepsTx(cfg, t, v, w.provider, w.amount, w.day);
    } else {
      FinishAttemptKeepsTx(cfg, t, v, w.provider, w.outcome);
    }
  }

  lemma WriteKeepsTx(cfg: Config, db: Db, trace: Trace, t: TxId, w: Write)
    requires TxOk(cfg, t, ViewOf(db, trace, t)) && Allowed(ViewOf(db, trace, t), w)
    requires Flagged(db, t) ==> t.owner in db.bindings
    ensures TxOk(cfg, t, After(cfg, db, trace, t, w))
  {
    var v, v' := ViewOf(db, trace, t), After(cfg, db, trace, t, w);
    if RequestWrite(w) {
      RequestWriteMoves(cfg, db, trace, t, w);
      MoveKeepsTx(cfg, t, v, v', w);
    } else if w.StartAttempt? {
      StartMoves(cfg, db, trace, t, w);
      AttemptMoveKeepsTx(cfg, t, v, v', w);
    } else if w.FinishAttempt? {
      FinishMoves(cfg, db, trace, t, w);
      AttemptMoveKeepsTx(cfg, t, v, v', w);
    } else {
      OrderWriteTouches(cfg, db, t, w);
      OrderWriteMoves(cfg, db, trace, t, w);
      OrderMoveKeepsTx(cfg, t, v, v'.order, w);
    }
  }
}
