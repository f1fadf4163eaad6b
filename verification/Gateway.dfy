/**
 * The gateway as a machine over its tables. An event is one atomic thing: one database
 * transaction of one handler or worker, one answer of the outside world, an administrator's
 * write, a crash or a start. A run is any finite sequence of events, so a theorem about all
 * runs covers every interleaving, every failed write and every crash point.
 */
module Gateway {
  import opened Options
  import opened Schema
  import opened EnergyPackages
  import G = GatewayRepository
  import P = ProviderRepository
  import ResourceMath

  // ---- configuration -----------------------------------------------------------------

  datatype Config = Config(
    boundAddress: bool, provider: bool, sponsorEnergy: bool, sponsorBandwidth: bool,
    forwardInsufficient: bool, forwardUnsupported: bool, ownerEnergyBurn: bool,
    safetyBps: nat, limits: Limits, registry: Registry)

  /** The cross-checks the configuration loader makes for paid external energy. */
  predicate Validated(cfg: Config) {
    cfg.provider ==>
      && cfg.sponsorEnergy && !cfg.sponsorBandwidth && cfg.boundAddress
      && !cfg.forwardInsufficient && !cfg.forwardUnsupported && !cfg.ownerEnergyBurn
  }

  // ---- what happened outside the tables ---------------------------------------------

  datatype Answer = InFlight | SaidYes | SaidNo | Unclear

  /** One rentEnergy call; shortfall is the missing energy as last read before ordering. */
  datatype Call = Call(provider: ProviderId, amount: nat, day: Day, shortfall: Option<nat>, answer: Answer)

  /** One sponsored broadcast: the safe requirement, the last reading before it, and what came back. */
  datatype Forward = Forward(required: Option<nat>, reading: nat, reply: UpstreamReply)

  /** A reading taken while a delivery was awaited, and how many calls had been made by then. */
  datatype Arrival = Arrival(required: Option<nat>, reading: nat, made: nat)

  /** The history of one transaction: units, recorded outcomes (accepted ones apart), calls, broadcasts, deliveries. */
  datatype Trace = Trace(
    reserved: nat, consumed: nat, released: nat, outcomes: nat, accepted: nat,
    calls: seq<Call>, forwards: seq<Forward>, arrivals: seq<Arrival>)

  const NO_TRACE := Trace(0, 0, 0, 0, 0, [], [], [])

  // ---- handlers ----------------------------------------------------------------------

  datatype Error = Paid | Insufficient | Ordinary

  /** An energy order to be placed: the estimate, the quoted package, and the shortfall it must cover. */
  datatype Plan = Plan(requested: int, minimum: int, shortfall: Option<nat>)

  datatype Offer = Offer(provider: ProviderId, amount: Option<int>)

  datatype Pc =
    // sponsorAndForward
    | Claiming
    | Discarding
    | Reserving
    | DroppingClaim
    | CachingReject
    | Estimating
    | SavingEstimate
    // prepare and rentExternalEnergy
    | Delegating
    | Planning
    // orderEnergy
    | Opening(plan: Plan)
    | Listing(plan: Plan)
    | RefusingOrder
    | Choosing(plan: Plan, rest: seq<Offer>, rejected: bool)
    | Attempting(plan: Plan, provider: ProviderId, amount: int, rest: seq<Offer>, rejected: bool)
    | Rereading(plan: Plan, rest: seq<Offer>, rejected: bool)
    | Ready(plan: Plan, provider: ProviderId, granted: nat, day: Day, rest: seq<Offer>)
    | Calling(plan: Plan, provider: ProviderId, rest: seq<Offer>)
    | Refusing(plan: Plan, provider: ProviderId, rest: seq<Offer>, final: bool)
    | Accepting(provider: ProviderId)
    | Doubting(provider: ProviderId)
    | Exhausted
    // rentExternalEnergy after the order, and the recheck
    | Consuming(ordered: bool)
    | Confirming
    | Fulfilling
    | TimingOut
    | Rechecking(paid: bool)
    // sponsorAndForward after preparation
    | Readying
    | Forwarding
    | Recording(accepted: bool)
    // its catch block
    | CatchConsuming
    | CatchReleasing
    | CatchDropping
    | CatchReadying
    | CatchFailing

  /**
   * A handler past the insertion of its request row, with the local flags of sponsorAndForward.
   * late marks a handler whose discard was carried out although it saw the call fail: its row is gone.
   */
  datatype Handler = Handler(
    tx: TxId, pc: Pc, claimed: bool, retain: bool, quota: bool, forwarded: bool, charged: bool,
    estimate: nat, need: Option<nat>, reading: nat, late: bool)

  function NewHandler(t: TxId): Handler {
    Handler(t, Claiming, false, false, false, false, false, 0, None, 0, false)
  }

  /** TriggerSmartContract whose energy must not be paid by burning the owner's TRX. */
  predicate Guarded(cfg: Config, t: TxId) {
    t.contract.TriggerSmartContract? && !cfg.ownerEnergyBurn
  }

  /** What becomes of a handler: it goes on with the same transaction, or it has answered. */
  predicate Stays(next: Option<Handler>, h: Handler) {
    next.Some? ==> next.value.tx == h.tx && next.value.late == h.late
  }

  // The catch block, up to its next database write; None means the handler has answered.

  function Catch(cfg: Config, h: Handler, err: Error): (next: Option<Handler>)
    ensures Stays(next, h)
  {
    if err.Paid? && h.quota then Some(h.(retain := true, pc := CatchConsuming)) else CatchRest(cfg, h, err)
  }

  function CatchRest(cfg: Config, h: Handler, err: Error): (next: Option<Handler>)
    ensures Stays(next, h)
  {
    var kept := if h.charged then h.(retain := true, quota := false) else h;
    if cfg.forwardInsufficient && err.Insufficient? && !Guarded(cfg, h.tx) then Some(kept.(pc := Forwarding))
    else if kept.forwarded then None
    else if kept.quota then Some(kept.(pc := CatchReleasing))
    else CatchUnclaim(kept)
  }

  function CatchUnclaim(h: Handler): (next: Option<Handler>)
    ensures Stays(next, h)
  {
    if h.claimed && !h.retain then Some(h.(pc := CatchDropping)) else CatchConclude(h)
  }

  function CatchConclude(h: Handler): (next: Option<Handler>)
    ensures Stays(next, h)
  {
    if h.retain then Some(h.(pc := CatchReadying)) else Some(h.(pc := CatchFailing))
  }

  // The end of prepare.

  function AfterPrepare(cfg: Config, h: Handler, paid: bool): Handler {
    if !cfg.ownerEnergyBurn && h.need.Some? then h.(pc := Rechecking(paid)) else Prepared(h, paid)
  }

  function Prepared(h: Handler, paid: bool): Handler {
    if paid then h.(charged := true, quota := false, retain := true, pc := Readying) else h.(pc := Readying)
  }

  /** A duplicate result: an order that may be paid consumes the unit, any other one is an ordinary failure. */
  function Duplicate(cfg: Config, h: Handler, state: OrderState): (next: Option<Handler>)
    ensures Stays(next, h)
  {
    if state.Accepted? || state.Fulfilled? then Some(h.(pc := Consuming(true)))
    else if state.Ordering? || state.Unknown? then Some(h.(pc := Consuming(false)))
    else Catch(cfg, h, Ordinary)
  }

  // ---- database writes ---------------------------------------------------------------

  datatype Write =
    | AcquireClaim
    | DropClaim
    | DiscardRow
    | ReserveUnit(now: int)
    | ConsumeUnit
    | ReleaseUnit
    | SaveEstimate
    | SetState(state: RequestState)
    | Complete(state: RequestState)
    | RecordOutcome(accepted: bool)
    | OpenOrder(requested: int)
    | RefuseOrder
    | StartAttempt(provider: ProviderId, amount: nat, day: Day)
    | FinishAttempt(provider: ProviderId, outcome: OrderState)
    | FinishConfirmation(result: OrderState)

  /** What the caller learns from a write that was carried out and acknowledged. */
  datatype Reply = Yes | No | Found(order: Order) | Thrown

  function Succeeded(done: bool): Reply {
    if done then Yes else Thrown
  }

  ghost function Apply(cfg: Config, db: Db, t: TxId, w: Write): (Db, Reply) {
    match w
    case AcquireClaim =>
      var r := G.TryAcquireAddressClaim(db, t.owner, t);
      (r.0, if r.1.Changed? then Yes else if r.1.Unchanged? then No else Thrown)
    case DropClaim => (G.ReleaseAddressClaim(db, t.owner, t), Yes)
    case DiscardRow => (G.DiscardUnpreparedRequest(db, t), Yes)
    case ReserveUnit(now) =>
      var r := G.ReserveQuota(db, t.owner, t, cfg.provider, now);
      (r.0, if r.1 then Yes else No)
    case ConsumeUnit => (G.MoveQuota(db, t.owner, t, true), Yes)
    case ReleaseUnit => (G.MoveQuota(db, t.owner, t, false), Yes)
    case SaveEstimate => (G.SetRequestState(db, t, ResourceEstimated), Yes)
    case SetState(state) => (G.SetRequestState(db, t, state), Yes)
    case Complete(state) => (G.CompleteRequest(db, t, state), Yes)
    case RecordOutcome(accepted) => (G.RecordBroadcastOutcome(db, t.owner, t, accepted), Yes)
    case OpenOrder(requested) =>
      if requested < 0 then (db, Thrown) else
      var r := P.BeginOrder(db, t, t.owner, requested);
      (r.0, if r.1.Created? then Yes else if r.1.Existing? then Found(r.1.order) else Thrown)
    case RefuseOrder =>
      var r := P.RejectWithoutProvider(db, t);
      (r.0, Succeeded(r.1))
    case StartAttempt(p, amount, day) =>
      var r := P.StartAttempt(db, cfg.limits, t, p, amount, day);
      (r.0, if r.1 then Yes else No)
    case FinishAttempt(p, outcome) =>
      var r := P.TransitionAttempt(db, t, p, outcome);
      (r.0, Succeeded(r.1))
    case FinishConfirmation(state) =>
      var r := P.FinishConfirmation(db, t, state);
      (r.0, Succeeded(r.1))
  }

  // ---- events ------------------------------------------------------------------------

  /** A write is acknowledged, not carried out, or carried out with its acknowledgement lost. */
  datatype Fault = Acked | NotApplied | Unacked

  datatype UpstreamReply = Undecodable | Decided(accepted: bool) | NoReply

  /** What a handler's step takes in besides the tables. */
  datatype Input =
    | NoInput
    | Clock(now: int)
    | Fails(error: Error)
    | Estimated(energy: nat)
    | Reading(available: nat)
    | Quoted(available: nat, listing: seq<ProviderId>, quote: Quote)
    | Listed(listing: seq<ProviderId>)
    | Budgeted(day: Day, decrypts: bool)
    | Deadline(passed: bool)
    | Answered(answer: Answer)
    | TimedOut
    | Upstream(reply: UpstreamReply)

  datatype Event =
    | Arrive(id: nat, tx: TxId, wellFormed: bool, permitted: bool, now: int, fault: Fault)
    | Step(id: nat, input: Input, fault: Fault)
    | SweepClaims
    | ListStale(found: set<TxId>)
    | Recover(tx: TxId, accepted: bool, fault: Fault)
    | ListAwaiting(found: set<TxId>)
    | Finalize(tx: TxId, success: bool, fault: Fault)
    | Expire(tx: TxId, fault: Fault)
    | PutBinding(address: Address, max: Option<Option<nat>>, expiresAt: Option<Option<int>>, enabled: Option<bool>)
    | ResetBinding(address: Address, max: Option<Option<nat>>)
    | PutProvider(provider: ProviderId, row: Provider)
    | MoveLease(tx: TxId, leased: bool)
    | Crash
    | Start(fault: Fault)

  /**
   * Records that steer nothing and only say what the run did: history; relayed (transactions passed through
   * unsponsored); peak (the largest limit in force since an address was last reset); writtenOff
   * (usage that resets have cleared); clobbered (transactions a late handler wrote to while another handler was
   * preparing them); overwritten (transactions a late handler wrote to at all); stripped (addresses whose claim
   * the clean-up took from a handler still preparing).
   */
  datatype State = State(
    db: Db, up: bool, handlers: map<nat, Handler>, stale: set<TxId>, awaiting: set<TxId>,
    history: map<TxId, Trace>, relayed: seq<TxId>,
    peak: map<Address, nat>, writtenOff: map<Address, nat>, clobbered: set<TxId>,
    overwritten: set<TxId>, stripped: set<Address>)

  function Init(): State {
    State(Db(map[], map[], map[], map[], map[], map[], {}), false, map[], {}, {}, map[], [], map[], map[], {}, {}, {})
  }

  function TraceOf(s: State, t: TxId): Trace {
    if t in s.history then s.history[t] else NO_TRACE
  }

  function WithTrace(s: State, t: TxId, trace: Trace): State {
    s.(history := s.history[t := trace])
  }

  predicate Flagged(db: Db, t: TxId) {
    t in db.requests && db.requests[t].quotaReserved
  }

  function UsedOf(db: Db, a: Address): nat {
    if a in db.bindings then db.bindings[a].used else 0
  }

  /** The history entry of a committed write, read off the tables before and after it. */
  function Observe(trace: Trace, before: Db, after: Db, t: TxId, w: Write): Trace {
    var settled := Flagged(before, t) && !Flagged(after, t);
    var consumed := UsedOf(after, t.owner) > UsedOf(before, t.owner);
    trace.(
      reserved := trace.reserved + (if !Flagged(before, t) && Flagged(after, t) then 1 else 0),
      consumed := trace.consumed + (if settled && consumed then 1 else 0),
      released := trace.released + (if settled && !consumed then 1 else 0),
      outcomes := trace.outcomes + (if w.RecordOutcome? && t in before.requests then 1 else 0),
      accepted := trace.accepted + (if w.RecordOutcome? && w.accepted && t in before.requests then 1 else 0))
  }

  ghost function Commit(cfg: Config, s: State, t: TxId, w: Write, fault: Fault): State {
    if fault.NotApplied? then s
    else
      var db := Apply(cfg, s.db, t, w).0;
      WithTrace(s.(db := db), t, Observe(TraceOf(s, t), s.db, db, t, w))
  }

  // ---- the steps of a handler ----------------------------------------------------------

  /** The write a handler issues next, if its next step is one. */
  function Intent(cfg: Config, h: Handler, input: Input): Option<Write> {
    match h.pc
    case Claiming => Some(AcquireClaim)
    case Discarding => Some(DiscardRow)
    case Reserving => if input.Clock? then Some(ReserveUnit(input.now)) else None
    case DroppingClaim => Some(DropClaim)
    case CachingReject => Some(Complete(RequestState.Rejected))
    case SavingEstimate => Some(SaveEstimate)
    case Opening(plan) => Some(OpenOrder(plan.requested))
    case RefusingOrder => Some(RefuseOrder)
    case Attempting(_, p, amount, _, _) =>
      if input.Budgeted? && P.ValidEnergyAmount(amount) then Some(StartAttempt(p, amount, input.day)) else None
    case Refusing(_, p, _, _) => Some(FinishAttempt(p, OrderState.Rejected))
    case Accepting(p) => Some(FinishAttempt(p, Accepted))
    case Doubting(p) => Some(FinishAttempt(p, Unknown))
    case Consuming(_) => Some(ConsumeUnit)
    case Fulfilling => Some(FinishConfirmation(Fulfilled))
    case TimingOut => Some(FinishConfirmation(Unknown))
    case Readying => if input == Deadline(true) then None else Some(SetState(ResourceReady))
    case Recording(accepted) => Some(RecordOutcome(accepted))
    case CatchConsuming => Some(ConsumeUnit)
    case CatchReleasing => Some(ReleaseUnit)
    case CatchDropping => Some(DropClaim)
    case CatchReadying => Some(SetState(ResourceReady))
    case CatchFailing => Some(Complete(Failed))
    case _ => None
  }

  /** beginOrder found an order of this transaction, or made one. */
  function Opened(cfg: Config, h: Handler, plan: Plan, reply: Reply): (next: Option<Handler>)
    ensures Stays(next, h)
  {
    if !reply.Found? then Some(h.(pc := Listing(plan)))
    else if reply.order.receiver != h.tx.owner || reply.order.requested != plan.requested then Catch(cfg, h, Ordinary)
    else if !reply.order.state.Pending? then Duplicate(cfg, h, reply.order.state)
    else Some(h.(pc := Listing(plan)))
  }

  /** startAttempt reserved a budget row, or did not; a key that does not decrypt is a rejection. */
  function Started(
    h: Handler, plan: Plan, p: ProviderId, amount: int, rest: seq<Offer>, rejected: bool, reply: Reply,
      input: Input): (next: Option<Handler>)
    ensures Stays(next, h)
  {
    if reply.No? then Some(h.(pc := Rereading(plan, rest, rejected)))
    else if input.Budgeted? && input.decrypts && amount >= 0 then Some(h.(pc := Ready(plan, p, amount, input.day,
      rest)))
    else Some(h.(pc := Refusing(plan, p, rest, false)))
  }

  /** After an acknowledged write. */
  function Resume(cfg: Config, h: Handler, reply: Reply, input: Input): Option<Handler> {
    match h.pc
    case Claiming =>
      if reply.No? then Some(h.(pc := Discarding))
      else if cfg.boundAddress then Some(h.(claimed := true, pc := Reserving))
      else Some(h.(claimed := true, pc := Estimating))
    case Reserving =>
      if reply.Yes? then Some(h.(quota := true, pc := Estimating)) else Some(h.(pc := DroppingClaim))
    case DroppingClaim => Some(h.(claimed := false, pc := CachingReject))
    case SavingEstimate =>
      if cfg.provider && h.need.Some? then Some(h.(pc := Planning)) else Some(h.(pc := Delegating))
    case Opening(plan) => Opened(cfg, h, plan, reply)
    case RefusingOrder => Catch(cfg, h, Ordinary)
    case Attempting(plan, p, amount, rest, rejected) => Started(h, plan, p, amount, rest, rejected, reply, input)
    case Refusing(plan, p, rest, final) =>
      if final then Catch(cfg, h, Ordinary) else Some(h.(pc := Choosing(plan, rest, true)))
    case Accepting(_) => Some(h.(pc := Consuming(true)))
    case Doubting(_) => Some(h.(pc := Consuming(false)))
    case Consuming(ordered) => if ordered then Some(h.(pc := Confirming)) else Catch(cfg, h, Paid)
    case Fulfilling => Some(AfterPrepare(cfg, h, true))
    case TimingOut => Catch(cfg, h, Paid)
    case Readying => Some(h.(pc := Forwarding))
    case CatchConsuming => CatchRest(cfg, h.(quota := false), Paid)
    case CatchReleasing => CatchUnclaim(h)
    case CatchDropping => CatchConclude(h.(claimed := false))
    case _ => None
  }

  /** After a write that threw, whether or not it was carried out. */
  function Fail(cfg: Config, h: Handler): Option<Handler> {
    match h.pc
    case Accepting(p) => Some(h.(pc := Doubting(p)))
    case Doubting(_) => Some(h.(pc := Consuming(false)))
    case Consuming(_) => Catch(cfg, h, Paid)
    case Fulfilling => Some(AfterPrepare(cfg, h, true))
    case TimingOut => Catch(cfg, h, Paid)
    case Readying => if h.charged then Some(h.(pc := Forwarding)) else Catch(cfg, h, Ordinary)
    case CatchConsuming => CatchRest(cfg, h.(quota := false), Paid)
    case CatchReleasing => CatchUnclaim(h)
    case CatchDropping => CatchConclude(h.(claimed := false))
    case CatchReadying => None
    case CatchFailing => None
    case _ => Catch(cfg, h, Ordinary)
  }

  /** The handler's row may be gone although its discard threw. */
  function MarkLate(next: Option<Handler>): Option<Handler> {
    match next
    case None => None
    case Some(h) => Some(h.(late := true))
  }

  function Place(s: State, id: nat, next: Option<Handler>): State {
    s.(handlers := if next.Some? then s.handlers[id := next.value] else s.handlers - {id})
  }

  /** A handler that holds, or is about to take, the address claim it will order under. */
  predicate Preparing(h: Handler) {
    && !h.late
    && (|| h.pc.Claiming? || h.pc.Reserving? || h.pc.Estimating? || h.pc.SavingEstimate? || h.pc.Planning?
      || h.pc.Opening?
        || h.pc.Listing? || h.pc.Choosing? || h.pc.Attempting? || h.pc.Rereading? || h.pc.Ready? || h.pc.Calling?
          || h.pc.Refusing?)
  }

  predicate Holds(db: Db, t: TxId) {
    t.owner in db.claims && db.claims[t.owner] == t
  }

  predicate UnderPreparation(s: State, t: TxId) {
    exists i :: i in s.handlers && s.handlers[i].tx == t && Preparing(s.handlers[i])
  }

  /** Where a write leaves its handler. */
  ghost function AfterWrite(cfg: Config, db: Db, h: Handler, w: Write, input: Input, fault: Fault): Option<Handler> {
    var reply := Apply(cfg, db, h.tx, w).1;
    if fault.Acked? && !reply.Thrown? then Resume(cfg, h, reply, input)
    else if h.pc.Discarding? && fault.Unacked? then MarkLate(Fail(cfg, h))
    else Fail(cfg, h)
  }

  ghost function WriteStep(cfg: Config, s: State, id: nat, h: Handler, w: Write, input: Input, fault: Fault): State {
    var hit := h.late && !fault.NotApplied? && UnderPreparation(s, h.tx);
    var after := Commit(cfg, s, h.tx, w, fault).(
      clobbered := s.clobbered + (if hit then {h.tx} else {}),
      overwritten := s.overwritten + (if h.late && !fault.NotApplied? then {h.tx} else {}));
    Place(after, id, AfterWrite(cfg, s.db, h, w, input, fault))
  }

  /** listEnabledProviders: enabled rows in priority order, the first hundred of them. */
  predicate ListsEnabled(providers: map<ProviderId, Provider>, listing: seq<ProviderId>) {
    && |listing| <= 100
    && (forall i :: 0 <= i < |listing| ==> listing[i] in providers && providers[listing[i]].enabled)
    && (forall i, j :: 0 <= i < j < |listing| ==> Precedes(providers, listing[i], listing[j]))
    && (forall p :: p in providers && providers[p].enabled && p !in listing ==>
          |listing| == 100 && forall i :: 0 <= i < |listing| ==> Precedes(providers, listing[i], p))
  }

  predicate Precedes(providers: map<ProviderId, Provider>, p: ProviderId, q: ProviderId) {
    p in providers && q in providers &&
    (providers[p].priority < providers[q].priority || (providers[p].priority == providers[q].priority && p < q))
  }

  function RowsListed(providers: map<ProviderId, Provider>, listing: seq<ProviderId>): seq<Provider>
    requires forall i :: 0 <= i < |listing| ==> listing[i] in providers
  {
    seq(|listing|, i requires 0 <= i < |listing| => providers[listing[i]])
  }

  function Offers(cfg: Config, providers: map<ProviderId, Provider>, listing: seq<ProviderId>, plan: Plan): seq<Offer>
    requires forall i :: 0 <= i < |listing| ==> listing[i] in providers
  {
    seq(|listing|, i requires 0 <= i < |listing| =>
      Offer(listing[i], Offered(cfg.registry, providers[listing[i]].adapter, plan.requested, Some(plan.minimum))))
  }

  /** The rest of a transaction's energy that has to be ordered; owner burn leaves it open. */
  function StrictMinimum(cfg: Config, need: nat, available: nat): Option<int> {
    if cfg.ownerEnergyBurn then None else Some(need - available)
  }

  /** What a step without a database write comes to; an input that does not fit the pc is Ignored. */
  datatype Sensed = Ignored | Moved(trace: Trace, next: Option<Handler>)

  /** calculateRequirements. */
  function SenseEstimate(cfg: Config, trace: Trace, h: Handler, input: Input): (sensed: Sensed)
    ensures sensed.Moved? ==> Stays(sensed.next, h)
  {
    match input
    case Estimated(energy) =>
      var need := if cfg.sponsorEnergy && h.tx.contract.TriggerSmartContract?
        then Some(ResourceMath.ApplySafetyBasisPoints(energy, cfg.safetyBps)) else None;
      Moved(trace, Some(h.(estimate := energy, need := need, pc := SavingEstimate)))
    case Fails(_) => Moved(trace, Catch(cfg, h, Ordinary))
    case _ => Ignored
  }

  /** prepare when nothing is ordered from a provider. */
  function SenseDelegation(cfg: Config, trace: Trace, h: Handler, input: Input): (sensed: Sensed)
    ensures sensed.Moved? ==> Stays(sensed.next, h)
  {
    match input
    case NoInput => Moved(trace, Some(AfterPrepare(cfg, h, false)))
    case Fails(err) => if err.Paid? then Ignored else Moved(trace, Catch(cfg, h, err))
    case _ => Ignored
  }

  /** rentExternalEnergy up to the order: enough energy is there, or a package that covers the rest is quoted. */
  function SensePlan(cfg: Config, db: Db, trace: Trace, h: Handler, input: Input): (sensed: Sensed)
    ensures sensed.Moved? ==> Stays(sensed.next, h)
  {
    match input
    case Fails(err) => if err.Paid? then Ignored else Moved(trace, Catch(cfg, h, err))
    case Quoted(available, listing, quote) =>
      if h.need.None? then Ignored
      else if available >= h.need.value then Moved(trace, Some(AfterPrepare(cfg, h, false)))
      else
        var minimum := StrictMinimum(cfg, h.need.value, available);
        if !ListsEnabled(db.providers, listing) then Ignored
        else if !IsQuote(cfg.registry, RowsListed(db.providers, listing), h.estimate, minimum, quote) then Ignored
        else if !quote.Package? || !P.ValidEnergyAmount(quote.amount) then Moved(trace, Catch(cfg, h, Ordinary))
        else
          var shortfall := if cfg.ownerEnergyBurn then None else Some(h.need.value - available);
          Moved(trace, Some(h.(pc := Opening(Plan(h.estimate, quote.amount, shortfall)))))
    case _ => Ignored
  }

  // orderEnergy between its writes.

  function SenseListing(cfg: Config, db: Db, trace: Trace, h: Handler, plan: Plan, input: Input): (sensed: Sensed)
    ensures sensed.Moved? ==> Stays(sensed.next, h)
  {
    match input
    case Listed(listing) =>
      if !ListsEnabled(db.providers, listing) then Ignored
      else if listing == [] then Moved(trace, Some(h.(pc := RefusingOrder)))
      else Moved(trace, Some(h.(pc := Choosing(plan, Offers(cfg, db.providers, listing, plan), false))))
    case Fails(_) => Moved(trace, Catch(cfg, h, Ordinary))
    case _ => Ignored
  }

  function SenseChoice(cfg: Config, trace: Trace, h: Handler, plan: Plan, rest: seq<Offer>,
      rejected: bool): (sensed: Sensed)
    ensures sensed.Moved? ==> Stays(sensed.next, h)
  {
    if rest == [] then Moved(trace, if rejected then Catch(cfg, h, Ordinary) else Some(h.(pc := Exhausted)))
    else if rest[0].amount.None? then Moved(trace, Some(h.(pc := Choosing(plan, rest[1..], rejected))))
    else Moved(trace, Some(h.(pc := Attempting(plan, rest[0].provider, rest[0].amount.value, rest[1..], rejected))))
  }

  function SenseAttempt(cfg: Config, trace: Trace, h: Handler, amount: int): (sensed: Sensed)
    ensures sensed.Moved? ==> Stays(sensed.next, h)
  {
    if P.ValidEnergyAmount(amount) then Ignored else Moved(trace, Catch(cfg, h, Ordinary))
  }

  function SenseReread(cfg: Config, db: Db, trace: Trace, h: Handler, plan: Plan, rest: seq<Offer>, rejected: bool,
      input: Input): (sensed: Sensed)
    ensures sensed.Moved? ==> Stays(sensed.next, h)
  {
    match input
    case NoInput =>
      if h.tx in db.orders && !db.orders[h.tx].state.Pending? && !db.orders[h.tx].state.Rejected?
      then Moved(trace, Duplicate(cfg, h, db.orders[h.tx].state))
      else Moved(trace, Some(h.(pc := Choosing(plan, rest, rejected))))
    case Fails(_) => Moved(trace, Catch(cfg, h, Ordinary))
    case _ => Ignored
  }

  function SenseExhausted(cfg: Config, db: Db, trace: Trace, h: Handler, input: Input): (sensed: Sensed)
    ensures sensed.Moved? ==> Stays(sensed.next, h)
  {
    match input
    case NoInput =>
      if h.tx !in db.orders || db.orders[h.tx].state.Pending? then Moved(trace, Some(h.(pc := RefusingOrder)))
      else Moved(trace, Duplicate(cfg, h, db.orders[h.tx].state))
    case Fails(_) => Moved(trace, Catch(cfg, h, Ordinary))
    case _ => Ignored
  }

  /** The rentEnergy call, unless its deadline has passed. */
  function SenseReady(
    trace: Trace, h: Handler, plan: Plan, p: ProviderId, amount: nat, day: Day, rest: seq<Offer>,
      input: Input): (sensed: Sensed)
    ensures sensed.Moved? ==> Stays(sensed.next, h)
  {
    match input
    case Deadline(passed) =>
      if passed then Moved(trace, Some(h.(pc := Refusing(plan, p, rest, true))))
      else
        Moved(trace.(calls := trace.calls + [Call(p, amount, day, plan.shortfall, InFlight)]),
          Some(h.(pc := Calling(plan, p, rest))))
    case _ => Ignored
  }

  /** Its answer. */
  function SenseAnswer(trace: Trace, h: Handler, plan: Plan, p: ProviderId, rest: seq<Offer>,
      input: Input): (sensed: Sensed)
    ensures sensed.Moved? ==> Stays(sensed.next, h)
  {
    match input
    case Answered(answer) =>
      if answer.InFlight? || trace.calls == [] then Ignored
      else
        var last := |trace.calls| - 1;
        Moved(trace.(calls := trace.calls[last := trace.calls[last].(answer := answer)]),
          Some(h.(pc := AfterAnswer(plan, p, rest, answer))))
    case _ => Ignored
  }

  function AfterAnswer(plan: Plan, p: ProviderId, rest: seq<Offer>, answer: Answer): Pc {
    match answer
    case SaidYes => Accepting(p)
    case SaidNo => Refusing(plan, p, rest, false)
    case _ => Doubting(p)
  }

  /**
   * A delivery poll. With owner burn it may be satisfied with less than the requirement, so
   * there any reading is taken to satisfy it.
   */
  function SenseArrival(cfg: Config, trace: Trace, h: Handler, input: Input): (sensed: Sensed)
    ensures sensed.Moved? ==> Stays(sensed.next, h)
  {
    match input
    case Reading(available) =>
      var seen := trace.(arrivals := trace.arrivals + [Arrival(h.need, available, |trace.calls|)]);
      if h.need.Some? && (available >= h.need.value || cfg.ownerEnergyBurn)
      then Moved(seen, Some(h.(reading := available, pc := Fulfilling)))
      else Moved(seen, Some(h.(reading := available)))
    case TimedOut => Moved(trace, Some(h.(pc := TimingOut)))
    case _ => Ignored
  }

  /** The recheck before the broadcast. */
  function SenseRecheck(cfg: Config, trace: Trace, h: Handler, paid: bool, input: Input): (sensed: Sensed)
    ensures sensed.Moved? ==> Stays(sensed.next, h)
  {
    match input
    case Reading(available) =>
      if h.need.Some? && available >= h.need.value
      then Moved(trace, Some(Prepared(h.(reading := available), paid)))
      else Moved(trace, Catch(cfg, h.(reading := available), if paid then Paid else Ordinary))
    case Fails(_) => Moved(trace, Catch(cfg, h, if paid then Paid else Ordinary))
    case _ => Ignored
  }

  /** The lifetime check, whose failure does not stop a paid transaction. */
  function SenseLifetime(cfg: Config, trace: Trace, h: Handler, input: Input): (sensed: Sensed)
    ensures sensed.Moved? ==> Stays(sensed.next, h)
  {
    match input
    case Deadline(passed) => if !passed || h.charged then Ignored else Moved(trace, Catch(cfg, h, Ordinary))
    case _ => Ignored
  }

  /** The one upstream attempt. */
  function SenseForward(cfg: Config, trace: Trace, h: Handler, input: Input): (sensed: Sensed)
    ensures sensed.Moved? ==> Stays(sensed.next, h)
  {
    match input
    case Upstream(reply) =>
      var sent := trace.(forwards := trace.forwards + [Forward(h.need, h.reading, reply)]);
      (match reply
       case Undecodable => Moved(sent, None)
       case Decided(accepted) => Moved(sent, Some(h.(forwarded := true, pc := Recording(accepted))))
       case NoReply => Moved(sent, Catch(cfg, h.(forwarded := true), Ordinary)))
    case _ => Ignored
  }

  function Sense(cfg: Config, db: Db, trace: Trace, h: Handler, input: Input): (sensed: Sensed)
    ensures sensed.Moved? ==> Stays(sensed.next, h)
  {
    match h.pc
    case Estimating => SenseEstimate(cfg, trace, h, input)
    case Delegating => SenseDelegation(cfg, trace, h, input)
    case Planning => SensePlan(cfg, db, trace, h, input)
    case Listing(plan) => SenseListing(cfg, db, trace, h, plan, input)
    case Choosing(plan, rest, rejected) => SenseChoice(cfg, trace, h, plan, rest, rejected)
    case Attempting(_, _, amount, _, _) => SenseAttempt(cfg, trace, h, amount)
    case Rereading(plan, rest, rejected) => SenseReread(cfg, db, trace, h, plan, rest, rejected, input)
    case Exhausted => SenseExhausted(cfg, db, trace, h, input)
    case Ready(plan, p, amount, day, rest) => SenseReady(trace, h, plan, p, amount, day, rest, input)
    case Calling(plan, p, rest) => SenseAnswer(trace, h, plan, p, rest, input)
    case Confirming => SenseArrival(cfg, trace, h, input)
    case Rechecking(paid) => SenseRecheck(cfg, trace, h, paid, input)
    case Readying => SenseLifetime(cfg, trace, h, input)
    case Forwarding => SenseForward(cfg, trace, h, input)
    case _ => Ignored
  }

  /** A reading, a provider's answer or an upstream reply; no database write. */
  function SenseStep(cfg: Config, s: State, id: nat, h: Handler, input: Input): State {
    match Sense(cfg, s.db, TraceOf(s, h.tx), h, input)
    case Ignored => s
    case Moved(trace, next) => Place(WithTrace(s, h.tx, trace), id, next)
  }

  /** Inside the critical section of prepare, which a handler enters when it plans or delegates. */
  predicate InPrepare(pc: Pc) {
    || pc.Opening? || pc.Listing? || pc.RefusingOrder? || pc.Choosing? || pc.Attempting? || pc.Rereading?
    || pc.Ready? || pc.Calling? || pc.Refusing? || pc.Accepting? || pc.Doubting? || pc.Exhausted?
    || pc.Consuming? || pc.Confirming? || pc.Fulfilling? || pc.TimingOut? || pc.Rechecking?
  }

  /** The mutex of prepare: whoever is about to enter waits until nobody is inside. */
  predicate Waits(s: State, id: nat) {
    && id in s.handlers && (s.handlers[id].pc.Planning? || s.handlers[id].pc.Delegating?)
    && exists j :: j in s.handlers && InPrepare(s.handlers[j].pc)
  }

  ghost function HandlerStep(cfg: Config, s: State, id: nat, input: Input, fault: Fault): State {
    if id !in s.handlers then s
    else
      var h := s.handlers[id];
      match Intent(cfg, h, input)
      case Some(w) => WriteStep(cfg, s, id, h, w, input, fault)
      case None => SenseStep(cfg, s, id, h, input)
  }

  // ---- arrival, workers, administrators, restarts -------------------------------------

  predicate Usable(db: Db, a: Address, now: int) {
    a in db.bindings && db.bindings[a].enabled && (db.bindings[a].expiresAt.Some? ==>
      db.bindings[a].expiresAt.value > now)
  }

  predicate Sponsorable(cfg: Config, t: TxId) {
    || (t.contract.TriggerSmartContract? && (cfg.sponsorEnergy || cfg.sponsorBandwidth))
    || (t.contract.TransferContract? && cfg.sponsorBandwidth)
  }

  /** handle in sponsor mode, up to and including the insertion of the request row. */
  function ArriveStep(cfg: Config, s: State, id: nat, t: TxId, wellFormed: bool, permitted: bool, now: int,
      fault: Fault): State {
    var allowed := permitted && !t.contract.OtherContract?;
    if !s.up || id in s.handlers || !wellFormed || (!allowed && !cfg.forwardUnsupported) then s
    else if cfg.boundAddress && !Usable(s.db, t.owner, now) then s
    else if Guarded(cfg, t) && (!allowed || !cfg.sponsorEnergy) then s
    else if !allowed || !Sponsorable(cfg, t) then s.(relayed := s.relayed + [t])
    else if t in s.db.requests || fault.NotApplied? then s
    else
      var begun := s.(db := G.BeginRequest(s.db, t));
      if fault.Acked? then Place(begun, id, Some(NewHandler(t))) else begun
  }

  /** The recovery query. */
  predicate Stale(r: Request) {
    || r.state.Received? || r.state.QuotaReserved? || r.state.ResourceEstimated? || r.state.ResourceReady?
    || (r.state.Failed? && r.quotaReserved)
  }

  /** A handler other than a late one is still at work on t. */
  predicate Owned(s: State, t: TxId) {
    exists i :: i in s.handlers && s.handlers[i].tx == t && !s.handlers[i].late
  }

  /** An error ends the worker's iteration and with it the two lists it works through. */
  function WorkerDone(s: State, fault: Fault): State {
    if fault.Acked? then s else s.(stale := {}, awaiting := {})
  }

  function Raise(peak: map<Address, nat>, a: Address, max: Option<nat>, afresh: bool): map<Address, nat> {
    var limit := if max.Some? then max.value else 0;
    peak[a := if !afresh && a in peak && peak[a] > limit then peak[a] else limit]
  }

  /** The addresses at which a handler still preparing loses its claim. */
  function Losses(s: State, after: Db): set<Address> {
    set i | i in s.handlers && Preparing(s.handlers[i]) && Holds(s.db, s.handlers[i].tx)
      && !Holds(after, s.handlers[i].tx) :: s.handlers[i].tx.owner
  }

  /** The confirmation worker drops the claims of finished requests. */
  function SweepStep(s: State): State {
    if s.up then
      var after := G.ReleaseTerminalAddressClaims(s.db);
      s.(db := after, stripped := s.stripped + Losses(s, after))
    else s
  }

  /** listStaleRequests; an idle request is taken to have no handler left. */
  function ListStaleStep(s: State, found: set<TxId>): State {
    if s.up && (forall t :: t in found ==> t in s.db.requests && Stale(s.db.requests[t]) && !Owned(s, t))
    then s.(stale := found) else s
  }

  ghost function RecoverStep(cfg: Config, s: State, t: TxId, accepted: bool, fault: Fault): State {
    if !s.up || t !in s.stale then s
    else WorkerDone(Commit(cfg, s.(stale := s.stale - {t}), t, RecordOutcome(accepted), fault), fault)
  }

  function ListAwaitingStep(s: State, found: set<TxId>): State {
    if s.up && (forall t :: t in found ==> t in s.db.requests && s.db.requests[t].state.UpstreamAccepted?)
    then s.(awaiting := found) else s
  }

  /** Finality or expiry; after is what the write makes of the tables. */
  function ConcludeStep(s: State, t: TxId, after: Db, fault: Fault): State {
    if !s.up || t !in s.awaiting then s
    else
      var left := s.(awaiting := s.awaiting - {t});
      WorkerDone(if fault.NotApplied? then left else left.(db := after), fault)
  }

  function PutBindingStep(s: State, a: Address, max: Option<Option<nat>>, expiresAt: Option<Option<int>>,
      enabled: Option<bool>): State {
    var db := G.UpsertBinding(s.db, a, max, expiresAt, enabled);
    s.(db := db, peak := Raise(s.peak, a, db.bindings[a].max, false))
  }

  function ResetBindingStep(cfg: Config, s: State, a: Address, max: Option<Option<nat>>): State {
    var r := G.ResetBindingUsage(s.db, a, max, cfg.provider);
    if !r.1 then s
    else s.(db := r.0, peak := Raise(s.peak, a, r.0.bindings[a].max, true),
            writtenOff := s.writtenOff[a := WrittenOff(s, a) + s.db.bindings[a].used])
  }

  function WrittenOff(s: State, a: Address): nat {
    if a in s.writtenOff then s.writtenOff[a] else 0
  }

  function PutProviderStep(s: State, p: ProviderId, row: Provider): State {
    s.(db := s.db.(providers := s.db.providers[p := row]))
  }

  /** A lease of t opens or closes; provider-sourced energy makes no leases. */
  function MoveLeaseStep(cfg: Config, s: State, t: TxId, leased: bool): State {
    if cfg.provider then s
    else s.(db := s.db.(openLeases := if leased then s.db.openLeases + {t} else s.db.openLeases - {t}))
  }

  function CrashStep(s: State): State {
    s.(up := false, handlers := map[], stale := {}, awaiting := {})
  }

  /** The process starts only once interrupted orders are recovered. */
  function StartStep(s: State, fault: Fault): State {
    if s.up || fault.NotApplied? then s
    else s.(db := P.RecoverInterruptedOrders(s.db), up := fault.Acked?)
  }

  ghost function Next(cfg: Config, s: State, e: Event): State {
    match e
    case Arrive(id, t, wellFormed, permitted, now, fault) => ArriveStep(cfg, s, id, t, wellFormed, permitted, now,
      fault)
    case Step(id, input, fault) => if s.up && !Waits(s, id) then HandlerStep(cfg, s, id, input, fault) else s
    case SweepClaims => SweepStep(s)
    case ListStale(found) => ListStaleStep(s, found)
    case Recover(t, accepted, fault) => RecoverStep(cfg, s, t, accepted, fault)
    case ListAwaiting(found) => ListAwaitingStep(s, found)
    case Finalize(t, success, fault) => ConcludeStep(s, t, G.MarkFinalized(s.db, t, success), fault)
    case Expire(t, fault) => ConcludeStep(s, t, G.ExpireRequest(s.db, t), fault)
    case PutBinding(a, max, expiresAt, enabled) => PutBindingStep(s, a, max, expiresAt, enabled)
    case ResetBinding(a, max) => ResetBindingStep(cfg, s, a, max)
    case PutProvider(p, row) => PutProviderStep(s, p, row)
    case MoveLease(t, leased) => MoveLeaseStep(cfg, s, t, leased)
    case Crash => CrashStep(s)
    case Start(fault) => StartStep(s, fault)
  }

  ghost function Run(cfg: Config, events: seq<Event>): State {
    if events == [] then Init() else Next(cfg, Run(cfg, events[..|events| - 1]), events[|events| - 1])
  }

  /** The states all runs lead to. */
  ghost predicate Reachable(cfg: Config, s: State) {
    exists events :: s == Run(cfg, events)
  }
}
