/**
 * What a handler's place says about what it was told, what it has bought and how far its request has got, and
 * what a transaction's rows say about its history. The safety invariants hold whichever way an answer is
 * recorded; these say that it is recorded as it was given.
 */
module Conduct {
  import opened Options
  import opened Schema
  import opened EnergyPackages
  import opened Gateway
  import opened TxInvariant
  import opened WriteLemmas
  import opened HandlerLemmas
  import opened StepLemmas
  import opened Prepare
  import P = ProviderRepository
  import ResourceMath

  predicate PaidMode(cfg: Config) {
    cfg.provider && Validated(cfg)
  }

  // ---- the rows of a transaction --------------------------------------------------------------------

  ghost predicate LastSaidYes(calls: seq<Call>, p: ProviderId) {
    calls != [] && calls[|calls| - 1].answer.SaidYes? && calls[|calls| - 1].provider == p
  }

  /** While the last call was the last, a reading reached the requirement. */
  ghost predicate Arrived(trace: Trace) {
    exists k :: 0 <= k < |trace.arrivals| && trace.arrivals[k].made == |trace.calls|
      && trace.arrivals[k].required.Some? && trace.arrivals[k].reading >= trace.arrivals[k].required.value
  }

  /** An order is accepted only by its provider, and fulfilled only by an arrival. */
  ghost predicate Deserved(cfg: Config, v: View) {
    v.order.Some? && (v.order.value.state.Accepted? || v.order.value.state.Fulfilled?) ==>
      && v.order.value.provider.Some? && LastSaidYes(v.trace.calls, v.order.value.provider.value)
      && (v.order.value.state.Fulfilled? && !cfg.ownerEnergyBurn ==> Arrived(v.trace))
  }

  predicate Concluded(state: RequestState) {
    state.UpstreamAccepted? || state.SolidifiedSuccess? || state.SolidifiedFailed? || state.Expired?
  }

  /** A request reads as accepted, or as what follows acceptance, only after an acceptance was recorded. */
  ghost predicate Counted(v: View) {
    && v.trace.accepted <= v.trace.outcomes
    && (v.request.Some? && Concluded(v.request.value.state) ==> v.trace.accepted > 0)
    && (v.request.Some? && v.request.value.state.UpstreamRejected? ==> v.trace.accepted < v.trace.outcomes)
  }

  /** The states of a request that has not been answered for. */
  predicate Working(state: RequestState) {
    state.Received? || state.QuotaReserved? || state.ResourceEstimated? || state.ResourceReady?
  }

  ghost predicate Unanswered(request: Option<Request>) {
    request.Some? && Working(request.value.state) && request.value.response.None?
  }

  /** A paid transaction without an outcome is left where recovery looks, and nothing is cached for it. */
  ghost predicate Awaited(cfg: Config, hit: bool, v: View) {
    PaidMode(cfg) && !hit && MayBeCharged(v.trace.calls) && v.trace.outcomes == 0 ==> Unanswered(v.request)
  }

  ghost predicate Accounts(cfg: Config, hit: bool, v: View) {
    Deserved(cfg, v) && Counted(v) && Awaited(cfg, hit, v)
  }

  // ---- the place of a handler ---------------------------------------------------------------------------

  /** What is about to be recorded is what upstream decided. */
  ghost predicate ReplyKnown(forwards: seq<Forward>, h: Handler) {
    h.pc.Recording? ==> forwards != [] && forwards[|forwards| - 1].reply == Decided(h.pc.accepted)
  }

  /** Waiting for a delivery, or recording how it went. */
  predicate Expecting(pc: Pc) {
    pc == Consuming(true) || pc.Confirming? || pc.Fulfilling? || pc.TimingOut?
  }

  ghost predicate LastCalled(calls: seq<Call>, p: ProviderId) {
    calls != [] && calls[|calls| - 1].provider == p
  }

  /** What is about to be recorded of a call is what the provider answered. */
  ghost predicate AnswerKnown(cfg: Config, v: View, h: Handler) {
    && (Charging(h.pc) ==> LastCalled(v.trace.calls, h.pc.provider))
    && (h.pc.Accepting? ==> LastSaidYes(v.trace.calls, h.pc.provider))
    && (Expecting(h.pc) ==> v.order.Some? && v.order.value.state.Accepted?)
    && (h.pc.Fulfilling? && !cfg.ownerEnergyBurn ==> Arrived(v.trace))
  }

  /** The catch block after its first two writes. */
  predicate CatchPc(pc: Pc) {
    pc.CatchConsuming? || pc.CatchReleasing? || pc.CatchDropping? || pc.CatchReadying? || pc.CatchFailing?
  }

  /** Places at which a handler has its claim, if nothing went wrong. */
  predicate Claimed(pc: Pc) {
    !CatchPc(pc) && !pc.Claiming? && !pc.Discarding? && !pc.CachingReject?
  }

  /** The local flags of sponsorAndForward. */
  predicate FlagsFit(cfg: Config, h: Handler) {
    && (Claimed(h.pc) ==> h.claimed)
    && (h.pc.CachingReject? ==> !h.claimed)
    && (!CatchPc(h.pc) && !h.charged ==> !h.retain)
    && (PaidMode(cfg) && Claimed(h.pc) && !h.pc.Reserving? && !h.pc.DroppingClaim? && !h.charged ==>
          h.quota || h.pc.Recording?)
    && (h.pc.CatchConsuming? ==> h.retain && h.quota)
    && (h.pc.CatchReleasing? ==> h.quota && !h.retain)
    && (h.pc.CatchDropping? ==> h.claimed && !h.retain)
    && (h.pc.CatchReadying? ==> h.retain)
    && (h.pc.CatchFailing? ==> !h.retain && !h.claimed)
  }

  /** Only what cannot have been charged is given back or marked as failed. */
  ghost predicate FailureFits(cfg: Config, calls: seq<Call>, h: Handler) {
    PaidMode(cfg) && (h.pc.CatchReleasing? || h.pc.CatchDropping? || h.pc.CatchFailing?) ==> !MayBeCharged(calls)
  }

  function Required(cfg: Config, t: TxId, estimate: nat): Option<nat> {
    if cfg.sponsorEnergy && t.contract.TriggerSmartContract?
    then Some(ResourceMath.ApplySafetyBasisPoints(estimate, cfg.safetyBps)) else None
  }

  predicate PastEstimate(pc: Pc) {
    !CatchPc(pc) && !pc.Claiming? && !pc.Discarding? && !pc.Reserving? && !pc.DroppingClaim? && !pc.CachingReject?
      && !pc.Estimating?
  }

  /** Places with a plan: an order being placed. */
  predicate Planned(pc: Pc) {
    pc.Opening? || pc.Listing? || pc.Choosing? || pc.Attempting? || pc.Rereading? || pc.Ready? || pc.Calling?
      || pc.Refusing?
  }

  /** The requirement is the safe one for the estimate, and an order is for the estimate and a real shortfall. */
  predicate NeedFits(cfg: Config, h: Handler) {
    && (PastEstimate(h.pc) ==> h.need == Required(cfg, h.tx, h.estimate))
    && (Planned(h.pc) ==>
          && h.pc.plan.requested == h.estimate
          && (!cfg.ownerEnergyBurn ==>
                && h.need.Some? && h.pc.plan.shortfall.Some?
                && 0 < h.pc.plan.shortfall.value <= h.need.value))
  }

  predicate StateFits(cfg: Config, state: RequestState, h: Handler) {
    if h.pc.Claiming? || h.pc.Discarding? || h.pc.Reserving? || h.pc.DroppingClaim? || h.pc.CachingReject?
    then state.Received?
    else if h.pc.Estimating? || h.pc.SavingEstimate? then
      if cfg.boundAddress then state.QuotaReserved? else state.Received?
    else if h.pc.Planning? || h.pc.Delegating? || InPrepare(h.pc) || h.pc.Readying? then state.ResourceEstimated?
    else if h.pc.Forwarding? || h.pc.Recording? then
      Working(state) && (state.ResourceReady? || h.charged || cfg.forwardInsufficient)
    else Working(state)
  }

  /** How far the request has got; the last writes of a failure find it in any state. */
  ghost predicate ProgressFits(cfg: Config, hit: bool, request: Option<Request>, h: Handler) {
    !hit && !h.pc.CatchDropping? && !h.pc.CatchFailing? ==>
      request.Some? && request.value.response.None? && StateFits(cfg, request.value.state, h)
  }

  ghost predicate Conducts(cfg: Config, hit: bool, v: View, h: Handler) {
    && ReplyKnown(v.trace.forwards, h) && AnswerKnown(cfg, v, h) && FlagsFit(cfg, h)
    && FailureFits(cfg, v.trace.calls, h) && NeedFits(cfg, h) && ProgressFits(cfg, hit, v.request, h)
  }

  ghost predicate ConductsOn(cfg: Config, hit: bool, v: View, next: Option<Handler>) {
    next.Some? ==> Conducts(cfg, hit, v, next.value)
  }

  // ---- writes and the rows ------------------------------------------------------------------------------------

  /** What the issuer of a write has to know for the write to be true. */
  ghost predicate Honest(cfg: Config, v: View, w: Write) {
    match w
    case FinishAttempt(p, outcome) =>
      outcome.Unknown? || outcome.Rejected? || (outcome.Accepted? && LastSaidYes(v.trace.calls, p))
    case FinishConfirmation(result) =>
      result.Unknown? || (result.Fulfilled? && (cfg.ownerEnergyBurn || Arrived(v.trace)))
    case SetState(state) => Working(state)
    case Complete(state) => (state.Failed? || state.Rejected?) && (PaidMode(cfg) ==> !MayBeCharged(v.trace.calls))
    case DiscardRow => !MayBeCharged(v.trace.calls)
    case _ => true
  }

  lemma RequestWriteAccounts(cfg: Config, hit: bool, v: View, v': View, w: Write)
    requires Accounts(cfg, hit, v) && Honest(cfg, v, w) && RequestWrite(w) && RequestMove(cfg, v, v', w)
    ensures Accounts(cfg, hit, v')
  {
    hide MayBeCharged, PaidMode;
    assert v'.trace.calls == v.trace.calls && v'.trace.arrivals == v.trace.arrivals;
    assert Arrived(v.trace) ==> Arrived(v'.trace);
  }

  lemma OrderWriteAccounts(cfg: Config, hit: bool, t: TxId, v: View, v': View, w: Write)
    requires Accounts(cfg, hit, v) && Honest(cfg, v, w) && !RequestWrite(w) && Moves(cfg, t, v, v', w)
    ensures Accounts(cfg, hit, v')
  {
    hide MayBeCharged, PaidMode, Arrived;
    assert v'.trace == v.trace && v'.request == v.request;
  }

  lemma WriteAccounts(cfg: Config, hit: bool, t: TxId, v: View, v': View, w: Write)
    requires Accounts(cfg, hit, v) && Honest(cfg, v, w) && Moves(cfg, t, v, v', w)
    ensures Accounts(cfg, hit, v')
  {
    hide Accounts, Honest, RequestMove;
    if RequestWrite(w) {
      RequestWriteAccounts(cfg, hit, v, v', w);
    } else {
      OrderWriteAccounts(cfg, hit, t, v, v', w);
    }
  }

  // ---- the catch block -----------------------------------------------------------------------------------------

  /** What the catch block may count on when the failure is an ordinary one. */
  ghost predicate MayFail(cfg: Config, hit: bool, v: View, h: Handler) {
    && !CatchPc(h.pc) && !h.charged && !h.forwarded && FlagsFit(cfg, h)
    && (PaidMode(cfg) ==> !MayBeCharged(v.trace.calls)) && (!hit && h.quota ==> Unanswered(v.request))
  }

  lemma UnclaimConducts(cfg: Config, hit: bool, v: View, h: Handler)
    requires !h.retain && (PaidMode(cfg) ==> !MayBeCharged(v.trace.calls))
    ensures ConductsOn(cfg, hit, v, CatchUnclaim(h))
  {
    hide MayBeCharged, PaidMode;
  }

  lemma CaughtOrdinary(cfg: Config, hit: bool, v: View, h: Handler)
    requires MayFail(cfg, hit, v, h)
    ensures ConductsOn(cfg, hit, v, Catch(cfg, h, Ordinary))
  {
    hide CatchUnclaim, MayBeCharged, PaidMode, Unanswered;
    UnclaimConducts(cfg, hit, v, h);
    if h.quota {
      ReleasingConducts(cfg, hit, v, h);
    }
  }

  lemma ReleasingConducts(cfg: Config, hit: bool, v: View, h: Handler)
    requires h.quota && !h.retain && (!hit ==> Unanswered(v.request))
    requires PaidMode(cfg) ==> !MayBeCharged(v.trace.calls)
    ensures Conducts(cfg, hit, v, h.(pc := CatchReleasing))
  {
    hide MayBeCharged, PaidMode;
  }

  /** Insufficient resources are an ordinary failure too, or let the transaction pass unprepared. */
  lemma CaughtInsufficient(cfg: Config, hit: bool, v: View, h: Handler)
    requires MayFail(cfg, hit, v, h) && (!hit ==> Unanswered(v.request))
    requires Claimed(h.pc) && !h.retain && h.need == Required(cfg, h.tx, h.estimate)
    ensures ConductsOn(cfg, hit, v, Catch(cfg, h, Insufficient))
  {
    hide CatchUnclaim, MayBeCharged, PaidMode, Unanswered, Required;
    UnclaimConducts(cfg, hit, v, h);
    if cfg.forwardInsufficient && !Guarded(cfg, h.tx) {
      FallbackConducts(cfg, hit, v, h);
    } else if h.quota {
      ReleasingConducts(cfg, hit, v, h);
    }
  }

  lemma FallbackConducts(cfg: Config, hit: bool, v: View, h: Handler)
    requires MayFail(cfg, hit, v, h) && (!hit ==> Unanswered(v.request)) && cfg.forwardInsufficient
    requires Claimed(h.pc) && !h.retain && h.need == Required(cfg, h.tx, h.estimate)
    ensures Conducts(cfg, hit, v, h.(pc := Forwarding))
  {
    hide MayBeCharged, Required;
  }

  /** A failure after a possible charge keeps the claim and ends with the request ready for recovery. */
  lemma CaughtPaid(cfg: Config, hit: bool, v: View, h: Handler)
    requires !CatchPc(h.pc) && !h.charged && !h.forwarded && !h.retain && (PaidMode(cfg) ==> h.quota)
    requires !hit ==> Unanswered(v.request)
    ensures ConductsOn(cfg, hit, v, Catch(cfg, h, Paid))
  {
    hide CatchUnclaim, MayBeCharged, PaidMode;
    if h.quota {
    } else {
      UnclaimConducts(cfg, hit, v, h);
    }
  }

  lemma RestConducts(cfg: Config, hit: bool, v: View, h: Handler)
    requires h.retain && !h.quota && !h.charged && !h.forwarded && (!hit ==> Unanswered(v.request))
    ensures ConductsOn(cfg, hit, v, CatchRest(cfg, h, Paid))
    ensures CatchRest(cfg, h, Paid) == Some(h.(pc := CatchReadying))
  {
    hide MayBeCharged, PaidMode;
  }

  lemma ConcludeConducts(cfg: Config, hit: bool, v: View, h: Handler)
    requires !h.retain && !h.claimed && (PaidMode(cfg) ==> !MayBeCharged(v.trace.calls))
    ensures ConductsOn(cfg, hit, v, CatchConclude(h))
  {
    hide MayBeCharged, PaidMode;
  }

  // ---- a handler's writes -----------------------------------------------------------------------------------------

  /** The phases in which nothing has been charged. */
  predicate Unspent(h: Handler) {
    PhaseOf(h).Fresh? || PhaseOf(h).Unordered? || PhaseOf(h).Buying? || PhaseOf(h).Clear?
  }

  lemma UnspentMayFail(cfg: Config, hit: bool, v: View, h: Handler)
    requires HandlerOk(cfg, v, h) && Basics(v) && Conducts(cfg, hit, v, h) && Unspent(h) && !h.charged
    ensures MayFail(cfg, hit, v, h) && !h.retain
  {
    hide MayBeCharged, PaidMode, NeedFits;
    UnspentPlaces(h);
    StateIsWorking(cfg, hit, v.request, h);
  }

  lemma UnspentPlaces(h: Handler)
    requires Unspent(h)
    ensures !CatchPc(h.pc) && !h.pc.Recording?
  {
  }

  lemma StateIsWorking(cfg: Config, hit: bool, request: Option<Request>, h: Handler)
    requires ProgressFits(cfg, hit, request, h)
    ensures !hit && !h.pc.CatchDropping? && !h.pc.CatchFailing? ==> Unanswered(request)
  {
  }

  /** A failure is as possible after a write as before it, if the request has not been answered for. */
  lemma StillMayFail(cfg: Config, hit: bool, v: View, v': View, h: Handler)
    requires MayFail(cfg, hit, v, h) && v'.trace.calls == v.trace.calls
    requires !hit && h.quota ==> Unanswered(v'.request)
    ensures MayFail(cfg, hit, v', h)
  {
    hide MayBeCharged, PaidMode;
  }

  /** Both ways a failed write is seen, where the failure is an ordinary one. */
  lemma FailsConduct(cfg: Config, hit: bool, v: View, v': View, h: Handler)
    requires MayFail(cfg, hit, v, h) && v'.trace.calls == v.trace.calls && Fail(cfg, h) == Catch(cfg, h, Ordinary)
    requires !hit && h.quota ==> Unanswered(v'.request)
    ensures ConductsOn(cfg, hit, v', Fail(cfg, h)) && ConductsOn(cfg, hit, v, Fail(cfg, h))
  {
    hide Fail, Catch, MayFail, ConductsOn;
    StillMayFail(cfg, hit, v, v', h);
    CaughtOrdinary(cfg, hit, v, h);
    CaughtOrdinary(cfg, hit, v', h);
  }

  /** What is left to show of a write: how its issuer goes on. */
  ghost predicate GoesOnWell(cfg: Config, hit: bool, v: View, v': View, h: Handler, reply: Reply, input: Input) {
    && (!reply.Thrown? ==> ConductsOn(cfg, hit, v', Resume(cfg, h, reply, input)))
    && (!h.pc.Discarding? ==> ConductsOn(cfg, hit, v', Fail(cfg, h)))
    && ConductsOn(cfg, hit, v, Fail(cfg, h))
  }

  lemma EarlyResumes(cfg: Config, h: Handler, reply: Reply, input: Input)
    ensures var next := Resume(cfg, h, reply, input);
      && (h.pc.Claiming? && reply.No? ==> next == Some(h.(pc := Discarding)))
      && (h.pc.Claiming? && !reply.No? ==>
            next == Some(h.(claimed := true, pc := if cfg.boundAddress then Reserving else Estimating)))
      && (h.pc.Reserving? && reply.Yes? ==> next == Some(h.(quota := true, pc := Estimating)))
      && (h.pc.Reserving? && !reply.Yes? ==> next == Some(h.(pc := DroppingClaim)))
      && (h.pc.DroppingClaim? ==> next == Some(h.(claimed := false, pc := CachingReject)))
      && (h.pc.Discarding? || h.pc.CachingReject? ==> next == None)
      && (h.pc.SavingEstimate? ==>
            next == Some(h.(pc := if cfg.provider && h.need.Some? then Planning else Delegating)))
      && (h.pc.Readying? ==> next == Some(h.(pc := Forwarding)))
  {
    hide Catch, CatchRest, CatchUnclaim, CatchConclude, Opened, Started, AfterPrepare;
  }

  lemma ClaimingConduct(cfg: Config, hit: bool, v: View, v': View, h: Handler, w: Write, reply: Reply, input: Input)
    requires Conducts(cfg, hit, v, h) && MayFail(cfg, hit, v, h) && !h.charged && RequestMove(cfg, v, v', w)
    requires h.pc.Claiming? && Intent(cfg, h, input) == Some(w) && HandlerOk(cfg, v, h)
    ensures GoesOnWell(cfg, hit, v, v', h, reply, input)
  {
    hide Resume, Fail, Catch, FlagsFit, MayBeCharged, PhaseOk, Conducts;
    FailIsCaught(cfg, h);
    FailsConduct(cfg, hit, v, v', h);
    EarlyResumes(cfg, h, reply, input);
    ClaimedConducts(cfg, hit, v, h);
  }

  lemma ClaimedConducts(cfg: Config, hit: bool, v: View, h: Handler)
    requires Conducts(cfg, hit, v, h) && h.pc.Claiming? && !h.claimed && !h.retain
    ensures Conducts(cfg, hit, v, h.(pc := Discarding))
    ensures cfg.boundAddress ==> Conducts(cfg, hit, v, h.(claimed := true, pc := Reserving))
    ensures !cfg.boundAddress ==> Conducts(cfg, hit, v, h.(claimed := true, pc := Estimating))
  {
    hide PaidMode, MayBeCharged, Required;
    PaidIsBound(cfg);
  }

  lemma PaidIsBound(cfg: Config)
    ensures PaidMode(cfg) ==> cfg.boundAddress && !cfg.forwardInsufficient && !cfg.ownerEnergyBurn && cfg.sponsorEnergy
  {
  }

  lemma ReservingConduct(cfg: Config, hit: bool, v: View, v': View, h: Handler, w: Write, reply: Reply, input: Input)
    requires Conducts(cfg, hit, v, h) && MayFail(cfg, hit, v, h) && !h.charged && RequestMove(cfg, v, v', w)
    requires h.pc.Reserving? && Intent(cfg, h, input) == Some(w) && Tells(v, v', w, reply)
    requires HandlerOk(cfg, v, h)
    ensures GoesOnWell(cfg, hit, v, v', h, reply, input)
  {
    hide Resume, Fail, Catch, MayFail, MayBeCharged, PaidMode;
    FailIsCaught(cfg, h);
    FailsConduct(cfg, hit, v, v', h);
    EarlyResumes(cfg, h, reply, input);
  }

  lemma RefusedConduct(cfg: Config, hit: bool, v: View, v': View, h: Handler, w: Write, reply: Reply, input: Input)
    requires Conducts(cfg, hit, v, h) && MayFail(cfg, hit, v, h) && !h.charged && RequestMove(cfg, v, v', w)
    requires (h.pc.DroppingClaim? || h.pc.CachingReject? || h.pc.Discarding?) && Intent(cfg, h, input) == Some(w)
    requires HandlerOk(cfg, v, h)
    ensures GoesOnWell(cfg, hit, v, v', h, reply, input)
  {
    hide Resume, Fail, Catch, MayFail, MayBeCharged, PaidMode;
    FailIsCaught(cfg, h);
    assert !h.quota;
    FailsConduct(cfg, hit, v, v', h);
    EarlyResumes(cfg, h, reply, input);
  }

  lemma SavingConduct(cfg: Config, hit: bool, v: View, v': View, h: Handler, w: Write, reply: Reply, input: Input)
    requires Conducts(cfg, hit, v, h) && MayFail(cfg, hit, v, h) && !h.charged && RequestMove(cfg, v, v', w)
    requires h.pc.SavingEstimate? && Intent(cfg, h, input) == Some(w)
    ensures GoesOnWell(cfg, hit, v, v', h, reply, input)
  {
    hide Resume, Fail, Catch, MayFail, MayBeCharged, PaidMode, Required;
    FailIsCaught(cfg, h);
    FailsConduct(cfg, hit, v, v', h);
    EarlyResumes(cfg, h, reply, input);
  }

  lemma ReadyingConduct(cfg: Config, hit: bool, v: View, v': View, h: Handler, w: Write, reply: Reply, input: Input)
    requires Conducts(cfg, hit, v, h) && (!h.charged ==> MayFail(cfg, hit, v, h)) && RequestMove(cfg, v, v', w)
    requires h.pc.Readying? && Intent(cfg, h, input) == Some(w)
    ensures GoesOnWell(cfg, hit, v, v', h, reply, input)
  {
    hide Resume, Fail, Catch, MayFail, MayBeCharged, PaidMode, Required;
    PersistingFails(cfg, h);
    EarlyResumes(cfg, h, reply, input);
    if !h.charged {
      FailsConduct(cfg, hit, v, v', h);
    }
  }

  // ---- its order --------------------------------------------------------------------------------------------------

  /** A handler goes on with its order, with nothing to be told about the call it has not made. */
  lemma PlannedConduct(cfg: Config, hit: bool, v: View, h: Handler, pc: Pc)
    requires Conducts(cfg, hit, v, h) && InPrepare(h.pc) && !h.charged
    requires InPrepare(pc) && !Charging(pc) && !Expecting(pc)
    requires Planned(pc) ==> Planned(h.pc) && pc.plan == h.pc.plan
    ensures Conducts(cfg, hit, v, h.(pc := pc))
  {
    hide MayBeCharged, PaidMode, Required;
    InsideFlags(h.pc);
    InsideFlags(pc);
  }

  lemma InsideFlags(pc: Pc)
    requires InPrepare(pc)
    ensures Claimed(pc) && PastEstimate(pc) && !CatchPc(pc) && !pc.Recording? && !pc.Readying? && !pc.Forwarding?
    ensures !pc.Claiming? && !pc.Discarding? && !pc.Reserving? && !pc.DroppingClaim? && !pc.CachingReject?
      && !pc.Estimating? && !pc.SavingEstimate?
  {
  }

  /** Only the order and the budget row change under a handler's feet. */
  lemma OrderMovesConduct(cfg: Config, hit: bool, v: View, v': View, h: Handler)
    requires Conducts(cfg, hit, v, h) && v'.trace == v.trace && v'.request == v.request
    requires !Expecting(h.pc)
    ensures Conducts(cfg, hit, v', h)
  {
    hide MayBeCharged, PaidMode, Required, StateFits, Arrived;
  }

  lemma ShoppingConduct(cfg: Config, hit: bool, v: View, v': View, h: Handler, next: Option<Handler>, reply: Reply,
      input: Input)
    requires Conducts(cfg, hit, v, h) && MayFail(cfg, hit, v, h) && InPrepare(h.pc) && !h.charged
    requires v'.trace == v.trace && v'.request == v.request && !Expecting(h.pc)
    requires Fail(cfg, h) == Catch(cfg, h, Ordinary) && !h.pc.Discarding?
    requires !reply.Thrown? ==> Resume(cfg, h, reply, input) == next
    requires next == Catch(cfg, h, Ordinary) || (next.Some? && next.value == h.(pc := next.value.pc)
      && InPrepare(next.value.pc) && !Charging(next.value.pc) && !Expecting(next.value.pc)
      && (Planned(next.value.pc) ==> Planned(h.pc) && next.value.pc.plan == h.pc.plan))
    ensures GoesOnWell(cfg, hit, v, v', h, reply, input)
  {
    hide Resume, Fail, Catch, MayBeCharged, FlagsFit, Conducts, InPrepare, Expecting, Charging, Planned;
    if !hit && h.quota {
      StateIsWorkingAt(cfg, hit, v, h);
    }
    FailsConduct(cfg, hit, v, v', h);
    OrderMovesConduct(cfg, hit, v, v', h);
    if next != Catch(cfg, h, Ordinary) {
      PlannedConduct(cfg, hit, v', h, next.value.pc);
    }
  }

  lemma StateIsWorkingAt(cfg: Config, hit: bool, v: View, h: Handler)
    requires Conducts(cfg, hit, v, h) && !CatchPc(h.pc)
    ensures !hit ==> Unanswered(v.request)
  {
    hide MayBeCharged, PaidMode, Required;
    StateIsWorking(cfg, hit, v.request, h);
  }

  lemma OpeningConduct(cfg: Config, hit: bool, v: View, v': View, h: Handler, reply: Reply, input: Input)
    requires Conducts(cfg, hit, v, h) && MayFail(cfg, hit, v, h) && !h.charged && h.pc.Opening? && !reply.Found?
    requires v'.trace == v.trace && v'.request == v.request
    ensures GoesOnWell(cfg, hit, v, v', h, reply, input)
  {
    hide Fail, Catch, MayFail, Conducts, GoesOnWell;
    FailIsCaught(cfg, h);
    ShoppingConduct(cfg, hit, v, v', h, Some(h.(pc := Listing(h.pc.plan))), reply, input);
  }

  lemma AttemptingConduct(cfg: Config, hit: bool, v: View, v': View, h: Handler, reply: Reply, input: Input)
    requires Conducts(cfg, hit, v, h) && MayFail(cfg, hit, v, h) && !h.charged && h.pc.Attempting?
    requires v'.trace == v.trace && v'.request == v.request
    requires input.Budgeted? && h.pc.amount >= 0 && (reply.Yes? || reply.No?)
    ensures GoesOnWell(cfg, hit, v, v', h, reply, input)
  {
    hide Fail, Resume, Catch, MayFail, Conducts, GoesOnWell;
    FailIsCaught(cfg, h);
    AttemptLeads(cfg, h, reply, input);
    var next := Resume(cfg, h, reply, input);
    AttemptPlacesFit(h, next.value.pc, reply, input);
    ShoppingConduct(cfg, hit, v, v', h, next, reply, input);
  }

  lemma AttemptPlacesFit(h: Handler, pc: Pc, reply: Reply, input: Input)
    requires h.pc.Attempting? && input.Budgeted? && h.pc.amount >= 0
    requires pc == if reply.No? then Rereading(h.pc.plan, h.pc.rest, h.pc.rejected)
      else if input.decrypts then Ready(h.pc.plan, h.pc.provider, h.pc.amount, input.day, h.pc.rest)
      else Refusing(h.pc.plan, h.pc.provider, h.pc.rest, false)
    ensures InPrepare(pc) && !Charging(pc) && !Expecting(pc) && Planned(pc) && pc.plan == h.pc.plan
    ensures InPrepare(h.pc) && !Expecting(h.pc) && Planned(h.pc)
  {
  }

  lemma RefusingConduct(cfg: Config, hit: bool, v: View, v': View, h: Handler, reply: Reply, input: Input)
    requires Conducts(cfg, hit, v, h) && MayFail(cfg, hit, v, h) && !h.charged
    requires h.pc.Refusing? || h.pc.RefusingOrder?
    requires v'.trace == v.trace && v'.request == v.request
    ensures GoesOnWell(cfg, hit, v, v', h, reply, input)
  {
    hide Fail, Resume, Catch, MayFail, Conducts, GoesOnWell;
    FailIsCaught(cfg, h);
    if h.pc.Refusing? {
      RefusedLeads(cfg, h, reply, input);
      ShoppingConduct(cfg, hit, v, v', h, Resume(cfg, h, reply, input), reply, input);
    } else {
      RefusingOrderResumes(cfg, h, reply, input);
      ShoppingConduct(cfg, hit, v, v', h, Catch(cfg, h, Ordinary), reply, input);
    }
  }

  lemma RefusingOrderResumes(cfg: Config, h: Handler, reply: Reply, input: Input)
    requires h.pc.RefusingOrder?
    ensures Resume(cfg, h, reply, input) == Catch(cfg, h, Ordinary)
  {
    hide Catch;
  }

  // ---- past the call ------------------------------------------------------------------------------------------------

  lemma AnsweredResumes(cfg: Config, h: Handler, reply: Reply, input: Input)
    ensures h.pc.Accepting? ==> Resume(cfg, h, reply, input) == Some(h.(pc := Consuming(true)))
    ensures h.pc.Doubting? ==> Resume(cfg, h, reply, input) == Some(h.(pc := Consuming(false)))
  {
    hide Catch, AfterPrepare, Opened, Started;
  }

  lemma DeliveryResumes(cfg: Config, h: Handler, reply: Reply, input: Input)
    ensures h.pc.TimingOut? ==> Resume(cfg, h, reply, input) == Catch(cfg, h, Paid)
    ensures h.pc.Fulfilling? ==> Resume(cfg, h, reply, input) == Some(AfterPrepare(cfg, h, true))
  {
    hide Catch, AfterPrepare, Opened, Started;
  }

  lemma ConsumingResumes(cfg: Config, h: Handler, reply: Reply, input: Input)
    requires h.pc.Consuming?
    ensures Resume(cfg, h, reply, input) == if h.pc.ordered then Some(h.(pc := Confirming)) else Catch(cfg, h, Paid)
  {
    hide Catch, AfterPrepare, Opened, Started;
  }

  lemma AcceptingConduct(cfg: Config, hit: bool, v: View, v': View, h: Handler, reply: Reply, input: Input)
    requires Conducts(cfg, hit, v, h) && h.pc.Accepting? && v'.trace == v.trace && v'.request == v.request
    requires !reply.Thrown? ==> v'.order.Some? && v'.order.value.state.Accepted?
    ensures GoesOnWell(cfg, hit, v, v', h, reply, input)
  {
    hide Resume, Fail, MayBeCharged, PaidMode, Required;
    AnsweredResumes(cfg, h, reply, input);
    PersistingFails(cfg, h);
  }

  lemma DoubtingConduct(cfg: Config, hit: bool, v: View, v': View, h: Handler, reply: Reply, input: Input)
    requires Conducts(cfg, hit, v, h) && h.pc.Doubting? && v'.trace == v.trace && v'.request == v.request
    ensures GoesOnWell(cfg, hit, v, v', h, reply, input)
  {
    hide Resume, Fail, MayBeCharged, PaidMode, Required;
    AnsweredResumes(cfg, h, reply, input);
    PersistingFails(cfg, h);
  }

  /** What lets a paid failure through. */
  lemma MayFailPaid(cfg: Config, hit: bool, v: View, h: Handler)
    requires Conducts(cfg, hit, v, h) && InPrepare(h.pc) && !h.charged
    ensures !CatchPc(h.pc) && !h.retain && (PaidMode(cfg) ==> h.quota) && (!hit ==> Unanswered(v.request))
  {
    hide MayBeCharged, PaidMode, Required;
    InsideFlags(h.pc);
    StateIsWorkingAt(cfg, hit, v, h);
  }

  lemma SettledIsUnanswered(v: View, v': View, consume: bool)
    requires Settles(v, v', consume) && Unanswered(v.request)
    ensures Unanswered(v'.request)
  {
  }

  lemma ConsumingConduct(cfg: Config, hit: bool, v: View, v': View, h: Handler, reply: Reply, input: Input)
    requires Conducts(cfg, hit, v, h) && HandlerOk(cfg, v, h) && h.pc.Consuming? && RequestMove(cfg, v, v', ConsumeUnit)
    ensures GoesOnWell(cfg, hit, v, v', h, reply, input)
  {
    hide Resume, Fail, Catch, Conducts, HandlerOk, MayBeCharged, PaidMode;
    ConsumingResumes(cfg, h, reply, input);
    PersistingFails(cfg, h);
    NotChargedHere(cfg, v, h);
    MayFailPaid(cfg, hit, v, h);
    if !hit {
      SettledIsUnanswered(v, v', true);
    }
    CaughtPaid(cfg, hit, v, h);
    CaughtPaid(cfg, hit, v', h);
    if h.pc.ordered {
      assert h.pc == Consuming(true);
      ConfirmingConducts(cfg, hit, v, v', h);
    } else {
      assert h.pc == Consuming(false);
    }
  }

  lemma ConfirmingConducts(cfg: Config, hit: bool, v: View, v': View, h: Handler)
    requires Conducts(cfg, hit, v, h) && h.pc == Consuming(true) && RequestMove(cfg, v, v', ConsumeUnit)
    ensures Conducts(cfg, hit, v', h.(pc := Confirming))
  {
    hide MayBeCharged, PaidMode, Required;
  }

  lemma NotChargedHere(cfg: Config, v: View, h: Handler)
    requires HandlerOk(cfg, v, h)
    ensures InPrepare(h.pc) ==> !h.charged && !h.forwarded
  {
    hide PhaseOk;
  }

  lemma PreparedConducts(cfg: Config, hit: bool, v: View, h: Handler, paid: bool)
    requires Conducts(cfg, hit, v, h) && !h.charged
    requires (paid && h.pc.Fulfilling?) || h.pc == Rechecking(paid) || (!paid && (h.pc.Planning? || h.pc.Delegating?))
    ensures Conducts(cfg, hit, v, AfterPrepare(cfg, h, paid)) && Conducts(cfg, hit, v, Prepared(h, paid))
  {
    hide Conducts;
    RecheckingConducts(cfg, hit, v, h, paid);
    PassedConducts(cfg, hit, v, h, paid);
    if !cfg.ownerEnergyBurn && h.need.Some? {
    } else {
    }
  }

  lemma RecheckingConducts(cfg: Config, hit: bool, v: View, h: Handler, paid: bool)
    requires Conducts(cfg, hit, v, h) && !h.charged
    requires (paid && h.pc.Fulfilling?) || h.pc == Rechecking(paid) || (!paid && (h.pc.Planning? || h.pc.Delegating?))
    ensures Conducts(cfg, hit, v, h.(pc := Rechecking(paid)))
  {
    hide MayBeCharged, PaidMode, Required;
  }

  lemma PassedConducts(cfg: Config, hit: bool, v: View, h: Handler, paid: bool)
    requires Conducts(cfg, hit, v, h) && !h.charged
    requires (paid && h.pc.Fulfilling?) || h.pc == Rechecking(paid) || (!paid && (h.pc.Planning? || h.pc.Delegating?))
    ensures Conducts(cfg, hit, v, Prepared(h, paid))
  {
    hide MayBeCharged, PaidMode, Required;
  }

  lemma DeliveredConduct(cfg: Config, hit: bool, v: View, v': View, h: Handler, reply: Reply, input: Input)
    requires Conducts(cfg, hit, v, h) && HandlerOk(cfg, v, h) && (h.pc.Fulfilling? || h.pc.TimingOut?)
    requires v'.trace == v.trace && v'.request == v.request
    ensures GoesOnWell(cfg, hit, v, v', h, reply, input)
  {
    hide Resume, Fail, Catch, AfterPrepare, Conducts, HandlerOk, MayBeCharged, PaidMode;
    DeliveryResumes(cfg, h, reply, input);
    PersistingFails(cfg, h);
    NotChargedHere(cfg, v, h);
    if h.pc.Fulfilling? {
      PreparedConducts(cfg, hit, v, h, true);
      PreparedLeaves(cfg, h, true);
      PreparedMoves(cfg, hit, v, v', AfterPrepare(cfg, h, true));
    } else {
      MayFailPaid(cfg, hit, v, h);
      CaughtPaid(cfg, hit, v, h);
      CaughtPaid(cfg, hit, v', h);
    }
  }

  lemma PreparedMoves(cfg: Config, hit: bool, v: View, v': View, h: Handler)
    requires Conducts(cfg, hit, v, h) && v'.trace == v.trace && v'.request == v.request
    requires !Expecting(h.pc)
    ensures Conducts(cfg, hit, v', h)
  {
    hide Conducts;
    OrderMovesConduct(cfg, hit, v, v', h);
  }

  lemma RecordingConduct(cfg: Config, hit: bool, v: View, v': View, h: Handler, reply: Reply, input: Input)
    requires HandlerOk(cfg, v, h) && h.pc.Recording?
    ensures GoesOnWell(cfg, hit, v, v', h, reply, input)
  {
    hide Catch;
    UncertainlyStops(cfg, h);
  }

  lemma UncertainlyStops(cfg: Config, h: Handler)
    requires h.forwarded
    ensures Catch(cfg, h, Ordinary).None?
  {
  }

  lemma CatchResumes(cfg: Config, h: Handler, reply: Reply, input: Input)
    ensures h.pc.CatchConsuming? ==> Resume(cfg, h, reply, input) == CatchRest(cfg, h.(quota := false), Paid)
    ensures h.pc.CatchReleasing? ==> Resume(cfg, h, reply, input) == CatchUnclaim(h)
    ensures h.pc.CatchDropping? ==> Resume(cfg, h, reply, input) == CatchConclude(h.(claimed := false))
    ensures h.pc.CatchReadying? || h.pc.CatchFailing? ==> Resume(cfg, h, reply, input) == None
  {
    hide CatchRest, CatchUnclaim, CatchConclude;
  }

  lemma CatchConduct(cfg: Config, hit: bool, v: View, v': View, h: Handler, w: Write, reply: Reply, input: Input)
    requires Conducts(cfg, hit, v, h) && HandlerOk(cfg, v, h) && CatchPc(h.pc) && Intent(cfg, h, input) == Some(w)
    requires RequestMove(cfg, v, v', w)
    ensures GoesOnWell(cfg, hit, v, v', h, reply, input)
  {
    hide Resume, Fail, CatchRest, CatchUnclaim, CatchConclude, MayBeCharged, PaidMode;
    CatchResumes(cfg, h, reply, input);
    CatchingFails(cfg, h);
    if h.pc.CatchConsuming? {
      if !hit {
        SettledIsUnanswered(v, v', true);
      }
      RestConducts(cfg, hit, v, h.(quota := false));
      RestConducts(cfg, hit, v', h.(quota := false));
    } else if h.pc.CatchReleasing? {
      UnclaimConducts(cfg, hit, v, h);
      UnclaimConducts(cfg, hit, v', h);
    } else if h.pc.CatchDropping? {
      ConcludeConducts(cfg, hit, v, h.(claimed := false));
      ConcludeConducts(cfg, hit, v', h.(claimed := false));
    }
  }

  // ---- any write ----------------------------------------------------------------------------------------------------

  /** A handler only writes what it knows. */
  lemma IntentIsHonest(cfg: Config, hit: bool, v: View, h: Handler, input: Input)
    requires Conducts(cfg, hit, v, h) && HandlerOk(cfg, v, h) && Intent(cfg, h, input).Some?
    ensures Honest(cfg, v, Intent(cfg, h, input).value)
  {
    hide FlagsFit, NeedFits, ProgressFits, Arrived, LastSaidYes;
    if PhaseOf(h).Fresh? {
      assert !MayBeCharged(v.trace.calls);
    }
  }

  /** What the database says of the two outcome writes that a handler goes on from. */
  ghost predicate Records(v': View, w: Write, reply: Reply) {
    && (w.FinishAttempt? && !reply.Thrown? ==> v'.order.Some? && v'.order.value.state == w.outcome)
    && (w.StartAttempt? ==> reply.Yes? || reply.No?)
  }

  lemma WriteRecords(cfg: Config, db: Db, trace: Trace, t: TxId, w: Write)
    ensures Records(After(cfg, db, trace, t, w), w, Apply(cfg, db, t, w).1)
  {
    hide P.Affordable;
  }

  lemma OrderingConduct(cfg: Config, hit: bool, v: View, v': View, h: Handler, w: Write, reply: Reply, input: Input)
    requires Conducts(cfg, hit, v, h) && HandlerOk(cfg, v, h) && Basics(v) && Intent(cfg, h, input) == Some(w)
    requires !RequestWrite(w) && v'.trace == v.trace && v'.request == v.request && Records(v', w, reply)
    requires h.pc.Opening? ==> !reply.Found?
    ensures GoesOnWell(cfg, hit, v, v', h, reply, input)
  {
    hide Conducts, HandlerOk, Basics, MayFail, GoesOnWell;
    NotChargedHere(cfg, v, h);
    if h.pc.Opening? || h.pc.Attempting? || h.pc.Refusing? || h.pc.RefusingOrder? {
      UnspentMayFail(cfg, hit, v, h);
      if h.pc.Opening? {
        OpeningConduct(cfg, hit, v, v', h, reply, input);
      } else if h.pc.Attempting? {
        AttemptingConduct(cfg, hit, v, v', h, reply, input);
      } else {
        RefusingConduct(cfg, hit, v, v', h, reply, input);
      }
    } else if h.pc.Accepting? {
      AcceptingConduct(cfg, hit, v, v', h, reply, input);
    } else if h.pc.Doubting? {
      DoubtingConduct(cfg, hit, v, v', h, reply, input);
    } else {
      DeliveredConduct(cfg, hit, v, v', h, reply, input);
    }
  }

  lemma RequestingConduct(cfg: Config, hit: bool, v: View, v': View, h: Handler, w: Write, reply: Reply, input: Input)
    requires Conducts(cfg, hit, v, h) && HandlerOk(cfg, v, h) && Basics(v) && Intent(cfg, h, input) == Some(w)
    requires RequestWrite(w) && RequestMove(cfg, v, v', w) && Tells(v, v', w, reply)
    ensures GoesOnWell(cfg, hit, v, v', h, reply, input)
  {
    hide Conducts, HandlerOk, Basics, MayFail, GoesOnWell, RequestMove, Tells;
    if CatchPc(h.pc) {
      CatchConduct(cfg, hit, v, v', h, w, reply, input);
    } else if h.pc.Recording? {
      RecordingConduct(cfg, hit, v, v', h, reply, input);
    } else if h.pc.Consuming? {
      ConsumingConduct(cfg, hit, v, v', h, reply, input);
    } else if h.pc.Readying? {
      if !h.charged {
        UnspentMayFail(cfg, hit, v, h);
      }
      ReadyingConduct(cfg, hit, v, v', h, w, reply, input);
    } else {
      NotChargedEarly(cfg, v, h);
      UnspentMayFail(cfg, hit, v, h);
      if h.pc.Claiming? {
        ClaimingConduct(cfg, hit, v, v', h, w, reply, input);
      } else if h.pc.Reserving? {
        ReservingConduct(cfg, hit, v, v', h, w, reply, input);
      } else if h.pc.SavingEstimate? {
        SavingConduct(cfg, hit, v, v', h, w, reply, input);
      } else {
        RefusedConduct(cfg, hit, v, v', h, w, reply, input);
      }
    }
  }

  lemma NotChargedEarly(cfg: Config, v: View, h: Handler)
    requires HandlerOk(cfg, v, h)
    ensures !h.pc.Readying? && !h.pc.Forwarding? && !h.pc.Recording? ==> !h.charged
  {
    hide PhaseOk;
  }

  /** Whatever becomes of a handler's write, its rows and its next place tell the truth. */
  lemma WriteConducts(cfg: Config, hit: bool, db: Db, trace: Trace, h: Handler, w: Write, input: Input)
    requires var v := ViewOf(db, trace, h.tx);
      && TxOk(cfg, h.tx, v) && HandlerOk(cfg, v, h) && Conducts(cfg, hit, v, h) && Accounts(cfg, hit, v)
    requires Intent(cfg, h, input) == Some(w) && (Flagged(db, h.tx) ==> h.tx.owner in db.bindings)
    requires h.pc.Opening? ==> h.tx !in db.orders
    ensures var v, v', reply := ViewOf(db, trace, h.tx), After(cfg, db, trace, h.tx, w), Apply(cfg, db, h.tx, w).1;
      Accounts(cfg, hit, v') && GoesOnWell(cfg, hit, v, v', h, reply, input)
  {
    hide TxOk, HandlerOk, Conducts, Accounts, Intent, Apply, After, GoesOnWell, RequestMove, Basics, Honest, Tells,
      ViewOf;
    var v, v', reply := ViewOf(db, trace, h.tx), After(cfg, db, trace, h.tx, w), Apply(cfg, db, h.tx, w).1;
    BasicsOk(cfg, h.tx, v);
    WriteMoves(cfg, db, trace, h.tx, w);
    WriteTells(cfg, db, trace, h.tx, w);
    WriteRecords(cfg, db, trace, h.tx, w);
    IntentIsHonest(cfg, hit, v, h, input);
    WriteAccounts(cfg, hit, h.tx, v, v', w);
    if RequestWrite(w) {
      RequestingConduct(cfg, hit, v, v', h, w, reply, input);
    } else {
      OrderMovesOnly(cfg, h.tx, v, v', w);
      if h.pc.Opening? {
        OpeningFindsNone(cfg, db, h, input);
      }
      OrderingConduct(cfg, hit, v, v', h, w, reply, input);
    }
  }

  lemma OrderMovesOnly(cfg: Config, t: TxId, v: View, v': View, w: Write)
    requires !RequestWrite(w) && Moves(cfg, t, v, v', w)
    ensures v'.trace == v.trace && v'.request == v.request
  {
  }

  lemma OpeningFindsNone(cfg: Config, db: Db, h: Handler, input: Input)
    requires h.pc.Opening? && h.tx !in db.orders
    ensures Intent(cfg, h, input) == Some(Write.OpenOrder(h.pc.plan.requested))
    ensures !Apply(cfg, db, h.tx, Write.OpenOrder(h.pc.plan.requested)).1.Found?
  {
  }

  // ---- readings, answers and the broadcast -------------------------------------------------------------------

  /** A step without a write leaves the rows and the handler telling the truth. */
  ghost predicate SensesWell(cfg: Config, hit: bool, v: View, sensed: Sensed) {
    sensed.Moved? ==>
      var v' := v.(trace := sensed.trace);
      Accounts(cfg, hit, v') && ConductsOn(cfg, hit, v', sensed.next)
  }

  /** A step that records nothing. */
  lemma SilentWell(cfg: Config, hit: bool, v: View, next: Option<Handler>)
    requires Accounts(cfg, hit, v) && ConductsOn(cfg, hit, v, next)
    ensures SensesWell(cfg, hit, v, Moved(v.trace, next))
  {
    hide Accounts, Conducts;
    assert v.(trace := v.trace) == v;
  }

  lemma EstimateWell(cfg: Config, hit: bool, v: View, h: Handler, input: Input)
    requires Accounts(cfg, hit, v) && Conducts(cfg, hit, v, h) && MayFail(cfg, hit, v, h) && h.pc.Estimating?
    ensures SensesWell(cfg, hit, v, SenseEstimate(cfg, v.trace, h, input))
  {
    hide Accounts, Conducts, MayFail, Catch;
    match input
    case Estimated(energy) =>
      var next := h.(estimate := energy, need := Required(cfg, h.tx, energy), pc := SavingEstimate);
      SavingConducts(cfg, hit, v, h, energy);
      SilentWell(cfg, hit, v, Some(next));
    case Fails(_) =>
      CaughtOrdinary(cfg, hit, v, h);
      SilentWell(cfg, hit, v, Catch(cfg, h, Ordinary));
    case _ =>
  }

  lemma SavingConducts(cfg: Config, hit: bool, v: View, h: Handler, energy: nat)
    requires Conducts(cfg, hit, v, h) && h.pc.Estimating?
    ensures Conducts(cfg, hit, v, h.(estimate := energy, need := Required(cfg, h.tx, energy), pc := SavingEstimate))
  {
    hide MayBeCharged, PaidMode, Required;
  }

  lemma BeforePrepareFacts(cfg: Config, hit: bool, v: View, h: Handler)
    requires Conducts(cfg, hit, v, h) && (h.pc.Planning? || h.pc.Delegating?) && !h.charged
    ensures Claimed(h.pc) && !h.retain && h.need == Required(cfg, h.tx, h.estimate) && (!hit ==> Unanswered(v.request))
  {
    hide MayBeCharged, PaidMode, Required;
    StateIsWorkingAt(cfg, hit, v, h);
  }

  lemma FailedWell(cfg: Config, hit: bool, v: View, h: Handler, err: Error)
    requires Accounts(cfg, hit, v) && Conducts(cfg, hit, v, h) && MayFail(cfg, hit, v, h)
    requires err.Ordinary? || (err.Insufficient? && (h.pc.Planning? || h.pc.Delegating?) && !h.charged)
    ensures SensesWell(cfg, hit, v, Moved(v.trace, Catch(cfg, h, err)))
  {
    hide Accounts, Conducts, MayFail, Catch, Required;
    if err.Insufficient? {
      BeforePrepareFacts(cfg, hit, v, h);
      CaughtInsufficient(cfg, hit, v, h);
    } else {
      CaughtOrdinary(cfg, hit, v, h);
    }
    SilentWell(cfg, hit, v, Catch(cfg, h, err));
  }

  lemma UnpaidWell(cfg: Config, hit: bool, v: View, h: Handler)
    requires Accounts(cfg, hit, v) && Conducts(cfg, hit, v, h) && !h.charged && (h.pc.Planning? || h.pc.Delegating?)
    ensures SensesWell(cfg, hit, v, Moved(v.trace, Some(AfterPrepare(cfg, h, false))))
  {
    hide Accounts, Conducts, AfterPrepare;
    PreparedConducts(cfg, hit, v, h, false);
    SilentWell(cfg, hit, v, Some(AfterPrepare(cfg, h, false)));
  }

  lemma DelegationWell(cfg: Config, hit: bool, v: View, h: Handler, input: Input)
    requires Accounts(cfg, hit, v) && Conducts(cfg, hit, v, h) && MayFail(cfg, hit, v, h)
    requires h.pc.Delegating? && !h.charged
    ensures SensesWell(cfg, hit, v, SenseDelegation(cfg, v.trace, h, input))
  {
    hide Accounts, Conducts, MayFail, Catch, AfterPrepare, SensesWell;
    assert SensesWell(cfg, hit, v, Ignored) by { IgnoredWell(cfg, hit, v); }
    match input
    case NoInput => UnpaidWell(cfg, hit, v, h);
    case Fails(err) =>
      if !err.Paid? {
        FailedWell(cfg, hit, v, h, err);
      }
    case _ =>
  }

  lemma IgnoredWell(cfg: Config, hit: bool, v: View)
    ensures SensesWell(cfg, hit, v, Ignored)
  {
  }

  lemma OpeningConducts(cfg: Config, hit: bool, v: View, h: Handler, plan: Plan)
    requires Conducts(cfg, hit, v, h) && h.pc.Planning? && !h.charged && plan.requested == h.estimate
    requires !cfg.ownerEnergyBurn ==>
      h.need.Some? && plan.shortfall.Some? && 0 < plan.shortfall.value <= h.need.value
    ensures Conducts(cfg, hit, v, h.(pc := Opening(plan)))
  {
    hide MayBeCharged, PaidMode, Required;
  }

  lemma PlanWell(cfg: Config, hit: bool, db: Db, v: View, h: Handler, input: Input)
    requires Accounts(cfg, hit, v) && Conducts(cfg, hit, v, h) && MayFail(cfg, hit, v, h)
    requires h.pc.Planning? && !h.charged
    ensures SensesWell(cfg, hit, v, SensePlan(cfg, db, v.trace, h, input))
  {
    hide Accounts, Conducts, ConductsOn, MayFail, Catch, AfterPrepare, SensesWell, ListsEnabled, IsQuote;
    IgnoredWell(cfg, hit, v);
    match input
    case Fails(err) =>
      if !err.Paid? {
        FailedWell(cfg, hit, v, h, err);
      }
    case Quoted(available, _, quote) =>
      FailedWell(cfg, hit, v, h, Ordinary);
      UnpaidWell(cfg, hit, v, h);
      if h.need.Some? && available < h.need.value && quote.Package? {
        var plan := Plan(h.estimate, quote.amount,
          if cfg.ownerEnergyBurn then None else Some(h.need.value - available));
        OpeningConducts(cfg, hit, v, h, plan);
        SomeConducts(cfg, hit, v, h.(pc := Opening(plan)));
        SilentWell(cfg, hit, v, Some(h.(pc := Opening(plan))));
      }
    case _ =>
  }

  lemma SomeConducts(cfg: Config, hit: bool, v: View, h: Handler)
    requires Conducts(cfg, hit, v, h)
    ensures ConductsOn(cfg, hit, v, Some(h))
  {
  }

  /** The handler goes through its providers. */
  lemma ShopsWell(cfg: Config, hit: bool, v: View, h: Handler, pc: Pc)
    requires Accounts(cfg, hit, v) && Conducts(cfg, hit, v, h) && InPrepare(h.pc) && !h.charged
    requires InPrepare(pc) && !Charging(pc) && !Expecting(pc)
    requires Planned(pc) ==> Planned(h.pc) && pc.plan == h.pc.plan
    ensures SensesWell(cfg, hit, v, Moved(v.trace, Some(h.(pc := pc))))
  {
    hide Accounts, Conducts, InPrepare, Charging, Expecting, Planned;
    PlannedConduct(cfg, hit, v, h, pc);
    SilentWell(cfg, hit, v, Some(h.(pc := pc)));
  }

  lemma ListingWell(cfg: Config, hit: bool, db: Db, v: View, h: Handler, plan: Plan, input: Input)
    requires Accounts(cfg, hit, v) && Conducts(cfg, hit, v, h) && MayFail(cfg, hit, v, h) && !h.charged
    requires h.pc == Listing(plan)
    ensures SensesWell(cfg, hit, v, SenseListing(cfg, db, v.trace, h, plan, input))
  {
    hide Accounts, Conducts, MayFail, Catch, SensesWell, ListsEnabled, Offers;
    IgnoredWell(cfg, hit, v);
    match input
    case Listed(listing) =>
      if ListsEnabled(db.providers, listing) {
        ListedAreThere(db.providers, listing);
        ShopsWell(cfg, hit, v, h, RefusingOrder);
        ShopsWell(cfg, hit, v, h, Choosing(plan, Offers(cfg, db.providers, listing, plan), false));
      }
    case Fails(_) => FailedWell(cfg, hit, v, h, Ordinary);
    case _ =>
  }

  lemma ListedAreThere(providers: map<ProviderId, Provider>, listing: seq<ProviderId>)
    requires ListsEnabled(providers, listing)
    ensures forall i :: 0 <= i < |listing| ==> listing[i] in providers
  {
  }

  lemma ChoiceWell(cfg: Config, hit: bool, v: View, h: Handler)
    requires Accounts(cfg, hit, v) && Conducts(cfg, hit, v, h) && MayFail(cfg, hit, v, h)
    requires !h.charged && h.pc.Choosing?
    ensures SensesWell(cfg, hit, v, SenseChoice(cfg, v.trace, h, h.pc.plan, h.pc.rest, h.pc.rejected))
  {
    hide Accounts, Conducts, MayFail, Catch, SensesWell;
    var pc := h.pc;
    FailedWell(cfg, hit, v, h, Ordinary);
    ShopsWell(cfg, hit, v, h, Exhausted);
    if pc.rest != [] {
      if pc.rest[0].amount.None? {
        ShopsWell(cfg, hit, v, h, Choosing(pc.plan, pc.rest[1..], pc.rejected));
      } else {
        ShopsWell(cfg, hit, v, h, Attempting(pc.plan, pc.rest[0].provider, pc.rest[0].amount.value, pc.rest[1..],
          pc.rejected));
      }
    }
  }

  lemma RereadWell(cfg: Config, hit: bool, db: Db, v: View, h: Handler, input: Input)
    requires Accounts(cfg, hit, v) && Conducts(cfg, hit, v, h) && MayFail(cfg, hit, v, h) && !h.charged
    requires h.pc.Rereading? && Unsold(OrderIn(db, h.tx))
    ensures SensesWell(cfg, hit, v, SenseReread(cfg, db, v.trace, h, h.pc.plan, h.pc.rest, h.pc.rejected, input))
  {
    hide Accounts, Conducts, MayFail, Catch, SensesWell, Duplicate;
    IgnoredWell(cfg, hit, v);
    FailedWell(cfg, hit, v, h, Ordinary);
    ShopsWell(cfg, hit, v, h, Choosing(h.pc.plan, h.pc.rest, h.pc.rejected));
  }

  lemma ExhaustedWell(cfg: Config, hit: bool, db: Db, v: View, h: Handler, input: Input)
    requires Accounts(cfg, hit, v) && Conducts(cfg, hit, v, h) && MayFail(cfg, hit, v, h) && !h.charged
    requires h.pc.Exhausted? && Unsold(OrderIn(db, h.tx))
    ensures SensesWell(cfg, hit, v, SenseExhausted(cfg, db, v.trace, h, input))
  {
    hide Accounts, Conducts, MayFail, Catch, SensesWell;
    IgnoredWell(cfg, hit, v);
    FailedWell(cfg, hit, v, h, Ordinary);
    ShopsWell(cfg, hit, v, h, RefusingOrder);
  }

  lemma AttemptWell(cfg: Config, hit: bool, v: View, h: Handler, amount: int)
    requires Accounts(cfg, hit, v) && Conducts(cfg, hit, v, h) && MayFail(cfg, hit, v, h)
    ensures SensesWell(cfg, hit, v, SenseAttempt(cfg, v.trace, h, amount))
  {
    hide Accounts, Conducts, MayFail, Catch, SensesWell;
    IgnoredWell(cfg, hit, v);
    FailedWell(cfg, hit, v, h, Ordinary);
  }

  /** The call in flight is the last one. */
  lemma CalledWell(cfg: Config, hit: bool, v: View, h: Handler, call: Call)
    requires Accounts(cfg, hit, v) && Conducts(cfg, hit, v, h) && h.pc.Ready? && !h.charged
    requires Placed(v.order, h.pc.provider) && call.provider == h.pc.provider
    ensures var trace := v.trace.(calls := v.trace.calls + [call]);
      SensesWell(cfg, hit, v, Moved(trace, Some(h.(pc := Calling(h.pc.plan, h.pc.provider, h.pc.rest)))))
  {
    hide MayBeCharged, PaidMode, Required;
    StateIsWorkingAt(cfg, hit, v, h);
    var trace := v.trace.(calls := v.trace.calls + [call]);
    assert trace.calls[|trace.calls| - 1] == call;
  }

  lemma ReadyWell(cfg: Config, hit: bool, v: View, h: Handler, input: Input)
    requires Accounts(cfg, hit, v) && Conducts(cfg, hit, v, h) && h.pc.Ready? && !h.charged
    requires Placed(v.order, h.pc.provider)
    ensures SensesWell(cfg, hit, v, SenseReady(v.trace, h, h.pc.plan, h.pc.provider, h.pc.granted, h.pc.day, h.pc.rest,
      input))
  {
    hide Accounts, Conducts, SensesWell, Placed;
    IgnoredWell(cfg, hit, v);
    ShopsWell(cfg, hit, v, h, Refusing(h.pc.plan, h.pc.provider, h.pc.rest, true));
    CalledWell(cfg, hit, v, h, Call(h.pc.provider, h.pc.granted, h.pc.day, h.pc.plan.shortfall, InFlight));
  }

  lemma AnsweredWell(cfg: Config, hit: bool, v: View, h: Handler, answer: Answer)
    requires Accounts(cfg, hit, v) && Conducts(cfg, hit, v, h) && h.pc.Calling? && !h.charged
    requires Placed(v.order, h.pc.provider) && v.trace.calls != [] && !answer.InFlight?
    ensures var last := |v.trace.calls| - 1;
      var trace := v.trace.(calls := v.trace.calls[last := v.trace.calls[last].(answer := answer)]);
      SensesWell(cfg, hit, v, Moved(trace, Some(h.(pc := AfterAnswer(h.pc.plan, h.pc.provider, h.pc.rest, answer)))))
  {
    hide MayBeCharged, PaidMode, Required;
    StateIsWorkingAt(cfg, hit, v, h);
  }

  lemma AnswerWell(cfg: Config, hit: bool, v: View, h: Handler, input: Input)
    requires Accounts(cfg, hit, v) && Conducts(cfg, hit, v, h) && h.pc.Calling? && !h.charged
    requires Placed(v.order, h.pc.provider)
    ensures SensesWell(cfg, hit, v, SenseAnswer(v.trace, h, h.pc.plan, h.pc.provider, h.pc.rest, input))
  {
    hide Accounts, Conducts, SensesWell, Placed, AfterAnswer;
    IgnoredWell(cfg, hit, v);
    if input.Answered? && !input.answer.InFlight? && v.trace.calls != [] {
      AnsweredWell(cfg, hit, v, h, input.answer);
    }
  }

  /** A reading is added to the deliveries; it lets the handler go on when it reaches the requirement. */
  lemma SeenWell(cfg: Config, hit: bool, v: View, h: Handler, reading: nat, pc: Pc)
    requires Accounts(cfg, hit, v) && Conducts(cfg, hit, v, h) && h.pc.Confirming? && !h.charged
    requires pc.Confirming? || (pc.Fulfilling? && h.need.Some? && (reading >= h.need.value || cfg.ownerEnergyBurn))
    ensures var seen := v.trace.(arrivals := v.trace.arrivals + [Arrival(h.need, reading, |v.trace.calls|)]);
      SensesWell(cfg, hit, v, Moved(seen, Some(h.(reading := reading, pc := pc))))
  {
    hide MayBeCharged, PaidMode, Required, Arrived;
    var seen := v.trace.(arrivals := v.trace.arrivals + [Arrival(h.need, reading, |v.trace.calls|)]);
    if h.need.Some? && reading >= h.need.value {
      ReadingArrives(v.trace, h.need, reading);
    }
    if Arrived(v.trace) {
      ArrivedStays(v.trace, seen.arrivals);
    }
  }

  lemma ReadingArrives(trace: Trace, need: Option<nat>, reading: nat)
    requires need.Some? && reading >= need.value
    ensures Arrived(trace.(arrivals := trace.arrivals + [Arrival(need, reading, |trace.calls|)]))
  {
    assert (trace.arrivals + [Arrival(need, reading, |trace.calls|)])[|trace.arrivals|].reading == reading;
  }

  lemma ArrivalWell(cfg: Config, hit: bool, v: View, h: Handler, input: Input)
    requires Accounts(cfg, hit, v) && Conducts(cfg, hit, v, h) && h.pc.Confirming? && !h.charged
    ensures SensesWell(cfg, hit, v, SenseArrival(cfg, v.trace, h, input))
  {
    hide Accounts, Conducts, SensesWell;
    IgnoredWell(cfg, hit, v);
    match input
    case Reading(available) =>
      if h.need.Some? && (available >= h.need.value || cfg.ownerEnergyBurn) {
        SeenWell(cfg, hit, v, h, available, Fulfilling);
      } else {
        assert h.(reading := available) == h.(reading := available, pc := Confirming);
        SeenWell(cfg, hit, v, h, available, Confirming);
      }
    case TimedOut => TimingWell(cfg, hit, v, h);
    case _ =>
  }

  lemma TimingWell(cfg: Config, hit: bool, v: View, h: Handler)
    requires Accounts(cfg, hit, v) && Conducts(cfg, hit, v, h) && h.pc.Confirming? && !h.charged
    ensures SensesWell(cfg, hit, v, Moved(v.trace, Some(h.(pc := TimingOut))))
  {
    hide MayBeCharged, PaidMode, Required, Arrived;
    assert v.(trace := v.trace) == v;
  }

  lemma ArrivedStays(trace: Trace, arrivals: seq<Arrival>)
    requires Arrived(trace) && trace.arrivals <= arrivals
    ensures Arrived(trace.(arrivals := arrivals))
  {
    var k :| 0 <= k < |trace.arrivals| && trace.arrivals[k].made == |trace.calls|
      && trace.arrivals[k].required.Some? && trace.arrivals[k].reading >= trace.arrivals[k].required.value;
    assert arrivals[k] == trace.arrivals[k];
  }

  lemma ReadAgainConducts(cfg: Config, hit: bool, v: View, h: Handler, reading: nat)
    requires Conducts(cfg, hit, v, h)
    ensures Conducts(cfg, hit, v, h.(reading := reading))
  {
    hide MayBeCharged, PaidMode, Required;
  }

  lemma RecheckFailsWell(cfg: Config, hit: bool, v: View, h: Handler, paid: bool)
    requires Accounts(cfg, hit, v) && Conducts(cfg, hit, v, h) && h.pc == Rechecking(paid) && !h.charged && !h.forwarded
    requires !paid ==> MayFail(cfg, hit, v, h)
    ensures SensesWell(cfg, hit, v, Moved(v.trace, Catch(cfg, h, if paid then Paid else Ordinary)))
  {
    hide Accounts, Conducts, MayFail, Catch, SensesWell, PaidMode;
    if paid {
      MayFailPaid(cfg, hit, v, h);
      CaughtPaid(cfg, hit, v, h);
      SilentWell(cfg, hit, v, Catch(cfg, h, Paid));
    } else {
      FailedWell(cfg, hit, v, h, Ordinary);
    }
  }

  lemma RecheckWell(cfg: Config, hit: bool, v: View, h: Handler, paid: bool, input: Input)
    requires Accounts(cfg, hit, v) && Conducts(cfg, hit, v, h) && h.pc == Rechecking(paid) && !h.charged && !h.forwarded
    requires !paid ==> MayFail(cfg, hit, v, h)
    ensures SensesWell(cfg, hit, v, SenseRecheck(cfg, v.trace, h, paid, input))
  {
    hide Accounts, Conducts, MayFail, Catch, SensesWell, Prepared;
    IgnoredWell(cfg, hit, v);
    match input
    case Reading(available) =>
      var seen := h.(reading := available);
      ReadAgainConducts(cfg, hit, v, h, available);
      if !paid {
        ReadAgainMayFail(cfg, hit, v, h, available);
      }
      RecheckFailsWell(cfg, hit, v, seen, paid);
      PreparedConducts(cfg, hit, v, seen, paid);
      SilentWell(cfg, hit, v, Some(Prepared(seen, paid)));
    case Fails(_) => RecheckFailsWell(cfg, hit, v, h, paid);
    case _ =>
  }

  lemma ReadAgainMayFail(cfg: Config, hit: bool, v: View, h: Handler, reading: nat)
    requires MayFail(cfg, hit, v, h)
    ensures MayFail(cfg, hit, v, h.(reading := reading))
  {
    hide MayBeCharged, PaidMode;
  }

  lemma LifetimeWell(cfg: Config, hit: bool, v: View, h: Handler, input: Input)
    requires Accounts(cfg, hit, v) && Conducts(cfg, hit, v, h) && (!h.charged ==> MayFail(cfg, hit, v, h))
    ensures SensesWell(cfg, hit, v, SenseLifetime(cfg, v.trace, h, input))
  {
    hide Accounts, Conducts, MayFail, Catch, SensesWell;
    IgnoredWell(cfg, hit, v);
    if !h.charged {
      FailedWell(cfg, hit, v, h, Ordinary);
    }
  }

  /** The decision is kept as it was given. */
  lemma DecidedWell(cfg: Config, hit: bool, v: View, h: Handler, accepted: bool)
    requires Accounts(cfg, hit, v) && Conducts(cfg, hit, v, h) && h.pc.Forwarding?
    ensures var sent := v.trace.(forwards := v.trace.forwards + [Forward(h.need, h.reading, Decided(accepted))]);
      SensesWell(cfg, hit, v, Moved(sent, Some(h.(forwarded := true, pc := Recording(accepted)))))
  {
    hide MayBeCharged, PaidMode, Required;
    var sent := v.trace.forwards + [Forward(h.need, h.reading, Decided(accepted))];
    assert sent[|sent| - 1] == Forward(h.need, h.reading, Decided(accepted));
    assert Arrived(v.trace) ==> Arrived(v.trace.(forwards := sent));
  }

  lemma UndecidedWell(cfg: Config, hit: bool, v: View, h: Handler, reply: UpstreamReply)
    requires Accounts(cfg, hit, v)
    ensures var sent := v.trace.(forwards := v.trace.forwards + [Forward(h.need, h.reading, reply)]);
      SensesWell(cfg, hit, v, Moved(sent, None))
  {
    hide MayBeCharged, PaidMode;
    var sent := v.trace.forwards + [Forward(h.need, h.reading, reply)];
    assert Arrived(v.trace) ==> Arrived(v.trace.(forwards := sent));
  }

  lemma ForwardWell(cfg: Config, hit: bool, v: View, h: Handler, input: Input)
    requires Accounts(cfg, hit, v) && Conducts(cfg, hit, v, h) && h.pc.Forwarding?
    ensures SensesWell(cfg, hit, v, SenseForward(cfg, v.trace, h, input))
  {
    hide Accounts, Conducts, Catch, SensesWell;
    IgnoredWell(cfg, hit, v);
    UncertainlyStops(cfg, h.(forwarded := true));
    if input.Upstream? {
      UndecidedWell(cfg, hit, v, h, input.reply);
      if input.reply.Decided? {
        DecidedWell(cfg, hit, v, h, input.reply.accepted);
      }
    }
  }

  lemma SenseConducts(cfg: Config, hit: bool, db: Db, v: View, h: Handler, input: Input)
    requires Accounts(cfg, hit, v) && Conducts(cfg, hit, v, h) && HandlerOk(cfg, v, h) && Basics(v)
    requires v.order == OrderIn(db, h.tx) && KnowsOrder(v.order, h)
    ensures SensesWell(cfg, hit, v, Sense(cfg, db, v.trace, h, input))
  {
    hide Accounts, Conducts, HandlerOk, Basics, MayFail, SensesWell, Unsold, Placed, OrderIn, SenseEstimate,
      SenseDelegation, SensePlan, SenseListing, SenseChoice, SenseAttempt, SenseReread, SenseExhausted, SenseReady,
      SenseAnswer, SenseArrival, SenseRecheck, SenseLifetime, SenseForward;
    IgnoredWell(cfg, hit, v);
    NotChargedEarly(cfg, v, h);
    NotSentEarly(cfg, v, h);
    if Unspent(h) && !h.charged {
      UnspentMayFail(cfg, hit, v, h);
    }
    match h.pc
    case Estimating => EstimateWell(cfg, hit, v, h, input);
    case Delegating => DelegationWell(cfg, hit, v, h, input);
    case Planning => PlanWell(cfg, hit, db, v, h, input);
    case Listing(plan) => ListingWell(cfg, hit, db, v, h, plan, input);
    case Choosing(_, _, _) => ChoiceWell(cfg, hit, v, h);
    case Attempting(_, _, amount, _, _) => AttemptWell(cfg, hit, v, h, amount);
    case Rereading(_, _, _) => RereadWell(cfg, hit, db, v, h, input);
    case Exhausted => ExhaustedWell(cfg, hit, db, v, h, input);
    case Ready(_, _, _, _, _) => ReadyWell(cfg, hit, v, h, input);
    case Calling(_, _, _) => AnswerWell(cfg, hit, v, h, input);
    case Confirming => ArrivalWell(cfg, hit, v, h, input);
    case Rechecking(paid) => RecheckWell(cfg, hit, v, h, paid, input);
    case Readying => LifetimeWell(cfg, hit, v, h, input);
    case Forwarding => ForwardWell(cfg, hit, v, h, input);
    case _ =>
  }

  lemma NotSentEarly(cfg: Config, v: View, h: Handler)
    requires HandlerOk(cfg, v, h)
    ensures h.forwarded ==> h.pc.Recording?
  {
    hide PhaseOk;
  }
}
