/** Who holds an address claim, and which orders may be open under it. */
module Claims {
  import opened Options
  import opened Schema
  import opened EnergyPackages
  import opened Gateway
  import opened TxInvariant
  import opened WriteLemmas
  import opened Invariant
  import opened Quota
  import G = GatewayRepository
  import P = ProviderRepository

  // ---- the claim invariant --------------------------------------------------------------------

  predicate OrderIsOpen(db: Db, t: TxId) {
    t in db.orders && Open(db.orders[t].state)
  }

  /** Claims are kept under their transaction's own address, for requests that exist. */
  ghost predicate ClaimsOk(db: Db) {
    forall a :: a in db.claims ==> db.claims[a].owner == a && db.claims[a] in db.requests
  }

  /** Away from the given addresses, a transaction with an open order holds the claim. */
  ghost predicate OpenIsClaimed(db: Db, lost: set<Address>) {
    forall t :: OrderIsOpen(db, t) && t.owner !in lost ==> Holds(db, t)
  }

  /** The request is in none of the states whose claims are cleaned up. */
  predicate Underway(db: Db, t: TxId) {
    t in db.requests && !Terminal(db.requests[t].state)
  }

  /** A handler that has taken its claim still holds it. */
  predicate PreparerOk(db: Db, h: Handler) {
    Preparing(h) && !h.pc.Claiming? ==> Holds(db, h.tx)
  }

  ghost predicate PreparersOk(s: State) {
    forall i :: i in s.handlers && s.handlers[i].tx.owner !in s.stripped ==> PreparerOk(s.db, s.handlers[i])
  }

  ghost predicate ClaimInv(s: State) {
    ClaimsOk(s.db) && OpenIsClaimed(s.db, s.stripped) && PreparersOk(s)
  }

  /** A request under preparation is finished only by a late handler's write. */
  ghost predicate UnderwayInv(s: State) {
    forall i :: i in s.handlers && Preparing(s.handlers[i]) && s.handlers[i].tx !in s.clobbered ==>
      Underway(s.db, s.handlers[i].tx)
  }

  // ---- writes ------------------------------------------------------------------------------------

  /** What a write for t leaves to every other transaction. */
  ghost predicate ClaimFrame(before: Db, after: Db, t: TxId) {
    && (forall u :: u != t ==> (Holds(before, u) ==> Holds(after, u)))
    && (forall u :: u != t ==> (Underway(before, u) ==> Underway(after, u)))
    && (forall u :: u != t ==> (OrderIsOpen(after, u) ==> OrderIsOpen(before, u)))
  }

  lemma ClaimWriteFrame(db: Db, t: TxId)
    requires ClaimsOk(db)
    ensures var after := G.TryAcquireAddressClaim(db, t.owner, t).0; ClaimFrame(db, after, t) && ClaimsOk(after)
    ensures var after := G.ReleaseAddressClaim(db, t.owner, t); ClaimFrame(db, after, t) && ClaimsOk(after)
  {
  }

  lemma DropFrame(db: Db, t: TxId)
    requires ClaimsOk(db)
    ensures var after := G.DropClaimOf(db, t); ClaimFrame(db, after, t) && ClaimsOk(after)
    ensures OrderIsOpen(db, t) && Holds(db, t) ==> Holds(G.DropClaimOf(db, t), t)
  {
  }

  lemma DiscardClaims(db: Db, t: TxId)
    requires ClaimsOk(db)
    ensures var after := G.DiscardUnpreparedRequest(db, t); ClaimFrame(db, after, t) && ClaimsOk(after)
  {
  }

  /** A write that leaves the claims, the orders and the other requests alone. */
  ghost predicate RequestOnly(before: Db, after: Db, t: TxId) {
    && after.claims == before.claims && after.orders == before.orders && after.openLeases == before.openLeases
    && (forall u :: u in before.requests ==> u in after.requests)
    && (forall u :: u != t && u in before.requests ==> after.requests[u] == before.requests[u])
  }

  lemma RequestOnlyFrame(before: Db, after: Db, t: TxId, lost: set<Address>)
    requires ClaimsOk(before) && RequestOnly(before, after, t)
    ensures ClaimFrame(before, after, t) && ClaimsOk(after)
    ensures OpenIsClaimed(before, lost) ==> OpenIsClaimed(after, lost)
  {
    if OpenIsClaimed(before, lost) {
      OpenStays(before, after, lost);
    }
    assert forall u :: OrderIsOpen(after, u) == OrderIsOpen(before, u);
  }

  lemma MoveQuotaOnly(db: Db, t: TxId, consume: bool)
    ensures RequestOnly(db, G.MoveQuota(db, t.owner, t, consume), t)
  {
  }

  lemma ReserveOnly(db: Db, t: TxId, finite: bool, now: int)
    ensures RequestOnly(db, G.ReserveQuota(db, t.owner, t, finite, now).0, t)
  {
  }

  lemma StateOnly(db: Db, t: TxId, state: RequestState)
    ensures RequestOnly(db, G.SetRequestState(db, t, state), t) && RequestOnly(db, G.CompleteRequest(db, t, state), t)
  {
  }

  lemma OutcomeClaims(db: Db, t: TxId, accepted: bool, lost: set<Address>)
    requires ClaimsOk(db) && OpenIsClaimed(db, lost)
    ensures var after := G.RecordBroadcastOutcome(db, t.owner, t, accepted);
      ClaimFrame(db, after, t) && ClaimsOk(after) && OpenIsClaimed(after, lost)
  {
    hide G.DropClaimOf, G.MoveQuota;
    var settled := G.MoveQuota(db, t.owner, t, accepted || G.ProviderBillable(db, t));
    MoveQuotaOnly(db, t, accepted || G.ProviderBillable(db, t));
    var answered :=
      if t !in settled.requests then settled
      else settled.(requests := settled.requests[t := settled.requests[t].(
        state := if accepted then UpstreamAccepted else UpstreamRejected,
        response := Some(accepted))]);
    assert RequestOnly(db, answered, t);
    RequestOnlyFrame(db, answered, t, lost);
    DropFrame(answered, t);
    DropKeepsOpen(answered, t, lost);
  }

  lemma DropKeepsOpen(db: Db, t: TxId, lost: set<Address>)
    requires ClaimsOk(db) && OpenIsClaimed(db, lost)
    ensures OpenIsClaimed(G.DropClaimOf(db, t), lost)
  {
    OpenStays(db, G.DropClaimOf(db, t), lost);
  }

  lemma OpenStays(before: Db, after: Db, lost: set<Address>)
    requires OpenIsClaimed(before, lost) && after.orders == before.orders
    requires forall u :: OrderIsOpen(before, u) && Holds(before, u) ==> Holds(after, u)
    ensures OpenIsClaimed(after, lost)
  {
    forall u | OrderIsOpen(after, u) && u.owner !in lost
      ensures Holds(after, u)
    {
      assert OrderIsOpen(before, u);
    }
  }

  lemma ClaimWritesKeepOpen(db: Db, t: TxId, lost: set<Address>)
    requires ClaimsOk(db) && OpenIsClaimed(db, lost)
    ensures OpenIsClaimed(G.TryAcquireAddressClaim(db, t.owner, t).0, lost)
    ensures OpenIsClaimed(G.ReleaseAddressClaim(db, t.owner, t), lost)
    ensures OpenIsClaimed(G.DiscardUnpreparedRequest(db, t), lost)
  {
    OpenStays(db, G.TryAcquireAddressClaim(db, t.owner, t).0, lost);
    OpenStays(db, G.ReleaseAddressClaim(db, t.owner, t), lost);
    OpenStays(db, G.DiscardUnpreparedRequest(db, t), lost);
  }

  lemma RequestWriteClaims(cfg: Config, db: Db, t: TxId, w: Write, lost: set<Address>)
    requires ClaimsOk(db) && OpenIsClaimed(db, lost) && RequestWrite(w)
    ensures var after := Apply(cfg, db, t, w).0;
      ClaimFrame(db, after, t) && ClaimsOk(after) && OpenIsClaimed(after, lost)
  {
    hide ClaimFrame, ClaimsOk, OpenIsClaimed, G.TryAcquireAddressClaim, G.ReleaseAddressClaim,
        G.DiscardUnpreparedRequest,
      G.ReserveQuota, G.MoveQuota, G.SetRequestState, G.CompleteRequest, G.RecordBroadcastOutcome;
    match w
    case AcquireClaim =>
      ClaimWriteFrame(db, t);
      ClaimWritesKeepOpen(db, t, lost);
    case DropClaim =>
      ClaimWriteFrame(db, t);
      ClaimWritesKeepOpen(db, t, lost);
    case DiscardRow =>
      DiscardClaims(db, t);
      ClaimWritesKeepOpen(db, t, lost);
    case ReserveUnit(now) =>
      ReserveOnly(db, t, cfg.provider, now);
      RequestOnlyFrame(db, G.ReserveQuota(db, t.owner, t, cfg.provider, now).0, t, lost);
    case ConsumeUnit =>
      MoveQuotaOnly(db, t, true);
      RequestOnlyFrame(db, G.MoveQuota(db, t.owner, t, true), t, lost);
    case ReleaseUnit =>
      MoveQuotaOnly(db, t, false);
      RequestOnlyFrame(db, G.MoveQuota(db, t.owner, t, false), t, lost);
    case SaveEstimate =>
      StateOnly(db, t, ResourceEstimated);
      RequestOnlyFrame(db, G.SetRequestState(db, t, ResourceEstimated), t, lost);
    case SetState(state) =>
      StateOnly(db, t, state);
      RequestOnlyFrame(db, G.SetRequestState(db, t, state), t, lost);
    case Complete(state) =>
      StateOnly(db, t, state);
      RequestOnlyFrame(db, G.CompleteRequest(db, t, state), t, lost);
    case RecordOutcome(accepted) => OutcomeClaims(db, t, accepted, lost);
  }

  /** Only the order of t may have been opened. */
  ghost predicate OpensOnly(before: Db, after: Db, t: TxId) {
    forall u :: OrderIsOpen(after, u) ==> OrderIsOpen(before, u) || u == t
  }

  lemma StartOpens(db: Db, limits: Limits, t: TxId, p: ProviderId, amount: nat, d: Day)
    ensures OpensOnly(db, P.StartAttempt(db, limits, t, p, amount, d).0, t)
  {
  }

  lemma FinishOpens(db: Db, t: TxId, p: ProviderId, outcome: OrderState)
    ensures var after := P.TransitionAttempt(db, t, p, outcome).0;
      OpensOnly(db, after, t) && (OrderIsOpen(after, t) ==> OrderIsOpen(db, t))
  {
  }

  lemma OrderWriteOpens(cfg: Config, db: Db, t: TxId, w: Write)
    requires w.OpenOrder? || w.RefuseOrder? || w.FinishConfirmation?
    ensures var after := Apply(cfg, db, t, w).0;
      OpensOnly(db, after, t) && (OrderIsOpen(after, t) ==> OrderIsOpen(db, t))
  {
    match w
    case OpenOrder(requested) =>
    case RefuseOrder =>
    case FinishConfirmation(result) =>
  }

  lemma OrderFrameClaims(before: Db, after: Db, t: TxId, lost: set<Address>)
    requires ClaimsOk(before) && OpenIsClaimed(before, lost) && OrderFrame(before, after) && OpensOnly(before, after, t)
    requires OrderIsOpen(after, t) ==> OrderIsOpen(before, t) || Holds(before, t) || t.owner in lost
    ensures ClaimFrame(before, after, t) && ClaimsOk(after) && OpenIsClaimed(after, lost)
  {
  }

  /** Claims stay consistent under any write; only an attempt needs its issuer to hold the claim. */
  lemma WriteClaims(cfg: Config, db: Db, t: TxId, w: Write, lost: set<Address>)
    requires ClaimsOk(db) && OpenIsClaimed(db, lost) && (w.StartAttempt? && t.owner !in lost ==> Holds(db, t))
    ensures var after := Apply(cfg, db, t, w).0;
      ClaimFrame(db, after, t) && ClaimsOk(after) && OpenIsClaimed(after, lost)
  {
    hide ClaimFrame, ClaimsOk, OpenIsClaimed, OpensOnly, P.StartAttempt, P.TransitionAttempt;
    if RequestWrite(w) {
      RequestWriteClaims(cfg, db, t, w, lost);
    } else {
      OrderKeepsBindings(cfg, db, t, w);
      if w.StartAttempt? {
        StartOpens(db, cfg.limits, t, w.provider, w.amount, w.day);
      } else if w.FinishAttempt? {
        FinishOpens(db, t, w.provider, w.outcome);
      } else {
        OrderWriteOpens(cfg, db, t, w);
      }
      OrderFrameClaims(db, Apply(cfg, db, t, w).0, t, lost);
    }
  }

  // ---- handlers ------------------------------------------------------------------------------------

  predicate Stops(next: Option<Handler>) {
    next.Some? ==> !Preparing(next.value)
  }

  lemma CatchStops(cfg: Config, h: Handler, err: Error)
    ensures Stops(Catch(cfg, h, err)) && Stops(CatchRest(cfg, h, err)) && Stops(CatchUnclaim(h))
  {
  }

  lemma AfterPrepareStops(cfg: Config, h: Handler, paid: bool)
    ensures !Preparing(AfterPrepare(cfg, h, paid)) && !Preparing(Prepared(h, paid))
  {
    if !cfg.ownerEnergyBurn && h.need.Some? {
    } else {
    }
  }

  lemma DuplicateStops(cfg: Config, h: Handler, state: OrderState)
    ensures Stops(Duplicate(cfg, h, state))
  {
    hide Catch;
    CatchStops(cfg, h, Ordinary);
    if state.Accepted? || state.Fulfilled? {
    } else if state.Ordering? || state.Unknown? {
    } else {
    }
  }

  lemma FailStops(cfg: Config, h: Handler)
    ensures Stops(Fail(cfg, h))
  {
    hide Catch, CatchRest, CatchUnclaim, AfterPrepare, Preparing;
    CatchStops(cfg, h, Ordinary);
    CatchStops(cfg, h, Paid);
    CatchStops(cfg, h.(quota := false), Paid);
    AfterPrepareStops(cfg, h, true);
    GoneOn(h);
  }

  /** The places a handler goes to without its catch block when a write fails. */
  lemma GoneOn(h: Handler)
    ensures forall p :: !Preparing(h.(pc := Doubting(p)))
    ensures !Preparing(h.(pc := Consuming(false))) && !Preparing(h.(pc := Forwarding))
    ensures Stops(CatchConclude(h.(claimed := false)))
  {
  }

  /** A handler that goes on preparing was preparing, and has its claim by then. */
  ghost predicate GoesOn(h: Handler, next: Option<Handler>) {
    next.Some? && Preparing(next.value) ==> Preparing(h) && !next.value.pc.Claiming?
  }

  lemma EarlyGoesOn(cfg: Config, h: Handler, reply: Reply, input: Input)
    requires h.pc.Claiming? || h.pc.Reserving? || h.pc.DroppingClaim? || h.pc.SavingEstimate?
    ensures GoesOn(h, Resume(cfg, h, reply, input))
    ensures h.pc.Claiming? && reply.No? ==> Stops(Resume(cfg, h, reply, input))
  {
    hide Catch;
  }

  lemma OrderingGoesOn(cfg: Config, h: Handler, reply: Reply, input: Input)
    requires h.pc.Opening? || h.pc.Attempting? || h.pc.Refusing? || h.pc.RefusingOrder?
    ensures GoesOn(h, Resume(cfg, h, reply, input))
  {
    hide Catch, Duplicate;
    CatchStops(cfg, h, Ordinary);
    if reply.Found? {
      DuplicateStops(cfg, h, reply.order.state);
    }
  }

  lemma LaterGoesOn(cfg: Config, h: Handler, reply: Reply, input: Input)
    requires h.pc.Accepting? || h.pc.Doubting? || h.pc.Consuming? || h.pc.Fulfilling? || h.pc.TimingOut?
      || h.pc.Readying?
    ensures GoesOn(h, Resume(cfg, h, reply, input))
  {
    hide Catch, AfterPrepare;
    CatchStops(cfg, h, Paid);
    AfterPrepareStops(cfg, h, true);
  }

  lemma CatchGoesOn(cfg: Config, h: Handler, reply: Reply, input: Input)
    requires h.pc.CatchConsuming? || h.pc.CatchReleasing? || h.pc.CatchDropping?
    ensures GoesOn(h, Resume(cfg, h, reply, input))
  {
    hide CatchRest, CatchUnclaim;
    CatchStops(cfg, h.(quota := false), Paid);
    CatchStops(cfg, h, Paid);
  }

  lemma ResumeGoesOn(cfg: Config, h: Handler, reply: Reply, input: Input)
    requires Intent(cfg, h, input).Some?
    ensures GoesOn(h, Resume(cfg, h, reply, input))
    ensures h.pc.Claiming? && reply.No? ==> Stops(Resume(cfg, h, reply, input))
  {
    if h.pc.Claiming? || h.pc.Reserving? || h.pc.DroppingClaim? || h.pc.SavingEstimate? {
      hide GoesOn, Resume, Stops;
      EarlyGoesOn(cfg, h, reply, input);
    } else if h.pc.Opening? || h.pc.Attempting? || h.pc.Refusing? || h.pc.RefusingOrder? {
      hide GoesOn, Resume, Stops;
      OrderingGoesOn(cfg, h, reply, input);
    } else if h.pc.Accepting? || h.pc.Doubting? || h.pc.Consuming? || h.pc.Fulfilling? || h.pc.TimingOut?
      || h.pc.Readying? {
      hide GoesOn, Resume, Stops;
      LaterGoesOn(cfg, h, reply, input);
    } else if h.pc.CatchConsuming? || h.pc.CatchReleasing? || h.pc.CatchDropping? {
      hide GoesOn, Resume, Stops;
      CatchGoesOn(cfg, h, reply, input);
    } else {
      hide Preparing, Resume;
      EndingResume(cfg, h, reply, input);
    }
  }

  lemma SenseGoesOn(cfg: Config, db: Db, trace: Trace, h: Handler, input: Input)
    ensures var sensed := Sense(cfg, db, trace, h, input);
      sensed.Moved? ==> GoesOn(h, sensed.next) && !h.pc.Claiming?
  {
    hide SenseEstimate, SenseDelegation, SensePlan, SenseListing, SenseChoice, SenseAttempt, SenseReread,
      SenseExhausted, SenseReady, SenseAnswer, SenseArrival, SenseRecheck, SenseLifetime, SenseForward, GoesOn;
    match h.pc
    case Delegating => UnpaidGoesOn(cfg, trace, h, input);
    case Confirming => ArrivalGoesOn(cfg, trace, h, input);
    case Rechecking(paid) => RecheckGoesOn(cfg, trace, h, paid, input);
    case Readying => LifetimeGoesOn(cfg, trace, h, input);
    case Forwarding => ForwardGoesOn(cfg, trace, h, input);
    case Exhausted => ExhaustedGoesOn(cfg, db, trace, h, input);
    case Estimating => PlanningGoesOn(cfg, db, trace, h, input);
    case Planning => PlanningGoesOn(cfg, db, trace, h, input);
    case Listing(_) => ListingGoesOn(cfg, db, trace, h, input);
    case Choosing(_, _, _) => ListingGoesOn(cfg, db, trace, h, input);
    case Attempting(_, _, _, _, _) => CallingGoesOn(cfg, db, trace, h, input);
    case Rereading(_, _, _) => CallingGoesOn(cfg, db, trace, h, input);
    case Ready(_, _, _, _, _) => CallingGoesOn(cfg, db, trace, h, input);
    case Calling(_, _, _) => CallingGoesOn(cfg, db, trace, h, input);
    case _ =>
  }

  lemma UnpaidGoesOn(cfg: Config, trace: Trace, h: Handler, input: Input)
    ensures var sensed := SenseDelegation(cfg, trace, h, input); sensed.Moved? ==> GoesOn(h, sensed.next)
  {
    hide Catch, AfterPrepare;
    CatchStops(cfg, h, Ordinary);
    CatchStops(cfg, h, Insufficient);
    AfterPrepareStops(cfg, h, false);
  }

  lemma ArrivalGoesOn(cfg: Config, trace: Trace, h: Handler, input: Input)
    requires h.pc.Confirming?
    ensures var sensed := SenseArrival(cfg, trace, h, input); sensed.Moved? ==> GoesOn(h, sensed.next)
  {
  }

  lemma LifetimeGoesOn(cfg: Config, trace: Trace, h: Handler, input: Input)
    ensures var sensed := SenseLifetime(cfg, trace, h, input); sensed.Moved? ==> GoesOn(h, sensed.next)
  {
    hide Catch;
    CatchStops(cfg, h, Ordinary);
  }

  lemma RecheckGoesOn(cfg: Config, trace: Trace, h: Handler, paid: bool, input: Input)
    ensures var sensed := SenseRecheck(cfg, trace, h, paid, input); sensed.Moved? ==> GoesOn(h, sensed.next)
  {
    hide Catch, Prepared;
    CatchStops(cfg, h, Ordinary);
    CatchStops(cfg, h, Paid);
    if input.Reading? {
      var seen := h.(reading := input.available);
      CatchStops(cfg, seen, Ordinary);
      CatchStops(cfg, seen, Paid);
      AfterPrepareStops(cfg, seen, paid);
    }
  }

  lemma ForwardGoesOn(cfg: Config, trace: Trace, h: Handler, input: Input)
    ensures var sensed := SenseForward(cfg, trace, h, input); sensed.Moved? ==> GoesOn(h, sensed.next)
  {
    hide Catch;
    CatchStops(cfg, h.(forwarded := true), Ordinary);
  }

  lemma ExhaustedGoesOn(cfg: Config, db: Db, trace: Trace, h: Handler, input: Input)
    ensures var sensed := SenseExhausted(cfg, db, trace, h, input); sensed.Moved? ==> GoesOn(h, sensed.next)
  {
    hide Catch, Duplicate;
    CatchStops(cfg, h, Ordinary);
    if h.tx in db.orders {
      DuplicateStops(cfg, h, db.orders[h.tx].state);
    }
  }

  lemma PlanningGoesOn(cfg: Config, db: Db, trace: Trace, h: Handler, input: Input)
    requires h.pc.Estimating? || h.pc.Planning?
    ensures var sensed := Sense(cfg, db, trace, h, input); sensed.Moved? ==> GoesOn(h, sensed.next)
  {
    hide Catch, ListsEnabled, IsQuote, AfterPrepare;
    CatchStops(cfg, h, Ordinary);
    CatchStops(cfg, h, Insufficient);
    AfterPrepareStops(cfg, h, false);
  }

  lemma ListingGoesOn(cfg: Config, db: Db, trace: Trace, h: Handler, input: Input)
    requires h.pc.Listing? || h.pc.Choosing?
    ensures var sensed := Sense(cfg, db, trace, h, input); sensed.Moved? ==> GoesOn(h, sensed.next)
  {
    hide Catch, ListsEnabled, Offers;
    CatchStops(cfg, h, Ordinary);
  }

  lemma CallingGoesOn(cfg: Config, db: Db, trace: Trace, h: Handler, input: Input)
    requires h.pc.Attempting? || h.pc.Rereading? || h.pc.Ready? || h.pc.Calling?
    ensures var sensed := Sense(cfg, db, trace, h, input); sensed.Moved? ==> GoesOn(h, sensed.next)
  {
    hide Catch, Duplicate;
    CatchStops(cfg, h, Ordinary);
    if h.tx in db.orders {
      DuplicateStops(cfg, h, db.orders[h.tx].state);
    }
  }

  // ---- the steps of a handler -------------------------------------------------------------------------

  /** A preparing handler's own writes keep its request underway and its claim in place. */
  lemma PreparingWrite(cfg: Config, db: Db, h: Handler, input: Input)
    requires Preparing(h) && Intent(cfg, h, input).Some?
    ensures var (after, reply) := Apply(cfg, db, h.tx, Intent(cfg, h, input).value);
      && (Underway(db, h.tx) ==> Underway(after, h.tx))
      && (Holds(db, h.tx) ==> Holds(after, h.tx))
      && (h.pc.Claiming? && !reply.No? && !reply.Thrown? ==> Holds(after, h.tx))
  {
    var w := Intent(cfg, h, input).value;
    if h.pc.Claiming? {
    } else if h.pc.Reserving? || h.pc.SavingEstimate? {
    } else {
      OrderKeepsBindings(cfg, db, h.tx, w);
    }
  }

  lemma AttemptHolds(cfg: Config, s: State, h: Handler, input: Input)
    requires PreparerOk(s.db, h) && !h.late && Intent(cfg, h, input).Some? && Intent(cfg, h, input).value.StartAttempt?
    ensures Holds(s.db, h.tx)
  {
  }

  /** A handler that goes on preparing after a write has kept what it had. */
  lemma NextPreparer(cfg: Config, s: State, h: Handler, w: Write, input: Input, fault: Fault)
    requires Intent(cfg, h, input) == Some(w)
    ensures var next := AfterWrite(cfg, s.db, h, w, input, fault);
      var after := if fault.NotApplied? then s.db else Apply(cfg, s.db, h.tx, w).0;
      next.Some? && Preparing(next.value) ==>
        && Preparing(h)
        && (PreparerOk(s.db, h) ==> PreparerOk(after, next.value))
        && (Underway(s.db, h.tx) ==> Underway(after, h.tx))
  {
    hide Apply, Resume, Fail, Intent, Holds, Underway, Preparing;
    var reply := Apply(cfg, s.db, h.tx, w).1;
    FailStops(cfg, h);
    LateStops(Fail(cfg, h));
    ResumeGoesOn(cfg, h, reply, input);
    ResumeStays(cfg, h, reply, input);
    if Preparing(h) {
      PreparingWrite(cfg, s.db, h, input);
    }
  }

  lemma LateStops(next: Option<Handler>)
    ensures Stops(MarkLate(next))
  {
  }

  /** The other handlers keep their claims, whoever writes. */
  lemma OtherPreparers(s: State, s': State, id: nat, t: TxId)
    requires PreparersOk(s) && Alone(s) && id in s.handlers && s.handlers[id].tx == t
    requires s'.db == s.db || ClaimFrame(s.db, s'.db, t)
    requires s.handlers[id].late ==> s'.db.claims == s.db.claims
    ensures forall j :: j in s.handlers && j != id && s.handlers[j].tx.owner !in s.stripped ==>
      PreparerOk(s'.db, s.handlers[j])
  {
    hide Underway;
    forall j | j in s.handlers && j != id && s.handlers[j].tx.owner !in s.stripped
      ensures PreparerOk(s'.db, s.handlers[j])
    {
      assert PreparerOk(s.db, s.handlers[j]);
    }
  }

  lemma FailedKeepsClaims(cfg: Config, db: Db, t: TxId)
    ensures Apply(cfg, db, t, Complete(Failed)).0.claims == db.claims
  {
  }

  lemma WriteStepClaims(cfg: Config, s: State, id: nat, w: Write, input: Input, fault: Fault)
    requires Inv(cfg, s) && ClaimInv(s) && id in s.handlers && Intent(cfg, s.handlers[id], input) == Some(w)
    ensures ClaimInv(WriteStep(cfg, s, id, s.handlers[id], w, input, fault))
  {
    hide TxsOk, HandlersOk, WorkersOk, BindingsThere, Alone, Apply, AfterWrite, Commit, WriteStep, Intent, Holds,
      Preparing, ClaimsOk, OpenIsClaimed, ClaimFrame, PreparerOk;
    var h := s.handlers[id];
    var s' := WriteStep(cfg, s, id, h, w, input, fault);
    CommittedViews(cfg, s, h.tx, w, fault);
    WriteStepIs(cfg, s, id, h, w, input, fault);
    NextPreparer(cfg, s, h, w, input, fault);
    NotPreparing(s'.db, AfterWrite(cfg, s.db, h, w, input, fault));
    NextStays(cfg, s.db, h, w, input, fault);
    if h.late {
      LateIsDone(cfg, s, id, input);
      FailedKeepsClaims(cfg, s.db, h.tx);
    }
    if !fault.NotApplied? {
      if w.StartAttempt? && h.tx.owner !in s.stripped {
        AttemptHolds(cfg, s, h, input);
      }
      WriteClaims(cfg, s.db, h.tx, w, s.stripped);
    }
    OtherPreparers(s, s', id, h.tx);
  }

  lemma NotPreparing(db: Db, next: Option<Handler>)
    ensures next.Some? && !Preparing(next.value) ==> PreparerOk(db, next.value)
  {
  }

  lemma NextStays(cfg: Config, db: Db, h: Handler, w: Write, input: Input, fault: Fault)
    requires Intent(cfg, h, input) == Some(w)
    ensures var next := AfterWrite(cfg, db, h, w, input, fault); next.Some? ==> next.value.tx == h.tx
  {
    hide Apply, Resume, Fail, Intent;
    ResumeStays(cfg, h, Apply(cfg, db, h.tx, w).1, input);
    FailStays(cfg, h);
  }

  lemma LateIsDone(cfg: Config, s: State, id: nat, input: Input)
    requires HandlersOk(cfg, s) && id in s.handlers && s.handlers[id].late
    ensures Intent(cfg, s.handlers[id], input) == Some(Complete(Failed))
  {
    hide Fit;
    assert HandlerWell(cfg, s, s.handlers[id]);
    LateWrites(cfg, s.handlers[id], input);
  }

  lemma SenseStepClaims(cfg: Config, s: State, id: nat, input: Input)
    requires id in s.handlers
    ensures ClaimInv(s) ==> ClaimInv(SenseStep(cfg, s, id, s.handlers[id], input))
    ensures UnderwayInv(s) ==> UnderwayInv(SenseStep(cfg, s, id, s.handlers[id], input))
  {
    hide Sense, ClaimsOk, OpenIsClaimed, Holds, Underway, Preparing;
    var h := s.handlers[id];
    SenseGoesOn(cfg, s.db, TraceOf(s, h.tx), h, input);
    if PreparersOk(s) && h.tx.owner !in s.stripped {
      assert PreparerOk(s.db, h);
    }
  }

  lemma StepClaims(cfg: Config, s: State, id: nat, input: Input, fault: Fault)
    requires Inv(cfg, s) && ClaimInv(s)
    ensures ClaimInv(HandlerStep(cfg, s, id, input, fault))
  {
    hide Inv, ClaimInv, WriteStep, SenseStep, Intent;
    if id in s.handlers {
      var intent := Intent(cfg, s.handlers[id], input);
      if intent.None? {
        SenseStepClaims(cfg, s, id, input);
      } else {
        WriteStepClaims(cfg, s, id, intent.value, input, fault);
      }
    }
  }

  // ---- workers, arrivals and restarts ---------------------------------------------------------------------

  /** Writes for t by someone else leave every preparing handler its claim, if none is at work on t. */
  lemma UnownedPreparers(s: State, db: Db, t: TxId)
    requires PreparersOk(s) && ClaimFrame(s.db, db, t) && !Owned(s, t)
    ensures forall i :: i in s.handlers && s.handlers[i].tx.owner !in s.stripped ==> PreparerOk(db, s.handlers[i])
  {
    hide Holds, Underway;
    forall i | i in s.handlers && s.handlers[i].tx.owner !in s.stripped
      ensures PreparerOk(db, s.handlers[i])
    {
      assert PreparerOk(s.db, s.handlers[i]);
    }
  }

  lemma RecoverClaims(cfg: Config, s: State, t: TxId, accepted: bool, fault: Fault)
    requires Inv(cfg, s) && ClaimInv(s)
    ensures ClaimInv(RecoverStep(cfg, s, t, accepted, fault))
  {
    hide TxsOk, HandlersOk, BindingsThere, Alone, Apply, Commit, Holds, Underway, ClaimsOk, OpenIsClaimed,
        ClaimFrame, PreparerOk, Owned;
    if s.up && t in s.stale {
      CommittedViews(cfg, s.(stale := s.stale - {t}), t, RecordOutcome(accepted), fault);
      WriteClaims(cfg, s.db, t, RecordOutcome(accepted), s.stripped);
      UnownedPreparers(s, Apply(cfg, s.db, t, RecordOutcome(accepted)).0, t);
    }
  }

  /** What finality and expiry do to the tables. */
  lemma ConcludeFrame(db: Db, t: TxId, state: RequestState, lost: set<Address>)
    requires ClaimsOk(db) && OpenIsClaimed(db, lost)
    ensures var after := G.DropClaimOf(G.SetRequestState(db, t, state), t);
      ClaimFrame(db, after, t) && ClaimsOk(after) && OpenIsClaimed(after, lost)
  {
    hide Holds, Underway, ClaimsOk, OpenIsClaimed, ClaimFrame, G.DropClaimOf, G.SetRequestState;
    var told := G.SetRequestState(db, t, state);
    StateOnly(db, t, state);
    RequestOnlyFrame(db, told, t, lost);
    DropFrame(told, t);
    DropKeepsOpen(told, t, lost);
    FramesCompose(db, told, G.DropClaimOf(told, t), t);
  }

  lemma ConcludeClaims(cfg: Config, s: State, t: TxId, state: RequestState, fault: Fault)
    requires Inv(cfg, s) && ClaimInv(s)
    ensures ClaimInv(ConcludeStep(s, t, G.DropClaimOf(G.SetRequestState(s.db, t, state), t), fault))
  {
    hide TxsOk, HandlersOk, BindingsThere, Alone, Holds, Underway, ClaimsOk, OpenIsClaimed, ClaimFrame, PreparerOk,
        Owned,
      G.DropClaimOf, G.SetRequestState;
    if s.up && t in s.awaiting {
      ConcludeFrame(s.db, t, state, s.stripped);
      UnownedPreparers(s, G.DropClaimOf(G.SetRequestState(s.db, t, state), t), t);
    }
  }

  lemma FramesCompose(a: Db, b: Db, c: Db, t: TxId)
    requires ClaimFrame(a, b, t) && ClaimFrame(b, c, t)
    ensures ClaimFrame(a, c, t)
  {
    hide Holds, Underway, OrderIsOpen;
  }

  /** The clean-up reaches no claim of an open order, and what else it takes from a handler it is charged with. */
  lemma SweepClaimsOk(s: State)
    requires ClaimInv(s) && s.up
    ensures ClaimInv(SweepStep(s))
  {
    var after := G.ReleaseTerminalAddressClaims(s.db);
    var s' := SweepStep(s);
    OpenStays(s.db, after, s.stripped);
    WidenLost(after, s.stripped, Losses(s, after));
    forall i | i in s.handlers && s.handlers[i].tx.owner !in s'.stripped
      ensures PreparerOk(after, s.handlers[i])
    {
      var h := s.handlers[i];
      assert PreparerOk(s.db, h);
      if Preparing(h) && !h.pc.Claiming? {
        KeptOrLost(s, after, i);
      }
    }
  }

  lemma SweepNeedsUp(s: State)
    requires !s.up
    ensures SweepStep(s) == s
  {
  }

  lemma KeptOrLost(s: State, after: Db, i: nat)
    requires i in s.handlers && Preparing(s.handlers[i]) && Holds(s.db, s.handlers[i].tx)
    ensures Holds(after, s.handlers[i].tx) || s.handlers[i].tx.owner in Losses(s, after)
  {
  }

  /** A step that reaches neither claims nor orders, and keeps every request. */
  lemma QuietClaims(s: State, s': State)
    requires s'.db.claims == s.db.claims && s'.stripped == s.stripped && s'.clobbered == s.clobbered
    requires forall t :: OrderIsOpen(s'.db, t) ==> OrderIsOpen(s.db, t)
    requires forall t :: t in s.db.requests ==> t in s'.db.requests && s'.db.requests[t] == s.db.requests[t]
    requires forall i :: i in s'.handlers ==> i in s.handlers && s'.handlers[i] == s.handlers[i]
    ensures ClaimInv(s) ==> ClaimInv(s')
    ensures UnderwayInv(s) ==> UnderwayInv(s')
  {
    hide Preparing;
    forall i | i in s'.handlers && PreparersOk(s) && s'.handlers[i].tx.owner !in s'.stripped
      ensures PreparerOk(s'.db, s'.handlers[i])
    {
      assert PreparerOk(s.db, s.handlers[i]);
    }
  }

  lemma ArriveClaims(cfg: Config, s: State, e: Event)
    requires e.Arrive?
    ensures var s' := ArriveStep(cfg, s, e.id, e.tx, e.wellFormed, e.permitted, e.now, e.fault);
      (ClaimInv(s) ==> ClaimInv(s')) && (UnderwayInv(s) ==> UnderwayInv(s'))
  {
    hide ClaimInv, UnderwayInv, Guarded, Usable, Sponsorable, NewHandler, G.BeginRequest;
    QuietClaims(s, s.(relayed := s.relayed + [e.tx]));
    if e.tx !in s.db.requests && e.id !in s.handlers {
      BegunClaims(s, e.id, e.tx);
    }
  }

  lemma BegunClaims(s: State, id: nat, t: TxId)
    requires t !in s.db.requests && id !in s.handlers
    ensures var begun := s.(db := G.BeginRequest(s.db, t));
      (ClaimInv(s) ==> ClaimInv(begun)) && (UnderwayInv(s) ==> UnderwayInv(begun))
    ensures var placed := Place(s.(db := G.BeginRequest(s.db, t)), id, Some(NewHandler(t)));
      (ClaimInv(s) ==> ClaimInv(placed)) && (UnderwayInv(s) ==> UnderwayInv(placed))
  {
    var begun := s.(db := G.BeginRequest(s.db, t));
    QuietClaims(s, begun);
  }

  lemma SettingsClaims(cfg: Config, s: State, e: Event)
    requires e.ListStale? || e.ListAwaiting? || e.PutBinding? || e.ResetBinding? || e.PutProvider? || e.MoveLease?
    ensures (ClaimInv(s) ==> ClaimInv(Next(cfg, s, e))) && (UnderwayInv(s) ==> UnderwayInv(Next(cfg, s, e)))
  {
    hide ClaimInv, UnderwayInv, OrderIsOpen, ListStaleStep, ListAwaitingStep, PutBindingStep, ResetBindingStep,
      PutProviderStep, MoveLeaseStep, HandlerStep, ArriveStep, SweepStep, ConcludeStep, RecoverStep;
    SettingsKeepTables(cfg, s, e);
    SameTablesOpen(s.db, Next(cfg, s, e).db);
    QuietClaims(s, Next(cfg, s, e));
  }

  lemma SameTablesOpen(before: Db, after: Db)
    requires after.orders == before.orders
    ensures forall t :: OrderIsOpen(after, t) == OrderIsOpen(before, t)
  {
  }

  ghost predicate SameTables(s: State, s': State) {
    && s'.db.claims == s.db.claims && s'.db.orders == s.db.orders && s'.db.requests == s.db.requests
    && s'.handlers == s.handlers && s'.stripped == s.stripped && s'.clobbered == s.clobbered
  }

  lemma SettingsKeepTables(cfg: Config, s: State, e: Event)
    ensures e.ListStale? ==> SameTables(s, ListStaleStep(s, e.found))
    ensures e.ListAwaiting? ==> SameTables(s, ListAwaitingStep(s, e.found))
    ensures e.PutBinding? ==> SameTables(s, PutBindingStep(s, e.address, e.max, e.expiresAt, e.enabled))
    ensures e.ResetBinding? ==> SameTables(s, ResetBindingStep(cfg, s, e.address, e.max))
    ensures e.PutProvider? ==> SameTables(s, PutProviderStep(s, e.provider, e.row))
    ensures e.MoveLease? ==> SameTables(s, MoveLeaseStep(cfg, s, e.tx, e.leased))
  {
    hide Owned, Stale, Raise, G.HasOpenPaidProviderActivity;
  }

  lemma CrashClaims(s: State)
    ensures var s' := CrashStep(s); (ClaimInv(s) ==> ClaimInv(s')) && (UnderwayInv(s) ==> UnderwayInv(s'))
  {
    hide ClaimInv, UnderwayInv;
    QuietClaims(s, CrashStep(s));
  }

  lemma RecoveryOpensNothing(db: Db, t: TxId)
    ensures OrderIsOpen(P.RecoverInterruptedOrders(db), t) ==> OrderIsOpen(db, t)
  {
  }

  lemma StartClaims(s: State, fault: Fault)
    ensures var s' := StartStep(s, fault); (ClaimInv(s) ==> ClaimInv(s')) && (UnderwayInv(s) ==> UnderwayInv(s'))
  {
    hide ClaimInv, UnderwayInv, OrderIsOpen;
    forall t
      ensures OrderIsOpen(StartStep(s, fault).db, t) ==> OrderIsOpen(s.db, t)
    {
      RecoveryOpensNothing(s.db, t);
    }
    QuietClaims(s, StartStep(s, fault));
  }

  lemma ClaimNext(cfg: Config, s: State, e: Event)
    requires Inv(cfg, s) && ClaimInv(s)
    ensures ClaimInv(Next(cfg, s, e))
  {
    hide Inv, ClaimInv, UnderwayInv, HandlerStep, ArriveStep, SweepStep, ListStaleStep, ListAwaitingStep, ConcludeStep,
        PutBindingStep, ResetBindingStep, PutProviderStep, MoveLeaseStep, StartStep, CrashStep, RecoverStep,
        G.DropClaimOf, G.SetRequestState, Waits;
    match e
    case Arrive(_, _, _, _, _, _) => ArriveClaims(cfg, s, e);
    case Step(id, input, fault) => StepClaims(cfg, s, id, input, fault);
    case SweepClaims =>
      if s.up {
        SweepClaimsOk(s);
      } else {
        assert SweepStep(s) == s by { SweepNeedsUp(s); }
      }
    case Recover(t, accepted, fault) => RecoverClaims(cfg, s, t, accepted, fault);
    case Finalize(t, success, fault) =>
      ConcludeClaims(cfg, s, t, if success then SolidifiedSuccess else SolidifiedFailed, fault);
    case Expire(t, fault) => ConcludeClaims(cfg, s, t, Expired, fault);
    case Crash => CrashClaims(s);
    case Start(fault) => StartClaims(s, fault);
    case _ => SettingsClaims(cfg, s, e);
  }

  /** Outside the addresses the clean-up has stripped, claims, orders and preparing handlers agree after every run. */
  lemma {:induction false} RunClaims(cfg: Config, events: seq<Event>)
    ensures ClaimInv(Run(cfg, events))
  {
    if events != [] {
      hide Inv, Next, ClaimInv;
      var before, e := events[..|events| - 1], events[|events| - 1];
      RunInv(cfg, before);
      RunClaims(cfg, before);
      ClaimNext(cfg, Run(cfg, before), e);
    }
  }

  /**
   * An address whose claim the clean-up never took from a handler still preparing has at most one order
   * that is being placed, accepted or unclear, and exactly that transaction holds the claim.
   */
  lemma OneOrderPerAddress(cfg: Config, s: State, t: TxId, u: TxId)
    requires Reachable(cfg, s) && t.owner !in s.stripped && OrderIsOpen(s.db, t)
    ensures Holds(s.db, t)
    ensures OrderIsOpen(s.db, u) && u.owner == t.owner ==> u == t
  {
    hide Run, ClaimsOk, PreparersOk;
    var events :| s == Run(cfg, events);
    RunClaims(cfg, events);
  }

  // ---- what it takes to lose a claim ------------------------------------------------------------------

  lemma WriteStepUnderway(cfg: Config, s: State, id: nat, w: Write, input: Input, fault: Fault)
    requires Inv(cfg, s) && ClaimInv(s) && UnderwayInv(s)
    requires id in s.handlers && Intent(cfg, s.handlers[id], input) == Some(w)
    ensures UnderwayInv(WriteStep(cfg, s, id, s.handlers[id], w, input, fault))
  {
    hide TxsOk, HandlersOk, WorkersOk, BindingsThere, Apply, AfterWrite, Commit, Intent, Holds, Underway,
      Preparing, PreparersOk, PreparerOk, ClaimsOk, OpenIsClaimed;
    var h := s.handlers[id];
    var s' := WriteStep(cfg, s, id, h, w, input, fault);
    CommittedViews(cfg, s, h.tx, w, fault);
    WriteStepIs(cfg, s, id, h, w, input, fault);
    NextPreparer(cfg, s, h, w, input, fault);
    NextStays(cfg, s.db, h, w, input, fault);
    WriteClaims(cfg, s.db, h.tx, w, s.stripped + {h.tx.owner}) by { WidenLost(s.db, s.stripped, {h.tx.owner}); }
    forall j | j in s'.handlers && Preparing(s'.handlers[j]) && s'.handlers[j].tx !in s'.clobbered
      ensures Underway(s'.db, s'.handlers[j].tx)
    {
      if j != id && s.handlers[j].tx == h.tx && !fault.NotApplied? {
        PreparingIsLive(s.handlers[j]);
        assert UnderPreparation(s, h.tx);
        assert h.late;
      }
    }
  }

  lemma PreparingIsLive(h: Handler)
    requires Preparing(h)
    ensures !h.late
  {
  }

  lemma WidenLost(db: Db, lost: set<Address>, more: set<Address>)
    requires OpenIsClaimed(db, lost)
    ensures OpenIsClaimed(db, lost + more)
  {
  }

  lemma StepUnderway(cfg: Config, s: State, id: nat, input: Input, fault: Fault)
    requires Inv(cfg, s) && ClaimInv(s) && UnderwayInv(s)
    ensures UnderwayInv(HandlerStep(cfg, s, id, input, fault))
  {
    hide Inv, ClaimInv, UnderwayInv, WriteStep, SenseStep, Intent;
    if id in s.handlers {
      var intent := Intent(cfg, s.handlers[id], input);
      if intent.None? {
        SenseStepClaims(cfg, s, id, input);
      } else {
        WriteStepUnderway(cfg, s, id, intent.value, input, fault);
      }
    }
  }

  /** A worker's write for t, on which no handler is at work. */
  lemma UnownedUnderway(s: State, s': State, t: TxId)
    requires UnderwayInv(s) && ClaimFrame(s.db, s'.db, t) && !Owned(s, t)
    requires s'.handlers == s.handlers && s'.clobbered == s.clobbered
    ensures UnderwayInv(s')
  {
    hide Holds, Underway, OrderIsOpen;
  }

  lemma RecoverUnderway(cfg: Config, s: State, t: TxId, accepted: bool, fault: Fault)
    requires Inv(cfg, s) && ClaimInv(s) && UnderwayInv(s)
    ensures UnderwayInv(RecoverStep(cfg, s, t, accepted, fault))
  {
    hide TxsOk, HandlersOk, BindingsThere, Alone, Apply, Commit, ClaimsOk, OpenIsClaimed, ClaimFrame, PreparersOk,
        Owned, UnderwayInv;
    if s.up && t in s.stale {
      var left := s.(stale := s.stale - {t});
      CommittedViews(cfg, left, t, RecordOutcome(accepted), fault);
      CommitRecords(cfg, left, t, RecordOutcome(accepted), fault);
      WriteClaims(cfg, s.db, t, RecordOutcome(accepted), s.stripped);
      SameFrame(s.db, t);
      UnownedUnderway(s, RecoverStep(cfg, s, t, accepted, fault), t);
    }
  }

  lemma SameFrame(db: Db, t: TxId)
    ensures ClaimFrame(db, db, t)
  {
  }

  lemma ConcludeUnderway(cfg: Config, s: State, t: TxId, state: RequestState, fault: Fault)
    requires Inv(cfg, s) && ClaimInv(s) && UnderwayInv(s)
    ensures UnderwayInv(ConcludeStep(s, t, G.DropClaimOf(G.SetRequestState(s.db, t, state), t), fault))
  {
    hide TxsOk, HandlersOk, BindingsThere, Alone, ClaimsOk, OpenIsClaimed, ClaimFrame, PreparersOk, Owned, UnderwayInv,
      G.DropClaimOf, G.SetRequestState;
    if s.up && t in s.awaiting {
      ConcludeFrame(s.db, t, state, s.stripped);
      SameFrame(s.db, t);
      UnownedUnderway(s, ConcludeStep(s, t, G.DropClaimOf(G.SetRequestState(s.db, t, state), t), fault), t);
    }
  }

  lemma UnderwayNext(cfg: Config, s: State, e: Event)
    requires Inv(cfg, s) && ClaimInv(s) && UnderwayInv(s)
    ensures UnderwayInv(Next(cfg, s, e))
  {
    hide Inv, ClaimInv, UnderwayInv, HandlerStep, ArriveStep, ListStaleStep, ListAwaitingStep, ConcludeStep,
        PutBindingStep, ResetBindingStep, PutProviderStep, MoveLeaseStep, StartStep, CrashStep, RecoverStep,
        G.DropClaimOf, G.SetRequestState, Waits;
    match e
    case Arrive(_, _, _, _, _, _) => ArriveClaims(cfg, s, e);
    case Step(id, input, fault) => StepUnderway(cfg, s, id, input, fault);
    case SweepClaims => SweepUnderway(s);
    case Recover(t, accepted, fault) => RecoverUnderway(cfg, s, t, accepted, fault);
    case Finalize(t, success, fault) =>
      ConcludeUnderway(cfg, s, t, if success then SolidifiedSuccess else SolidifiedFailed, fault);
    case Expire(t, fault) => ConcludeUnderway(cfg, s, t, Expired, fault);
    case Crash => CrashClaims(s);
    case Start(fault) => StartClaims(s, fault);
    case _ => SettingsClaims(cfg, s, e);
  }

  lemma SweepUnderway(s: State)
    requires UnderwayInv(s)
    ensures UnderwayInv(SweepStep(s))
  {
    hide Preparing, Holds;
  }

  lemma {:induction false} RunUnderway(cfg: Config, events: seq<Event>)
    ensures UnderwayInv(Run(cfg, events))
  {
    if events != [] {
      hide Inv, Next, ClaimInv, UnderwayInv;
      var before, e := events[..|events| - 1], events[|events| - 1];
      RunInv(cfg, before);
      RunClaims(cfg, before);
      RunUnderway(cfg, before);
      UnderwayNext(cfg, Run(cfg, before), e);
    }
  }

  ghost predicate StrippedIsClobbered(s: State) {
    forall a :: a in s.stripped ==> exists t :: t in s.clobbered && t.owner == a
  }

  lemma SweepStrips(s: State)
    requires UnderwayInv(s) && StrippedIsClobbered(s)
    ensures StrippedIsClobbered(SweepStep(s))
  {
    var after := G.ReleaseTerminalAddressClaims(s.db);
    forall a | a in Losses(s, after)
      ensures exists t :: t in s.clobbered && t.owner == a
    {
      var i :| i in s.handlers && Preparing(s.handlers[i]) && Holds(s.db, s.handlers[i].tx)
        && !Holds(after, s.handlers[i].tx) && s.handlers[i].tx.owner == a;
      assert !Underway(s.db, s.handlers[i].tx);
      assert s.handlers[i].tx in s.clobbered;
    }
  }

  lemma OthersStripNothing(cfg: Config, s: State, e: Event)
    requires !e.SweepClaims?
    ensures Next(cfg, s, e).stripped == s.stripped && s.clobbered <= Next(cfg, s, e).clobbered
  {
    if e.Step? {
      hide Commit, Sense, AfterWrite, Intent, UnderPreparation, Waits;
    } else if e.Recover? {
      hide Commit;
      CommitRecords(cfg, s.(stale := s.stale - {e.tx}), e.tx, RecordOutcome(e.accepted), e.fault);
    } else {
      hide Next;
      OthersRecordNothing(cfg, s, e);
    }
  }

  lemma {:induction false} RunStrips(cfg: Config, events: seq<Event>)
    ensures StrippedIsClobbered(Run(cfg, events))
  {
    if events != [] {
      hide Next, UnderwayInv;
      var before, e := events[..|events| - 1], events[|events| - 1];
      RunStrips(cfg, before);
      RunUnderway(cfg, before);
      if e.SweepClaims? {
        SweepStrips(Run(cfg, before));
        assert Next(cfg, Run(cfg, before), e) == SweepStep(Run(cfg, before)) by { SweepIs(cfg, Run(cfg, before)); }
      } else {
        OthersStripNothing(cfg, Run(cfg, before), e);
      }
    }
  }

  lemma SweepIs(cfg: Config, s: State)
    ensures Next(cfg, s, SweepClaims) == SweepStep(s)
  {
  }

  /** A claim is only ever lost at an address with a transaction that a late handler wrote to while it was prepared. */
  lemma OnlyLateWritesStrip(cfg: Config, s: State, a: Address)
    requires Reachable(cfg, s) && a in s.stripped
    ensures exists t :: t in s.clobbered && t.owner == a
  {
    hide Run;
    var events :| s == Run(cfg, events);
    RunStrips(cfg, events);
  }
}
