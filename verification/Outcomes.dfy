/** What was answered is what is recorded: by upstream, by a provider, by the owner's account, and after a restart. */
module Outcomes {
  import opened Options
  import opened Schema
  import opened EnergyPackages
  import opened Gateway
  import opened TxInvariant
  import opened WriteLemmas
  import opened StepLemmas
  import opened Invariant
  import opened Safety
  import opened Claims
  import opened Prepare
  import opened Refunds
  import opened Conduct
  import opened Records
  import G = GatewayRepository
  import P = ProviderRepository
  import ResourceMath

  // ---- one write of a live handler -----------------------------------------------------------------

  /** What a write of a live handler comes to. */
  lemma WriteTurn(cfg: Config, s: State, id: nat, w: Write, input: Input, fault: Fault)
    requires s.up && id in s.handlers && !s.handlers[id].late && Intent(cfg, s.handlers[id], input) == Some(w)
    ensures var s', t := Next(cfg, s, Step(id, input, fault)), s.handlers[id].tx;
      && s'.db == (if fault.NotApplied? then s.db else Apply(cfg, s.db, t, w).0)
      && TraceOf(s', t) ==
           (if fault.NotApplied? then TraceOf(s, t) else Observe(TraceOf(s, t), s.db, s'.db, t, w))
      && s'.handlers == Place(s, id, AfterWrite(cfg, s.db, s.handlers[id], w, input, fault)).handlers
      && OnlyTx(s, s', t)
  {
    hide Next, Intent, Apply, AfterWrite, Commit, WriteStep, Waits, Observe, RowsOf;
    var t := s.handlers[id].tx;
    var s' := Next(cfg, s, Step(id, input, fault));
    var c := Commit(cfg, s, t, w, fault);
    WriterIsIn(cfg, s, id, input);
    StepIs(cfg, s, id, input, fault);
    CommittedViews(cfg, s, t, w, fault);
    WriteStepIs(cfg, s, id, s.handlers[id], w, input, fault);
    Records.SameViews(s', c);
    ViewParts(c, t);
    ViewParts(s, t);
    ViewParts(s', t);
  }

  lemma WriterIsIn(cfg: Config, s: State, id: nat, input: Input)
    requires id in s.handlers && Intent(cfg, s.handlers[id], input).Some?
    ensures !Waits(s, id)
  {
  }

  lemma LiveRecord(cfg: Config, s: State, id: nat)
    requires Reachable(cfg, s) && id in s.handlers && !s.handlers[id].late
    ensures var h, v := s.handlers[id], TxView(s, s.handlers[id].tx);
      && TxOk(cfg, h.tx, v) && HandlerOk(cfg, v, h) && KnowsOrder(v.order, h)
      && Conducts(cfg, Hit(s, h.tx), v, h) && Accounts(cfg, Hit(s, h.tx), v)
      && v.trace == TraceOf(s, h.tx) && v.order == OrderIn(s.db, h.tx) && v.request == RequestIn(s.db, h.tx)
      && h.tx in s.db.requests && (Flagged(s.db, h.tx) ==> h.tx.owner in s.db.bindings)
  {
    hide Reachable, TxsOk, HandlersOk, WorkersOk, Alone, PrepareInv, RecordInv, TxOk, HandlerOk, Conducts, Accounts,
      TxView, KnowsOrder;
    RecordsHold(cfg, s);
    LiveFacts(cfg, s, id);
    ViewParts(s, s.handlers[id].tx);
    BindingOf(s.db, s.handlers[id].tx);
    RequestIsThere(cfg, TxView(s, s.handlers[id].tx), s.handlers[id]);
  }

  lemma RequestIsThere(cfg: Config, v: View, h: Handler)
    requires HandlerOk(cfg, v, h)
    ensures v.request.Some?
  {
    hide PhaseOk;
  }

  // ---- the broadcast ---------------------------------------------------------------------------------

  /** What recording an outcome does to the tables: the answer, the unit and the claim. */
  lemma OutcomeRecorded(cfg: Config, db: Db, t: TxId, yes: bool)
    requires t in db.requests && (Flagged(db, t) ==> t.owner in db.bindings)
    ensures var after, used := Apply(cfg, db, t, RecordOutcome(yes)).0, yes || G.ProviderBillable(db, t);
      && t in after.requests
      && after.requests[t] == Request(if yes then UpstreamAccepted else UpstreamRejected, false, Some(yes))
      && UsedOf(after, t.owner) == UsedOf(db, t.owner) + (if Flagged(db, t) && used then 1 else 0)
      && (Holds(after, t) <==> Holds(db, t) && (yes || OrderIsOpen(db, t) || t in db.openLeases))
      && (forall a :: a in after.claims ==> a in db.claims && after.claims[a] == db.claims[a])
      && (forall a :: a in db.claims && db.claims[a] != t ==> a in after.claims)
      && after.orders == db.orders && after.ledger == db.ledger
  {
    hide G.MoveQuota;
    var settled := G.MoveQuota(db, t.owner, t, yes || G.ProviderBillable(db, t));
    RecordOutcomeEffect(db, t, yes);
    MoveQuotaOnly(db, t, yes || G.ProviderBillable(db, t));
    RequestWriteTouches(cfg, db, t, RecordOutcome(yes));
  }

  /**
   * A handler about to record an outcome has had exactly that decision from upstream. Once its write is carried
   * out the request reads as accepted if and only if upstream accepted, with that answer cached; the unit it
   * held counts as used if and only if upstream accepted or the order may be billed, and is given back
   * otherwise; and its claim is kept if and only if upstream accepted, or an open order or lease keeps it.
   */
  lemma OutcomeIsUpstreams(cfg: Config, s: State, id: nat, input: Input, fault: Fault)
    requires Reachable(cfg, s) && s.up && id in s.handlers && !s.handlers[id].late && s.handlers[id].pc.Recording?
    ensures var s', t := Next(cfg, s, Step(id, input, fault)), s.handlers[id].tx;
      var sent := TraceOf(s, t).forwards;
      && sent != [] && sent[|sent| - 1].reply.Decided?
      && (!fault.NotApplied? ==>
            var yes := sent[|sent| - 1].reply.accepted;
            var used := yes || (t in s.db.orders && Billable(s.db.orders[t].state));
            && t in s'.db.requests
            && s'.db.requests[t] == Request(if yes then UpstreamAccepted else UpstreamRejected, false, Some(yes))
            && TraceOf(s', t).consumed == TraceOf(s, t).consumed + (if Flagged(s.db, t) && used then 1 else 0)
            && TraceOf(s', t).released == TraceOf(s, t).released + (if Flagged(s.db, t) && !used then 1 else 0)
            && UsedOf(s'.db, t.owner) == UsedOf(s.db, t.owner) + (if Flagged(s.db, t) && used then 1 else 0)
            && (Holds(s'.db, t) <==> Holds(s.db, t) && (yes || OrderIsOpen(s.db, t) || t in s.db.openLeases)))
  {
    hide Reachable, Next, TxOk, HandlerOk, KnowsOrder, Accounts, AnswerKnown, FlagsFit, FailureFits, NeedFits,
      ProgressFits, Apply, AfterWrite, TxView, OnlyTx, OrderIsOpen, Holds;
    var h := s.handlers[id];
    var w := RecordOutcome(h.pc.accepted);
    LiveRecord(cfg, s, id);
    WriteTurn(cfg, s, id, w, input, fault);
    OutcomeRecorded(cfg, s.db, h.tx, h.pc.accepted);
  }

  lemma RowTrue(cfg: Config, s: State, t: TxId)
    requires Reachable(cfg, s)
    ensures Deserved(cfg, TxView(s, t)) && Counted(TxView(s, t)) && Awaited(cfg, t in s.overwritten, TxView(s, t))
    ensures TxView(s, t).trace == TraceOf(s, t) && TxView(s, t).order == OrderIn(s.db, t)
    ensures TxView(s, t).request == RequestIn(s.db, t)
  {
    hide Reachable, Inv, PrepareInv, HandlersTrue, Deserved, Counted, Awaited, TxView;
    RecordsHold(cfg, s);
    ViewParts(s, t);
    assert Accounts(cfg, Hit(s, t), TxView(s, t));
  }

  /** A request reads as accepted or concluded only after a recorded acceptance, as rejected only after a rejection. */
  lemma StatesAreEarned(cfg: Config, s: State, t: TxId)
    requires Reachable(cfg, s) && t in s.db.requests
    ensures var state := s.db.requests[t].state;
      && (state.UpstreamAccepted? || state.SolidifiedSuccess? || state.SolidifiedFailed? || state.Expired? ==>
            TraceOf(s, t).accepted > 0)
      && (state.UpstreamRejected? ==> TraceOf(s, t).accepted < TraceOf(s, t).outcomes)
  {
    hide Reachable, TxView;
    RowTrue(cfg, s, t);
  }

  // ---- the order --------------------------------------------------------------------------------------

  /**
   * An order reads ACCEPTED or FULFILLED only if its provider answered the last call with yes, and FULFILLED, with
   * owner burn disabled, only if a reading taken after that call reached the requirement.
   */
  lemma OrderIsDeserved(cfg: Config, s: State, t: TxId)
    requires Reachable(cfg, s) && t in s.db.orders
    ensures var (order, trace) := (s.db.orders[t], TraceOf(s, t));
      && (order.state.Accepted? || order.state.Fulfilled? ==>
            && trace.calls != [] && trace.calls[|trace.calls| - 1].answer.SaidYes?
            && order.provider == Some(trace.calls[|trace.calls| - 1].provider))
      && (order.state.Fulfilled? && !cfg.ownerEnergyBurn ==>
            exists k :: 0 <= k < |trace.arrivals| && trace.arrivals[k].made == |trace.calls|
              && trace.arrivals[k].required.Some? && trace.arrivals[k].reading >= trace.arrivals[k].required.value)
  {
    hide Reachable, TxView;
    RowTrue(cfg, s, t);
  }

  /** The requirement a handler works with is the safe one for the estimate, and its order is for a real shortfall. */
  lemma RequirementIsSafe(cfg: Config, s: State, id: nat)
    requires Reachable(cfg, s) && id in s.handlers && !s.handlers[id].late && PastEstimate(s.handlers[id].pc)
    ensures var h := s.handlers[id];
      && (h.need.Some? <==> cfg.sponsorEnergy && h.tx.contract.TriggerSmartContract?)
      && (h.need.Some? ==> forall k: nat :: k * 10_000 >= h.estimate * cfg.safetyBps <==> k >= h.need.value)
      && (Planned(h.pc) && !cfg.ownerEnergyBurn ==>
            && h.pc.plan.requested == h.estimate && h.pc.plan.shortfall.Some? && h.need.Some?
            && 0 < h.pc.plan.shortfall.value <= h.need.value)
  {
    hide Reachable, TxOk, HandlerOk, KnowsOrder, Accounts, AnswerKnown, FlagsFit, FailureFits, ProgressFits, TxView;
    LiveRecord(cfg, s, id);
    ResourceMath.SafeIsLeast(s.handlers[id].estimate, cfg.safetyBps);
  }

  /** Carried out, the outcome of an attempt is in the order and in its budget row. */
  lemma AttemptRecorded(cfg: Config, db: Db, t: TxId, p: ProviderId, outcome: OrderState)
    requires Placed(OrderIn(db, t), p) && P.ReservationOpen(db, t, p)
    ensures var after := Apply(cfg, db, t, FinishAttempt(p, outcome)).0;
      && t in after.orders && after.orders[t].state == outcome && after.orders[t].provider == Some(p)
      && (t, p) in after.ledger
      && after.ledger[(t, p)] == db.ledger[(t, p)].(state := if outcome.Rejected? then Released else Charged)
      && after.requests == db.requests
  {
  }

  /** How an order reads after an answer. */
  function OrderStateFor(answer: Answer): OrderState {
    match answer
    case SaidYes => Accepted
    case SaidNo => OrderState.Rejected
    case _ => Unknown
  }

  /** The write that records an answer. */
  lemma OutcomeIntent(cfg: Config, h: Handler, answer: Answer)
    requires h.pc.Calling? && !answer.InFlight?
    ensures Intent(cfg, h.(pc := AfterAnswer(h.pc.plan, h.pc.provider, h.pc.rest, answer)), NoInput) ==
      Some(FinishAttempt(h.pc.provider, OrderStateFor(answer)))
  {
  }

  lemma CallingFacts(cfg: Config, s: State, id: nat)
    requires Reachable(cfg, s) && id in s.handlers && !s.handlers[id].late && s.handlers[id].pc.Calling?
    ensures var h := s.handlers[id];
      && Placed(OrderIn(s.db, h.tx), h.pc.provider) && P.ReservationOpen(s.db, h.tx, h.pc.provider)
      && TraceOf(s, h.tx).calls != [] && !Waits(s, id)
  {
    hide Reachable, Inv, PrepareInv, RecordInv, TxOk, HandlerOk, FlagsFit, FailureFits, NeedFits, ProgressFits,
      Accounts, TxView, Waits;
    var h := s.handlers[id];
    LiveRecord(cfg, s, id);
    RecordsHold(cfg, s);
    RefusedIsReserved(cfg, s, h.tx, h.pc.provider);
    InsideWaitsNot(s, id);
  }

  /**
   * The answer to a call is what the order says once its write is carried out: yes makes it ACCEPTED and charges
   * its budget row, an explicit no makes it REJECTED and releases the row, and anything else makes it UNKNOWN
   * and charges the row.
   */
  lemma AnswerIsRecorded(cfg: Config, s: State, id: nat, answer: Answer, fault: Fault)
    requires Reachable(cfg, s) && s.up && id in s.handlers && !s.handlers[id].late && s.handlers[id].pc.Calling?
    requires !answer.InFlight? && !fault.NotApplied?
    ensures var s1 := Next(cfg, s, Step(id, Answered(answer), Acked));
      var s2, t, p := Next(cfg, s1, Step(id, NoInput, fault)), s.handlers[id].tx, s.handlers[id].pc.provider;
      && TraceOf(s2, t).calls != [] && TraceOf(s2, t).calls[|TraceOf(s2, t).calls| - 1].answer == answer
      && t in s2.db.orders && s2.db.orders[t].provider == Some(p)
      && s2.db.orders[t].state == OrderStateFor(answer)
      && (t, p) in s2.db.ledger
      && s2.db.ledger[(t, p)].state == (if answer.SaidNo? then Released else Charged)
  {
    hide Reachable, Next, Apply, AfterWrite, Placed, P.ReservationOpen, Waits, OnlyTx, Intent;
    var h := s.handlers[id];
    var t, p := h.tx, h.pc.provider;
    CallingFacts(cfg, s, id);
    var trace := TraceOf(s, t);
    var last := |trace.calls| - 1;
    var told := trace.(calls := trace.calls[last := trace.calls[last].(answer := answer)]);
    var h' := h.(pc := AfterAnswer(h.pc.plan, p, h.pc.rest, answer));
    AnswerSensed(cfg, s.db, trace, h, answer);
    SenseTurn(cfg, s, id, Answered(answer), told, h');
    var s1 := Next(cfg, s, Step(id, Answered(answer), Acked));
    OutcomeIntent(cfg, h, answer);
    WriteTurn(cfg, s1, id, FinishAttempt(p, OrderStateFor(answer)), NoInput, fault);
    AttemptRecorded(cfg, s.db, t, p, OrderStateFor(answer));
  }

  lemma AnswerSensed(cfg: Config, db: Db, trace: Trace, h: Handler, answer: Answer)
    requires h.pc.Calling? && trace.calls != [] && !answer.InFlight?
    ensures Intent(cfg, h, Answered(answer)).None?
    ensures var last := |trace.calls| - 1;
      Sense(cfg, db, trace, h, Answered(answer)) == Moved(
        trace.(calls := trace.calls[last := trace.calls[last].(answer := answer)]),
        Some(h.(pc := AfterAnswer(h.pc.plan, h.pc.provider, h.pc.rest, answer))))
  {
  }

  /** What a reading of a live handler comes to. */
  lemma SenseTurn(cfg: Config, s: State, id: nat, input: Input, trace: Trace, h': Handler)
    requires s.up && id in s.handlers && !Waits(s, id) && Intent(cfg, s.handlers[id], input).None?
    requires Sense(cfg, s.db, TraceOf(s, s.handlers[id].tx), s.handlers[id], input) == Moved(trace, Some(h'))
    ensures var s' := Next(cfg, s, Step(id, input, Acked));
      && s'.up && s'.db == s.db && TraceOf(s', s.handlers[id].tx) == trace && s'.handlers == s.handlers[id := h']
  {
    hide Next, Intent, Sense, Waits;
    StepIs(cfg, s, id, input, Acked);
    SenseStepIs(cfg, s, id, s.handlers[id], input);
  }

  // ---- the delivery -----------------------------------------------------------------------------------------

  /**
   * A delivery poll is judged by the safe requirement, with owner burn disabled: a reading that reaches it, and
   * no other, ends the wait as a delivery; the deadline ends it as a failure. Every reading is kept.
   */
  lemma DeliveryIsJudged(cfg: Config, s: State, id: nat, input: Input)
    requires Reachable(cfg, s) && PaidMode(cfg) && s.up && id in s.handlers && !s.handlers[id].late
    requires s.handlers[id].pc.Confirming? && s.handlers[id].tx.contract.TriggerSmartContract?
    requires input.Reading? || input.TimedOut?
    ensures var s', h := Next(cfg, s, Step(id, input, Acked)), s.handlers[id];
      && s'.db == s.db && id in s'.handlers && s'.handlers[id].tx == h.tx && h.need.Some?
      && (s'.handlers[id].pc.Fulfilling? <==> input.Reading? && input.available >= h.need.value)
      && (s'.handlers[id].pc.TimingOut? <==> input.TimedOut?)
      && (s'.handlers[id].pc.Confirming? <==> input.Reading? && input.available < h.need.value)
      && (input.Reading? ==>
            TraceOf(s', h.tx).arrivals ==
              TraceOf(s, h.tx).arrivals + [Arrival(h.need, input.available, |TraceOf(s, h.tx).calls|)])
  {
    hide Reachable, Next, TxOk, HandlerOk, KnowsOrder, Accounts, AnswerKnown, FlagsFit, FailureFits, ProgressFits,
      TxView, Waits, Sense, Intent;
    var h, trace := s.handlers[id], TraceOf(s, s.handlers[id].tx);
    LiveRecord(cfg, s, id);
    InsideWaitsNot(s, id);
    ArrivalSensed(cfg, s.db, trace, h, input);
    var sensed := Sense(cfg, s.db, trace, h, input);
    SenseTurn(cfg, s, id, input, sensed.trace, sensed.next.value);
  }

  lemma ArrivalSensed(cfg: Config, db: Db, trace: Trace, h: Handler, input: Input)
    requires h.pc.Confirming? && h.need.Some? && !cfg.ownerEnergyBurn && (input.Reading? || input.TimedOut?)
    ensures Intent(cfg, h, input).None?
    ensures input.TimedOut? ==> Sense(cfg, db, trace, h, input) == Moved(trace, Some(h.(pc := TimingOut)))
    ensures input.Reading? ==> Sense(cfg, db, trace, h, input) == Moved(
      trace.(arrivals := trace.arrivals + [Arrival(h.need, input.available, |trace.calls|)]),
      Some(h.(reading := input.available,
        pc := if input.available >= h.need.value then Fulfilling else Confirming)))
  {
  }

  lemma ConfirmationRecorded(cfg: Config, db: Db, t: TxId, result: OrderState)
    requires t in db.orders && db.orders[t].state.Accepted?
    ensures var after := Apply(cfg, db, t, FinishConfirmation(result)).0;
      && t in after.orders && after.orders[t].state == result && after.orders[t].provider == db.orders[t].provider
      && after.orders[t].amount == db.orders[t].amount && after.orders[t].requested == db.orders[t].requested
      && after.ledger == db.ledger && after.requests == db.requests && after.claims == db.claims
  {
  }

  lemma ExpectedOrder(cfg: Config, s: State, id: nat)
    requires Reachable(cfg, s) && id in s.handlers && !s.handlers[id].late
    requires s.handlers[id].pc.Fulfilling? || s.handlers[id].pc.TimingOut?
    ensures var t := s.handlers[id].tx; t in s.db.orders && s.db.orders[t].state.Accepted?
    ensures PaidMode(cfg) ==> s.handlers[id].quota && !s.handlers[id].charged && !s.handlers[id].forwarded
    ensures s.handlers[id].need == Required(cfg, s.handlers[id].tx, s.handlers[id].estimate)
  {
    hide Reachable, TxOk, HandlerOk, KnowsOrder, Accounts, FailureFits, ProgressFits, TxView, Required;
    LiveRecord(cfg, s, id);
    NotChargedHere(cfg, TxView(s, s.handlers[id].tx), s.handlers[id]);
    InsideFlags(s.handlers[id].pc);
  }

  /**
   * Carried out, a delivery makes the accepted order FULFILLED and lets the transaction go on to its last check;
   * a wait that timed out makes it UNKNOWN, so that it goes on blocking its address, and ends without a broadcast.
   */
  lemma DeliveryIsRecorded(cfg: Config, s: State, id: nat, input: Input, fault: Fault)
    requires Reachable(cfg, s) && PaidMode(cfg) && s.up && id in s.handlers && !s.handlers[id].late
    requires s.handlers[id].pc.Fulfilling? || s.handlers[id].pc.TimingOut?
    ensures var s', h := Next(cfg, s, Step(id, input, fault)), s.handlers[id];
      var t := h.tx;
      && t in s.db.orders && s.db.orders[t].state.Accepted? && t in s'.db.orders
      && (!fault.NotApplied? ==>
            && s'.db.orders[t].state == (if h.pc.Fulfilling? then Fulfilled else Unknown)
            && s'.db.orders[t].provider == s.db.orders[t].provider && s'.db.orders[t].amount == s.db.orders[t].amount
            && (OrderIsOpen(s'.db, t) <==> h.pc.TimingOut?))
      && id in s'.handlers
      && (h.pc.Fulfilling? && h.need.Some? ==> s'.handlers[id].pc == Rechecking(true))
      && (h.pc.TimingOut? ==> s'.handlers[id].pc == CatchConsuming)
  {
    hide Reachable, Next, Apply, Resume, Fail, Catch, OnlyTx, Required;
    var h := s.handlers[id];
    var w := FinishConfirmation(if h.pc.Fulfilling? then Fulfilled else Unknown);
    ExpectedOrder(cfg, s, id);
    DeliveryIntent(cfg, h, input);
    WriteTurn(cfg, s, id, w, input, fault);
    ConfirmationRecorded(cfg, s.db, h.tx, w.result);
    DeliveryResumes(cfg, h, Apply(cfg, s.db, h.tx, w).1, input);
    PersistingFails(cfg, h);
    DeliveryEnds(cfg, h);
  }

  lemma DeliveryIntent(cfg: Config, h: Handler, input: Input)
    requires h.pc.Fulfilling? || h.pc.TimingOut?
    ensures Intent(cfg, h, input) == Some(FinishConfirmation(if h.pc.Fulfilling? then Fulfilled else Unknown))
  {
  }

  lemma DeliveryEnds(cfg: Config, h: Handler)
    requires PaidMode(cfg) && h.quota
    ensures h.need.Some? ==> AfterPrepare(cfg, h, true) == h.(pc := Rechecking(true))
    ensures Catch(cfg, h, Paid) == Some(h.(retain := true, pc := CatchConsuming))
  {
  }

  // ---- the catch block ----------------------------------------------------------------------------------------

  /** A transaction that may have been charged and has no outcome is left uncached where recovery looks for it. */
  lemma PaidIsLeftForRecovery(cfg: Config, s: State, t: TxId)
    requires Reachable(cfg, s) && PaidMode(cfg) && MayBeCharged(TraceOf(s, t).calls)
    requires TraceOf(s, t).outcomes == 0 && t !in s.overwritten
    ensures t in s.db.requests && Stale(s.db.requests[t]) && s.db.requests[t].response.None?
    ensures !s.db.requests[t].state.Failed?
  {
    hide Reachable, TxView, MayBeCharged;
    RowTrue(cfg, s, t);
  }

  /** Nothing of a transaction that may have been charged is given back or cached as a failure. */
  lemma NoPaidFailure(cfg: Config, s: State, id: nat)
    requires Reachable(cfg, s) && PaidMode(cfg) && id in s.handlers && !s.handlers[id].late
    requires s.handlers[id].pc.CatchReleasing? || s.handlers[id].pc.CatchDropping? || s.handlers[id].pc.CatchFailing?
    ensures !MayBeCharged(TraceOf(s, s.handlers[id].tx).calls)
  {
    hide Reachable, TxOk, HandlerOk, KnowsOrder, Accounts, AnswerKnown, NeedFits, ProgressFits, TxView, MayBeCharged;
    LiveRecord(cfg, s, id);
  }

  /**
   * The catch block of a transaction that may have been charged consumes the unit and then marks the request
   * ready, whatever becomes of its writes, and leaves it where recovery looks.
   */
  lemma PaidFailureEndsReady(cfg: Config, s: State, id: nat, input: Input, fault: Fault)
    requires Reachable(cfg, s) && PaidMode(cfg) && s.up && id in s.handlers && !s.handlers[id].late
    requires CatchPc(s.handlers[id].pc) && MayBeCharged(TraceOf(s, s.handlers[id].tx).calls)
    ensures var s', h := Next(cfg, s, Step(id, input, fault)), s.handlers[id];
      && (h.pc.CatchConsuming? || h.pc.CatchReadying?)
      && (h.pc.CatchConsuming? ==> id in s'.handlers && s'.handlers[id].pc.CatchReadying?)
      && (h.pc.CatchConsuming? && !fault.NotApplied? ==> !Flagged(s'.db, h.tx) && TraceOf(s', h.tx).released == 0)
      && (h.pc.CatchReadying? ==> id !in s'.handlers)
      && (h.pc.CatchReadying? && !fault.NotApplied? ==>
            h.tx in s'.db.requests && s'.db.requests[h.tx].state.ResourceReady?)
      && (TraceOf(s', h.tx).outcomes == 0 && h.tx !in s'.overwritten ==>
            h.tx in s'.db.requests && Stale(s'.db.requests[h.tx]) && s'.db.requests[h.tx].response.None?)
  {
    hide Reachable, Next, TxOk, HandlerOk, KnowsOrder, Accounts, AnswerKnown, NeedFits, ProgressFits, TxView,
      MayBeCharged, Apply, Resume, Fail, CatchRest, CatchUnclaim, CatchConclude, OnlyTx, Observe;
    var h := s.handlers[id];
    var s' := Next(cfg, s, Step(id, input, fault));
    LiveRecord(cfg, s, id);
    var w := if h.pc.CatchConsuming? then ConsumeUnit else SetState(ResourceReady);
    assert Intent(cfg, h, input) == Some(w);
    WriteTurn(cfg, s, id, w, input, fault);
    CatchResumes(cfg, h, Apply(cfg, s.db, h.tx, w).1, input);
    CatchingFails(cfg, h);
    NotChargedCaught(cfg, TxView(s, h.tx), h);
    PaidCatchLeads(cfg, h);
    NextReachable(cfg, s, Step(id, input, fault));
    CallsStay(s, s', h.tx, w, fault);
    PaidUnit(cfg, s', h.tx);
    ConsumedUnit(cfg, s.db, h.tx);
    ReadiedRequest(cfg, s.db, h.tx);
    if TraceOf(s', h.tx).outcomes == 0 && h.tx !in s'.overwritten {
      PaidIsLeftForRecovery(cfg, s', h.tx);
    }
  }

  lemma NotChargedCaught(cfg: Config, v: View, h: Handler)
    requires HandlerOk(cfg, v, h)
    ensures CatchPc(h.pc) ==> !h.charged && !h.forwarded
  {
    hide PhaseOk;
  }

  lemma PaidCatchLeads(cfg: Config, h: Handler)
    requires h.retain && !h.charged && !h.forwarded
    ensures CatchRest(cfg, h.(quota := false), Paid) == Some(h.(quota := false, pc := CatchReadying))
  {
  }

  lemma CallsStay(s: State, s': State, t: TxId, w: Write, fault: Fault)
    requires TraceOf(s', t) ==
      if fault.NotApplied? then TraceOf(s, t) else Observe(TraceOf(s, t), s.db, s'.db, t, w)
    ensures TraceOf(s', t).calls == TraceOf(s, t).calls
  {
  }

  lemma PaidUnit(cfg: Config, s: State, t: TxId)
    requires Reachable(cfg, s) && PaidMode(cfg)
    ensures MayBeCharged(TraceOf(s, t).calls) ==> TraceOf(s, t).released == 0
  {
    hide Reachable, MayBeCharged;
    if MayBeCharged(TraceOf(s, t).calls) {
      ChargedUnitIsNeverReleased(cfg, s, t);
    }
  }

  lemma ConsumedUnit(cfg: Config, db: Db, t: TxId)
    ensures !Flagged(Apply(cfg, db, t, ConsumeUnit).0, t) && !Flagged(Apply(cfg, db, t, ReleaseUnit).0, t)
  {
  }

  lemma ReadiedRequest(cfg: Config, db: Db, t: TxId)
    requires t in db.requests
    ensures var after := Apply(cfg, db, t, SetState(ResourceReady)).0;
      t in after.requests && after.requests[t] == db.requests[t].(state := ResourceReady)
  {
  }

  /** What the last writes of a failed handler come to. */
  lemma CleaningTurn(cfg: Config, s: State, id: nat, w: Write, input: Input, fault: Fault)
    requires Reachable(cfg, s) && s.up && id in s.handlers && !s.handlers[id].late
    requires Intent(cfg, s.handlers[id], input) == Some(w)
    requires s.handlers[id].pc.CatchReleasing? || s.handlers[id].pc.CatchDropping? || s.handlers[id].pc.CatchFailing?
    ensures var s', h := Next(cfg, s, Step(id, input, fault)), s.handlers[id];
      && s'.db == (if fault.NotApplied? then s.db else Apply(cfg, s.db, h.tx, w).0)
      && h.tx in s.db.requests
      && (h.pc.CatchReleasing? ==>
            id in s'.handlers && s'.handlers[id] == h.(pc := if h.claimed then CatchDropping else CatchFailing))
      && (h.pc.CatchDropping? ==>
            id in s'.handlers && s'.handlers[id] == h.(claimed := false, pc := CatchFailing))
      && (h.pc.CatchFailing? ==> !h.claimed && id !in s'.handlers)
  {
    hide Reachable, Next, TxOk, HandlerOk, KnowsOrder, Accounts, AnswerKnown, NeedFits, ProgressFits, FailureFits,
      TxView, Apply, Resume, Fail, Intent, CatchRest, CatchUnclaim, CatchConclude, OnlyTx, Observe;
    var h := s.handlers[id];
    LiveRecord(cfg, s, id);
    WriteTurn(cfg, s, id, w, input, fault);
    CatchResumes(cfg, h, Apply(cfg, s.db, h.tx, w).1, input);
    CatchingFails(cfg, h);
    CleaningLeads(h);
  }

  /** Any other failure is cleaned up, first by giving back the unit. */
  lemma UnitIsReturned(cfg: Config, s: State, id: nat, input: Input, fault: Fault)
    requires Reachable(cfg, s) && s.up && id in s.handlers && !s.handlers[id].late && s.handlers[id].pc.CatchReleasing?
    ensures var s', h := Next(cfg, s, Step(id, input, fault)), s.handlers[id];
      && (!fault.NotApplied? ==> !Flagged(s'.db, h.tx) && UsedOf(s'.db, h.tx.owner) == UsedOf(s.db, h.tx.owner))
      && id in s'.handlers && s'.handlers[id].pc == (if h.claimed then CatchDropping else CatchFailing)
  {
    hide Reachable, Next, Apply, Flagged;
    CleaningTurn(cfg, s, id, ReleaseUnit, input, fault);
    ReleasedUnit(cfg, s.db, s.handlers[id].tx);
  }

  /** Then by giving up the claim, unless an open order or a lease keeps it. */
  lemma ClaimIsGivenUp(cfg: Config, s: State, id: nat, input: Input, fault: Fault)
    requires Reachable(cfg, s) && s.up && id in s.handlers && !s.handlers[id].late && s.handlers[id].pc.CatchDropping?
    ensures var s', t := Next(cfg, s, Step(id, input, fault)), s.handlers[id].tx;
      && (!fault.NotApplied? ==>
            (Holds(s'.db, t) <==> Holds(s.db, t) && (OrderIsOpen(s.db, t) || t in s.db.openLeases)))
      && id in s'.handlers && s'.handlers[id].pc.CatchFailing?
  {
    hide Reachable, Next, Apply, OrderIsOpen, Holds;
    CleaningTurn(cfg, s, id, DropClaim, input, fault);
    DroppedClaim(cfg, s.db, s.handlers[id].tx);
  }

  /** And last by caching the failure; nothing is left to give up by then. */
  lemma FailureIsCached(cfg: Config, s: State, id: nat, input: Input, fault: Fault)
    requires Reachable(cfg, s) && s.up && id in s.handlers && !s.handlers[id].late && s.handlers[id].pc.CatchFailing?
    ensures var s', h := Next(cfg, s, Step(id, input, fault)), s.handlers[id];
      && (!fault.NotApplied? ==>
            && h.tx in s'.db.requests && s'.db.requests[h.tx].state.Failed?
            && s'.db.requests[h.tx].response == Some(false))
      && !h.claimed && id !in s'.handlers
  {
    hide Reachable, Next, Apply;
    CleaningTurn(cfg, s, id, Complete(Failed), input, fault);
    FailedRequest(cfg, s.db, s.handlers[id].tx);
  }

  lemma CleaningLeads(h: Handler)
    requires !h.retain
    ensures CatchUnclaim(h) == Some(h.(pc := if h.claimed then CatchDropping else CatchFailing))
    ensures CatchConclude(h.(claimed := false)) == Some(h.(claimed := false, pc := CatchFailing))
  {
  }

  lemma ReleasedUnit(cfg: Config, db: Db, t: TxId)
    ensures var after := Apply(cfg, db, t, ReleaseUnit).0;
      !Flagged(after, t) && UsedOf(after, t.owner) == UsedOf(db, t.owner)
  {
  }

  lemma DroppedClaim(cfg: Config, db: Db, t: TxId)
    ensures var after := Apply(cfg, db, t, DropClaim).0;
      Holds(after, t) <==> Holds(db, t) && (OrderIsOpen(db, t) || t in db.openLeases)
  {
  }

  lemma FailedRequest(cfg: Config, db: Db, t: TxId)
    requires t in db.requests
    ensures var after := Apply(cfg, db, t, Complete(Failed)).0;
      t in after.requests && after.requests[t] == db.requests[t].(state := Failed, response := Some(false))
  {
  }

  // ---- a restart --------------------------------------------------------------------------------------------

  /**
   * A start whose recovery is carried out makes every order that read ORDERING read UNKNOWN, of the same
   * provider and amount, and charges its reserved row; every other order and row, and every other table, is as
   * it was. So whatever blocked its address before blocks it after.
   */
  lemma RestartLeavesUnknown(cfg: Config, s: State, fault: Fault)
    requires !s.up && !fault.NotApplied?
    ensures var s' := Next(cfg, s, Start(fault));
      && (s'.up <==> fault.Acked?)
      && s'.db == s.db.(orders := s'.db.orders, ledger := s'.db.ledger)
      && s'.db.orders.Keys == s.db.orders.Keys && s'.db.ledger.Keys == s.db.ledger.Keys
      && (forall t :: t in s.db.orders ==>
            if s.db.orders[t].state.Ordering? then
              && s'.db.orders[t].state.Unknown? && s'.db.orders[t].provider == s.db.orders[t].provider
              && s'.db.orders[t].amount == s.db.orders[t].amount
              && s'.db.orders[t].receiver == s.db.orders[t].receiver
              && s'.db.orders[t].requested == s.db.orders[t].requested
            else s'.db.orders[t] == s.db.orders[t])
      && (forall t :: OrderIsOpen(s'.db, t) <==> OrderIsOpen(s.db, t))
      && (forall k :: k in s.db.ledger ==>
            s'.db.ledger[k] ==
              if OrderIsWith(s.db, k.0, k.1) && s.db.ledger[k].state.Reserved?
              then s.db.ledger[k].(state := Charged) else s.db.ledger[k])
  {
  }

  predicate OrderIsWith(db: Db, t: TxId, p: ProviderId) {
    t in db.orders && db.orders[t].state.Ordering? && db.orders[t].provider == Some(p)
  }

  /** After a start no attempt is left open: no order reads ORDERING, and no budget row is reserved. */
  lemma RestartLeavesNothingOpen(cfg: Config, s: State, fault: Fault, k: (TxId, ProviderId))
    requires Reachable(cfg, s) && !s.up && !fault.NotApplied?
    ensures var db := Next(cfg, s, Start(fault)).db;
      && (k.0 in db.orders ==> !db.orders[k.0].state.Ordering?)
      && (k in db.ledger ==> !db.ledger[k].state.Reserved?)
  {
    hide Reachable, Next, CallsAgreeWithLedger, QuotaAgrees, OrderIsOpen;
    var s' := Next(cfg, s, Start(fault));
    RestartLeavesUnknown(cfg, s, fault);
    NextReachable(cfg, s, Start(fault));
    TxHolds(cfg, s', k.0);
    RowKeys(s'.db.ledger, k.0, k.1);
  }

  // ---- the checks on the way to the broadcast --------------------------------------------------------------

  lemma PlanSensed(cfg: Config, db: Db, trace: Trace, h: Handler, available: nat, listing: seq<ProviderId>,
      quote: Quote)
    requires h.pc.Planning? && h.need.Some? && !cfg.ownerEnergyBurn
    ensures var input := Quoted(available, listing, quote);
      && Intent(cfg, h, input).None?
      && (available >= h.need.value ==>
            Sense(cfg, db, trace, h, input) == Moved(trace, Some(h.(pc := Rechecking(false)))))
      && (available < h.need.value ==>
            var sensed := Sense(cfg, db, trace, h, input);
            || sensed == Ignored
            || sensed == Moved(trace, Catch(cfg, h, Ordinary))
            || (quote.Package? && sensed == Moved(trace,
                 Some(h.(pc := Opening(Plan(h.estimate, quote.amount, Some(h.need.value - available))))))))
  {
    hide Catch, ListsEnabled, IsQuote;
  }

  lemma PlanningNeeds(cfg: Config, s: State, id: nat)
    requires Reachable(cfg, s) && PaidMode(cfg) && id in s.handlers && !s.handlers[id].late
    requires s.handlers[id].pc.Planning? && s.handlers[id].tx.contract.TriggerSmartContract?
    ensures s.handlers[id].need.Some? && !cfg.ownerEnergyBurn
  {
    hide Reachable, TxOk, HandlerOk, KnowsOrder, Accounts, AnswerKnown, FlagsFit, FailureFits, ProgressFits, TxView;
    LiveRecord(cfg, s, id);
  }

  /** Energy is ordered only when it is missing, and for what is missing; when there is enough, nothing is ordered. */
  lemma OrderIsForShortfall(cfg: Config, s: State, id: nat, available: nat, listing: seq<ProviderId>, quote: Quote)
    requires Reachable(cfg, s) && PaidMode(cfg) && s.up && id in s.handlers && !s.handlers[id].late && !Waits(s, id)
    requires s.handlers[id].pc.Planning? && s.handlers[id].tx.contract.TriggerSmartContract?
    ensures var s', h := Next(cfg, s, Step(id, Quoted(available, listing, quote), Acked)), s.handlers[id];
      && s'.db == s.db && h.need.Some?
      && (available >= h.need.value ==> id in s'.handlers && s'.handlers[id].pc == Rechecking(false))
      && (id in s'.handlers && s'.handlers[id].pc.Opening? ==>
            && available < h.need.value && quote.Package?
            && s'.handlers[id].pc.plan == Plan(h.estimate, quote.amount, Some(h.need.value - available)))
  {
    hide Reachable, Next, PaidMode, Waits, Sense, SenseStep, Intent, TraceOf;
    var h, trace := s.handlers[id], TraceOf(s, s.handlers[id].tx);
    var input := Quoted(available, listing, quote);
    PlanningNeeds(cfg, s, id);
    PlanLeads(cfg, s.db, trace, h, available, listing, quote);
    StepIs(cfg, s, id, input, Acked);
    SenseStepIs(cfg, s, id, h, input);
  }

  /** Where a quote leads: on to the recheck, to an order for what is missing, or to neither. */
  ghost predicate RightPlan(h: Handler, available: nat, quote: Quote, next: Option<Handler>)
    requires h.need.Some?
  {
    && (available >= h.need.value ==> next.Some? && next.value.pc == Rechecking(false))
    && (next.Some? && next.value.pc.Opening? ==>
          && available < h.need.value && quote.Package?
          && next.value.pc.plan == Plan(h.estimate, quote.amount, Some(h.need.value - available)))
  }

  lemma PlanLeads(cfg: Config, db: Db, trace: Trace, h: Handler, available: nat, listing: seq<ProviderId>, quote: Quote)
    requires h.pc.Planning? && h.need.Some? && !cfg.ownerEnergyBurn
    ensures var sensed := Sense(cfg, db, trace, h, Quoted(available, listing, quote));
      && Intent(cfg, h, Quoted(available, listing, quote)).None?
      && (available >= h.need.value ==> sensed.Moved?)
      && (sensed.Moved? ==> RightPlan(h, available, quote, sensed.next))
  {
    hide Sense, Intent, Catch, Outside;
    PlanSensed(cfg, db, trace, h, available, listing, quote);
    CatchLeaves(cfg, h, Ordinary);
    OpeningIsInside(Catch(cfg, h, Ordinary));
  }

  lemma OpeningIsInside(next: Option<Handler>)
    ensures Outside(next) && next.Some? ==> !next.value.pc.Opening?
  {
  }

  lemma RecheckSensed(cfg: Config, db: Db, trace: Trace, h: Handler, available: nat)
    requires h.pc.Rechecking? && h.need.Some?
    ensures Intent(cfg, h, Reading(available)).None?
    ensures var h' := h.(reading := available);
      Sense(cfg, db, trace, h, Reading(available)) == Moved(trace,
        if available >= h.need.value then Some(Prepared(h', h.pc.paid))
        else Catch(cfg, h', if h.pc.paid then Paid else Ordinary))
  {
    hide Catch, Prepared;
  }

  /**
   * The last reading before the broadcast decides: a transaction whose energy is there goes on to be sent, and
   * one whose energy is not is stopped; a paid one then has its unit consumed, an unpaid one gets it back.
   */
  lemma LastReadingDecides(cfg: Config, s: State, id: nat, available: nat)
    requires Reachable(cfg, s) && PaidMode(cfg) && s.up && id in s.handlers && !s.handlers[id].late
    requires s.handlers[id].pc.Rechecking? && s.handlers[id].tx.contract.TriggerSmartContract?
    ensures var s', h := Next(cfg, s, Step(id, Reading(available), Acked)), s.handlers[id];
      && s'.db == s.db && h.need.Some? && id in s'.handlers
      && (s'.handlers[id].pc.Readying? <==> available >= h.need.value)
      && (available < h.need.value ==>
            s'.handlers[id].pc == (if h.pc.paid then CatchConsuming else CatchReleasing))
  {
    hide Reachable, Next, TxOk, HandlerOk, KnowsOrder, Accounts, AnswerKnown, FailureFits, ProgressFits, TxView, Waits,
      Sense, Intent;
    var h, trace := s.handlers[id], TraceOf(s, s.handlers[id].tx);
    LiveRecord(cfg, s, id);
    InsideWaitsNot(s, id);
    RecheckSensed(cfg, s.db, trace, h, available);
    StepIs(cfg, s, id, Reading(available), Acked);
    SenseStepIs(cfg, s, id, h, Reading(available));
    NotChargedHere(cfg, TxView(s, h.tx), h);
    InsideFlags(h.pc);
  }

  lemma RefusalRecorded(cfg: Config, db: Db, t: TxId)
    requires Unsold(OrderIn(db, t))
    ensures var after := Apply(cfg, db, t, RefuseOrder).0;
      t in after.orders && after.orders[t].state == OrderState.Rejected && after.ledger == db.ledger
  {
  }

  /** An order nobody could be given to ends as REJECTED, without a budget row of its own. */
  lemma UnsoldOrderIsRejected(cfg: Config, s: State, id: nat, input: Input, fault: Fault)
    requires Reachable(cfg, s) && s.up && id in s.handlers && !s.handlers[id].late && s.handlers[id].pc.RefusingOrder?
    requires !fault.NotApplied?
    ensures var s', t := Next(cfg, s, Step(id, input, fault)), s.handlers[id].tx;
      t in s'.db.orders && s'.db.orders[t].state == OrderState.Rejected && s'.db.ledger == s.db.ledger
  {
    hide Reachable, Next, Apply, AfterWrite, OnlyTx, TxOk, HandlerOk, Conducts, Accounts, TxView, Unsold;
    LiveRecord(cfg, s, id);
    WriteTurn(cfg, s, id, RefuseOrder, input, fault);
    RefusalRecorded(cfg, s.db, s.handlers[id].tx);
  }

  // ---- the workers ----------------------------------------------------------------------------------------

  /** Recovery looks for the requests that are neither finished nor accepted, and for failed ones that hold a unit. */
  lemma StaleIsUnsettled(r: Request)
    ensures Stale(r) <==>
      || (!Terminal(r.state) && !r.state.UpstreamAccepted?)
      || (r.state.Failed? && r.quotaReserved)
  {
  }

  /** What recovery records of a listed request: the same as its handler would have. */
  lemma RecoveryIsRecorded(cfg: Config, s: State, t: TxId, accepted: bool, fault: Fault)
    requires Reachable(cfg, s) && s.up && t in s.stale && !fault.NotApplied?
    ensures var s' := Next(cfg, s, Recover(t, accepted, fault));
      var used := accepted || (t in s.db.orders && Billable(s.db.orders[t].state));
      && t in s.db.requests && t in s'.db.requests
      && s'.db.requests[t] == Request(if accepted then UpstreamAccepted else UpstreamRejected, false, Some(accepted))
      && TraceOf(s', t).consumed == TraceOf(s, t).consumed + (if Flagged(s.db, t) && used then 1 else 0)
      && TraceOf(s', t).released == TraceOf(s, t).released + (if Flagged(s.db, t) && !used then 1 else 0)
      && (Holds(s'.db, t) <==> Holds(s.db, t) && (accepted || OrderIsOpen(s.db, t) || t in s.db.openLeases))
      && s'.db.orders == s.db.orders && s'.db.ledger == s.db.ledger
      && t !in s'.stale && (!fault.Acked? ==> s'.stale == {} && s'.awaiting == {})
  {
    hide Reachable, Next, TxsOk, HandlersOk, Alone, Apply, OrderIsOpen, Holds, Owned, PrepareInv, RecordInv;
    RecordsHold(cfg, s);
    BindingOf(s.db, t);
    RecoverTurn(cfg, s, t, accepted, fault);
    OutcomeRecorded(cfg, s.db, t, accepted);
  }

  lemma RecoverTurn(cfg: Config, s: State, t: TxId, accepted: bool, fault: Fault)
    requires s.up && t in s.stale && !fault.NotApplied?
    ensures var s', w := Next(cfg, s, Recover(t, accepted, fault)), RecordOutcome(accepted);
      && s'.db == Apply(cfg, s.db, t, w).0
      && TraceOf(s', t) == Observe(TraceOf(s, t), s.db, s'.db, t, w)
      && t !in s'.stale && (!fault.Acked? ==> s'.stale == {} && s'.awaiting == {})
  {
    hide Apply, Observe;
  }

  lemma ConcludeTurn(cfg: Config, s: State, t: TxId, success: bool, fault: Fault)
    requires s.up && t in s.awaiting && !fault.NotApplied?
    ensures Next(cfg, s, Finalize(t, success, fault)).db ==
      G.DropClaimOf(G.SetRequestState(s.db, t, if success then SolidifiedSuccess else SolidifiedFailed), t)
    ensures Next(cfg, s, Expire(t, fault)).db == G.DropClaimOf(G.SetRequestState(s.db, t, Expired), t)
  {
    hide G.DropClaimOf, G.SetRequestState;
  }

  lemma ConclusionRecorded(db: Db, t: TxId, state: RequestState)
    requires t in db.requests
    ensures var after := G.DropClaimOf(G.SetRequestState(db, t, state), t);
      && t in after.requests && after.requests[t] == db.requests[t].(state := state)
      && (Holds(after, t) <==> Holds(db, t) && (OrderIsOpen(db, t) || t in db.openLeases))
      && after.bindings == db.bindings && after.orders == db.orders && after.ledger == db.ledger
  {
  }

  /**
   * Finality and expiry conclude only transactions whose acceptance was recorded and whose unit is settled; they
   * record what was seen, and give up the claim unless an open order or a lease keeps it.
   */
  lemma ConclusionIsRecorded(cfg: Config, s: State, t: TxId, success: bool, fault: Fault)
    requires Reachable(cfg, s) && s.up && t in s.awaiting && !fault.NotApplied?
    ensures TraceOf(s, t).accepted > 0 && !Flagged(s.db, t) && t in s.db.requests
    ensures var final, expired := Next(cfg, s, Finalize(t, success, fault)).db, Next(cfg, s, Expire(t, fault)).db;
      && t in final.requests && t in expired.requests
      && final.requests[t].state == (if success then SolidifiedSuccess else SolidifiedFailed)
      && expired.requests[t].state == Expired
      && (Holds(final, t) <==> Holds(s.db, t) && (OrderIsOpen(s.db, t) || t in s.db.openLeases))
      && (Holds(expired, t) <==> Holds(s.db, t) && (OrderIsOpen(s.db, t) || t in s.db.openLeases))
      && final.bindings == s.db.bindings && expired.bindings == s.db.bindings
  {
    hide Reachable, Next, TxsOk, HandlersOk, Alone, OrderIsOpen, Holds, Owned, PrepareInv, RowsTrue, HandlersTrue,
      G.DropClaimOf, G.SetRequestState;
    RecordsHold(cfg, s);
    ConcludeTurn(cfg, s, t, success, fault);
    ConclusionRecorded(s.db, t, if success then SolidifiedSuccess else SolidifiedFailed);
    ConclusionRecorded(s.db, t, Expired);
  }

  /** The clean-up drops exactly the claims of finished requests without an open order or lease. */
  lemma SweepDropsFinished(cfg: Config, s: State, a: Address)
    requires Reachable(cfg, s) && s.up && a in s.db.claims
    ensures var s', t := Next(cfg, s, SweepClaims), s.db.claims[a];
      && t in s.db.requests
      && (a !in s'.db.claims <==>
            var state := s.db.requests[t].state;
            && (state.Rejected? || state.Failed? || state.UpstreamRejected? || state.SolidifiedSuccess?
                || state.SolidifiedFailed? || state.Expired?)
            && !OrderIsOpen(s.db, t) && t !in s.db.openLeases)
      && (a in s'.db.claims ==> s'.db.claims[a] == t)
      && s'.db == s.db.(claims := s'.db.claims)
  {
    hide Run, PreparersOk, OpenIsClaimed, Losses;
    var events :| s == Run(cfg, events);
    RunClaims(cfg, events);
  }

  // ---- how far a request has got -----------------------------------------------------------------------------

  /**
   * A request under a live handler, unless a late one wrote to it, reads RECEIVED up to its reservation, then
   * QUOTA_RESERVED up to its estimate, then RESOURCE_ESTIMATED up to the end of its preparation, and has no
   * cached answer; what is sent reads RESOURCE_READY, unless it was paid for and that write failed.
   */
  lemma RequestShowsProgress(cfg: Config, s: State, id: nat)
    requires Reachable(cfg, s) && PaidMode(cfg) && id in s.handlers && !s.handlers[id].late
    requires s.handlers[id].tx !in s.overwritten
    ensures var pc, t := s.handlers[id].pc, s.handlers[id].tx;
      && t in s.db.requests
      && var request := s.db.requests[t];
      && (!pc.CatchDropping? && !pc.CatchFailing? ==> request.response.None?)
      && (pc.Claiming? || pc.Discarding? || pc.Reserving? || pc.DroppingClaim? || pc.CachingReject? ==>
            request.state.Received?)
      && (pc.Estimating? || pc.SavingEstimate? ==> request.state.QuotaReserved?)
      && (pc.Planning? || InPrepare(pc) || pc.Readying? ==> request.state.ResourceEstimated?)
      && (pc.Forwarding? || pc.Recording? ==>
            request.state.ResourceReady? || (s.handlers[id].charged && Working(request.state)))
  {
    hide Reachable, TxOk, HandlerOk, KnowsOrder, Accounts, AnswerKnown, FlagsFit, FailureFits, NeedFits, TxView,
      MayBeCharged;
    LiveRecord(cfg, s, id);
    ProgressPlaces(cfg, s.handlers[id]);
    PaidIsBound(cfg);
  }

  lemma ProgressPlaces(cfg: Config, h: Handler)
    ensures InPrepare(h.pc) ==>
      && !h.pc.Claiming? && !h.pc.Discarding? && !h.pc.Reserving? && !h.pc.DroppingClaim? && !h.pc.CachingReject?
      && !h.pc.Estimating? && !h.pc.SavingEstimate? && !h.pc.CatchDropping? && !h.pc.CatchFailing?
  {
  }

  lemma LifetimeSensed(cfg: Config, db: Db, trace: Trace, h: Handler)
    requires h.pc.Readying?
    ensures Intent(cfg, h, Deadline(true)).None?
    ensures Sense(cfg, db, trace, h, Deadline(true)) ==
      if h.charged then Ignored else Moved(trace, Catch(cfg, h, Ordinary))
  {
    hide Catch;
  }

  /** A transaction about to expire is not sent, and its unit goes back; one that was paid for is sent all the same. */
  lemma LifetimeStopsUnpaid(cfg: Config, s: State, id: nat)
    requires Reachable(cfg, s) && PaidMode(cfg) && s.up && id in s.handlers && !s.handlers[id].late
    requires s.handlers[id].pc.Readying?
    ensures var s', h := Next(cfg, s, Step(id, Deadline(true), Acked)), s.handlers[id];
      && s'.db == s.db && id in s'.handlers
      && (h.charged ==> s' == s)
      && (!h.charged ==> s'.handlers[id].pc.CatchReleasing?)
  {
    hide Reachable, Next, TxOk, HandlerOk, KnowsOrder, Accounts, AnswerKnown, FailureFits, ProgressFits, NeedFits,
      TxView, Waits, Sense, Intent, MayBeCharged;
    var h, trace := s.handlers[id], TraceOf(s, s.handlers[id].tx);
    LiveRecord(cfg, s, id);
    InsideWaitsNot(s, id);
    LifetimeSensed(cfg, s.db, trace, h);
    StepIs(cfg, s, id, Deadline(true), Acked);
    SenseStepIs(cfg, s, id, h, Deadline(true));
    NotSentEarly(cfg, TxView(s, h.tx), h);
  }

  lemma FallbackSensed(cfg: Config, db: Db, trace: Trace, h: Handler)
    requires (h.pc.Planning? || h.pc.Delegating?) && !h.charged
    requires cfg.forwardInsufficient && !Guarded(cfg, h.tx)
    ensures Intent(cfg, h, Fails(Insufficient)).None?
    ensures Sense(cfg, db, trace, h, Fails(Insufficient)) == Moved(trace, Some(h.(pc := Forwarding)))
  {
    hide Guarded;
  }

  /** Where the policy asks for it, a transaction the pool has no resources for is sent unprepared, its unit in hand. */
  lemma InsufficientIsForwarded(cfg: Config, s: State, id: nat)
    requires Reachable(cfg, s) && s.up && id in s.handlers && !s.handlers[id].late && !Waits(s, id)
    requires s.handlers[id].pc.Planning? || s.handlers[id].pc.Delegating?
    requires cfg.forwardInsufficient && !Guarded(cfg, s.handlers[id].tx)
    ensures var s' := Next(cfg, s, Step(id, Fails(Insufficient), Acked));
      s'.db == s.db && id in s'.handlers && s'.handlers[id] == s.handlers[id].(pc := Forwarding)
  {
    hide Reachable, Next, TxOk, PhaseOk, KnowsOrder, Conducts, Accounts, TxView, Waits, Sense, Intent, Guarded;
    var h := s.handlers[id];
    LiveRecord(cfg, s, id);
    FallbackSensed(cfg, s.db, TraceOf(s, h.tx), h);
    SenseTurn(cfg, s, id, Fails(Insufficient), TraceOf(s, h.tx), h.(pc := Forwarding));
  }
}
