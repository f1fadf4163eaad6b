/** When a unit is given back after an order was opened, and how the order stands then. */
module Refunds {
  import opened Options
  import opened Schema
  import opened EnergyPackages
  import opened Gateway
  import opened TxInvariant
  import opened WriteLemmas
  import opened StepLemmas
  import opened Invariant
  import opened Safety
  import opened Claims
  import opened Prepare
  import P = ProviderRepository

  /** Inside orderEnergy. */
  predicate InOrder(pc: Pc) {
    pc.Opening? || Shopping(pc) || Dealing(pc) || pc.Doubting?
  }

  predicate GoesBack(next: Option<Handler>) {
    next.Some? && next.value.pc.CatchReleasing?
  }

  /**
   * The steps that end orderEnergy without a provider: a failed or refused beginOrder, a failed listing or
   * reading, an order nobody could be given to, providers that have all rejected, a package out of range, a
   * startAttempt or markRejected that throws, and a deadline that passed before the call.
   */
  predicate GivesUp(h: Handler, o: Option<Order>, input: Input, fault: Fault) {
    match h.pc
    case Opening(plan) => !fault.Acked? || plan.requested < 0
    case Listing(_) => input.Fails?
    case RefusingOrder => true
    case Choosing(_, rest, rejected) => rest == [] && rejected
    case Attempting(_, _, amount, _, _) => !P.ValidEnergyAmount(amount) || (input.Budgeted? && !fault.Acked?)
    case Rereading(_, _, _) => input.Fails?
    case Exhausted => input.Fails? || (input.NoInput? && o.Some? && o.value.state.Rejected?)
    case Refusing(_, _, _, final) => final || !fault.Acked?
    case _ => false
  }

  /** A handler in orderEnergy that holds its unit, under the paid configuration. */
  predicate Orders(cfg: Config, h: Handler) {
    InOrder(h.pc) && !cfg.forwardInsufficient && h.quota && !h.charged && !h.forwarded && !h.late
  }

  /** Where a step leads: on in orderEnergy, to the release of the unit, or to its consumption. */
  ghost predicate Ends(h: Handler, next: Option<Handler>, gives: bool) {
    && next.Some? && next.value.tx == h.tx
    && (GoesBack(next) <==> gives)
    && (InOrder(next.value.pc) || GoesBack(next) || next.value.pc.Consuming?)
    && (next.value.pc.Consuming? ==> h.pc.Accepting? || h.pc.Doubting?)
  }

  lemma CatchReleases(cfg: Config, h: Handler)
    requires Orders(cfg, h)
    ensures Catch(cfg, h, Ordinary) == Some(h.(pc := CatchReleasing))
  {
  }

  // ---- writes -----------------------------------------------------------------------------------

  lemma FailEnds(cfg: Config, h: Handler)
    requires Orders(cfg, h) && (h.pc.Opening? || h.pc.RefusingOrder? || h.pc.Attempting? || h.pc.Refusing?)
    ensures Ends(h, Fail(cfg, h), true)
  {
    hide Catch, Fail;
    CatchReleases(cfg, h);
    FailIsCaught(cfg, h);
  }

  lemma OpenEnds(cfg: Config, db: Db, h: Handler, input: Input, fault: Fault)
    requires Orders(cfg, h) && h.pc.Opening? && h.tx in db.requests && h.tx !in db.orders
    ensures Ends(h, AfterWrite(cfg, db, h, Write.OpenOrder(h.pc.plan.requested), input, fault),
      GivesUp(h, OrderIn(db, h.tx), input, fault))
  {
    hide Fail, Resume;
    FailEnds(cfg, h);
    OpeningKnows(cfg, db, h, input);
  }

  lemma RefuseEnds(cfg: Config, db: Db, h: Handler, input: Input, fault: Fault)
    requires Orders(cfg, h) && h.pc.RefusingOrder?
    ensures Ends(h, AfterWrite(cfg, db, h, RefuseOrder, input, fault), GivesUp(h, OrderIn(db, h.tx), input, fault))
  {
    hide Fail, Apply, Catch;
    FailEnds(cfg, h);
    CatchReleases(cfg, h);
  }

  lemma AttemptEnds(cfg: Config, db: Db, h: Handler, input: Input, fault: Fault)
    requires Orders(cfg, h) && h.pc.Attempting? && Unsold(OrderIn(db, h.tx))
    requires input.Budgeted? && P.ValidEnergyAmount(h.pc.amount)
    ensures Ends(h, AfterWrite(cfg, db, h, StartAttempt(h.pc.provider, h.pc.amount, input.day), input, fault),
      GivesUp(h, OrderIn(db, h.tx), input, fault))
  {
    hide Fail, Resume, Apply, Unsold, Placed, OrderIn;
    FailEnds(cfg, h);
    AttemptPlaces(cfg, db, h.tx, h.pc.provider, h.pc.amount, input.day);
    AttemptLeads(cfg, h, Apply(cfg, db, h.tx, StartAttempt(h.pc.provider, h.pc.amount, input.day)).1, input);
  }

  lemma RejectEnds(cfg: Config, db: Db, h: Handler, input: Input, fault: Fault)
    requires Orders(cfg, h) && h.pc.Refusing? && Placed(OrderIn(db, h.tx), h.pc.provider)
    requires P.ReservationOpen(db, h.tx, h.pc.provider)
    ensures Ends(h, AfterWrite(cfg, db, h, FinishAttempt(h.pc.provider, OrderState.Rejected), input, fault),
      GivesUp(h, OrderIn(db, h.tx), input, fault))
  {
    hide Fail, Resume, Apply, Catch, Unsold, Placed, OrderIn;
    FailEnds(cfg, h);
    CatchReleases(cfg, h);
    RejectionApplies(cfg, db, h.tx, h.pc.provider);
    RefusedLeads(cfg, h, Apply(cfg, db, h.tx, FinishAttempt(h.pc.provider, OrderState.Rejected)).1, input);
  }

  lemma ChargeEnds(cfg: Config, db: Db, h: Handler, w: Write, input: Input, fault: Fault)
    requires Orders(cfg, h) && (h.pc.Accepting? || h.pc.Doubting?)
    ensures Ends(h, AfterWrite(cfg, db, h, w, input, fault), false)
  {
    hide Apply, Catch;
  }

  lemma WriteEnds(cfg: Config, db: Db, h: Handler, w: Write, input: Input, fault: Fault)
    requires Orders(cfg, h) && KnowsOrder(OrderIn(db, h.tx), h) && Intent(cfg, h, input) == Some(w)
    requires h.tx in db.requests && (h.pc.Opening? ==> h.tx !in db.orders)
    requires h.pc.Refusing? ==> P.ReservationOpen(db, h.tx, h.pc.provider)
    ensures Ends(h, AfterWrite(cfg, db, h, w, input, fault), GivesUp(h, OrderIn(db, h.tx), input, fault))
  {
    hide Ends, AfterWrite, Unsold, Placed, OrderIn;
    match h.pc
    case Opening(_) => OpenEnds(cfg, db, h, input, fault);
    case RefusingOrder => RefuseEnds(cfg, db, h, input, fault);
    case Attempting(_, _, _, _, _) => AttemptEnds(cfg, db, h, input, fault);
    case Refusing(_, _, _, _) => RejectEnds(cfg, db, h, input, fault);
    case _ => ChargeEnds(cfg, db, h, w, input, fault);
  }

  // ---- readings and answers ------------------------------------------------------------------------

  lemma ListingEnds(cfg: Config, db: Db, trace: Trace, h: Handler, plan: Plan, input: Input, fault: Fault)
    requires Orders(cfg, h) && h.pc == Listing(plan)
    ensures var sensed := SenseListing(cfg, db, trace, h, plan, input);
      if sensed.Moved? then Ends(h, sensed.next, GivesUp(h, OrderIn(db, h.tx), input, fault))
      else !GivesUp(h, OrderIn(db, h.tx), input, fault)
  {
    hide Catch, ListsEnabled, Offers;
    CatchReleases(cfg, h);
  }

  lemma ChoiceEnds(cfg: Config, db: Db, trace: Trace, h: Handler, input: Input, fault: Fault)
    requires Orders(cfg, h) && h.pc.Choosing?
    ensures var sensed := SenseChoice(cfg, trace, h, h.pc.plan, h.pc.rest, h.pc.rejected);
      sensed.Moved? && Ends(h, sensed.next, GivesUp(h, OrderIn(db, h.tx), input, fault))
  {
    hide Catch;
    CatchReleases(cfg, h);
  }

  lemma RangeEnds(cfg: Config, db: Db, trace: Trace, h: Handler, input: Input, fault: Fault)
    requires Orders(cfg, h) && h.pc.Attempting? && Intent(cfg, h, input).None?
    ensures var sensed := SenseAttempt(cfg, trace, h, h.pc.amount);
      if sensed.Moved? then Ends(h, sensed.next, GivesUp(h, OrderIn(db, h.tx), input, fault))
      else !GivesUp(h, OrderIn(db, h.tx), input, fault)
  {
    hide Catch;
    CatchReleases(cfg, h);
  }

  lemma RereadEnds(cfg: Config, db: Db, trace: Trace, h: Handler, input: Input, fault: Fault)
    requires Orders(cfg, h) && h.pc.Rereading? && Unsold(OrderIn(db, h.tx))
    ensures var sensed := SenseReread(cfg, db, trace, h, h.pc.plan, h.pc.rest, h.pc.rejected, input);
      if sensed.Moved? then Ends(h, sensed.next, GivesUp(h, OrderIn(db, h.tx), input, fault))
      else !GivesUp(h, OrderIn(db, h.tx), input, fault)
  {
    hide Catch, Duplicate;
    CatchReleases(cfg, h);
  }

  lemma ExhaustedEnds(cfg: Config, db: Db, trace: Trace, h: Handler, input: Input, fault: Fault)
    requires Orders(cfg, h) && h.pc.Exhausted? && Unsold(OrderIn(db, h.tx))
    ensures var sensed := SenseExhausted(cfg, db, trace, h, input);
      if sensed.Moved? then Ends(h, sensed.next, GivesUp(h, OrderIn(db, h.tx), input, fault))
      else !GivesUp(h, OrderIn(db, h.tx), input, fault)
  {
    hide Catch;
    CatchReleases(cfg, h);
  }

  lemma DealingEnds(cfg: Config, trace: Trace, h: Handler, input: Input)
    requires Orders(cfg, h)
    ensures h.pc.Ready? ==>
      var sensed := SenseReady(trace, h, h.pc.plan, h.pc.provider, h.pc.granted, h.pc.day, h.pc.rest, input);
      sensed.Moved? ==> Ends(h, sensed.next, false)
    ensures h.pc.Calling? ==>
      var sensed := SenseAnswer(trace, h, h.pc.plan, h.pc.provider, h.pc.rest, input);
      sensed.Moved? ==> Ends(h, sensed.next, false)
  {
    hide SenseReady, SenseAnswer;
    if h.pc.Ready? {
      ReadyLeads(trace, h, input);
    } else if h.pc.Calling? {
      AnswerLeads(trace, h, input);
    }
  }

  lemma SenseEnds(cfg: Config, db: Db, trace: Trace, h: Handler, input: Input, fault: Fault)
    requires Orders(cfg, h) && KnowsOrder(OrderIn(db, h.tx), h) && Intent(cfg, h, input).None?
    ensures var sensed := Sense(cfg, db, trace, h, input);
      if sensed.Moved? then Ends(h, sensed.next, GivesUp(h, OrderIn(db, h.tx), input, fault))
      else !GivesUp(h, OrderIn(db, h.tx), input, fault)
  {
    hide Ends, Unsold, Placed, OrderIn, SenseListing, SenseChoice, SenseAttempt, SenseReread, SenseExhausted,
      SenseReady, SenseAnswer;
    match h.pc
    case Listing(plan) => ListingEnds(cfg, db, trace, h, plan, input, fault);
    case Choosing(_, _, _) => ChoiceEnds(cfg, db, trace, h, input, fault);
    case Attempting(_, _, _, _, _) => RangeEnds(cfg, db, trace, h, input, fault);
    case Rereading(_, _, _) => RereadEnds(cfg, db, trace, h, input, fault);
    case Exhausted => ExhaustedEnds(cfg, db, trace, h, input, fault);
    case _ => DealingEnds(cfg, trace, h, input);
  }

  // ---- exactly when the unit goes back -------------------------------------------------------------------

  /** In the paid configuration a handler in orderEnergy has its unit in hand. */
  lemma OrderingHolds(cfg: Config, s: State, id: nat)
    requires Inv(cfg, s) && cfg.provider && Validated(cfg) && id in s.handlers && InOrder(s.handlers[id].pc)
    ensures Orders(cfg, s.handlers[id]) && s.handlers[id].tx in s.db.requests && Flagged(s.db, s.handlers[id].tx)
  {
    hide TxOk, HandlerOk, DetailOk, EnergyOk, InOrder, TxView;
    var h := s.handlers[id];
    assert HandlerWell(cfg, s, h);
    assert !h.late by { OrderPlaces(h); }
    FitOrders(cfg, TxView(s, h.tx), h);
    ViewRows(s, h.tx);
  }

  lemma OrderPlaces(h: Handler)
    requires InOrder(h.pc)
    ensures PhaseOf(h).Unordered? || PhaseOf(h).Buying? || PhaseOf(h).Due?
    ensures !h.pc.CatchFailing? && !h.pc.Readying? && !h.pc.Forwarding? && !h.pc.Recording?
  {
  }

  lemma FitOrders(cfg: Config, v: View, h: Handler)
    requires HandlerOk(cfg, v, h) && InOrder(h.pc) && cfg.provider && Validated(cfg) && !h.late
    ensures Orders(cfg, h) && FlagOf(v) && v.request.Some?
  {
    hide PhaseOf, InOrder, MayBeCharged, NotSent;
    OrderPlaces(h);
  }

  ghost function HandlerAt(s: State, id: nat): Option<Handler> {
    if id in s.handlers then Some(s.handlers[id]) else None
  }

  lemma WriteStepEnds(cfg: Config, s: State, id: nat, w: Write, input: Input, fault: Fault)
    requires Inv(cfg, s) && id in s.handlers && Orders(cfg, s.handlers[id]) && !s.handlers[id].late
    requires Intent(cfg, s.handlers[id], input) == Some(w) && s.handlers[id].tx in s.db.requests
    requires KnowsOrder(OrderIn(s.db, s.handlers[id].tx), s.handlers[id])
    ensures var h, s' := s.handlers[id], WriteStep(cfg, s, id, s.handlers[id], w, input, fault);
      Ends(h, HandlerAt(s', id), GivesUp(h, OrderIn(s.db, h.tx), input, fault))
      && TraceOf(s', h.tx).calls == TraceOf(s, h.tx).calls
  {
    hide Inv, Apply, Commit, AfterWrite, WriteStep, Intent, Ends, GivesUp, OrderIn, Orders, KnowsOrder, RowsOf;
    var h := s.handlers[id];
    if h.pc.Opening? {
      OpeningHasNone(cfg, s, id);
    }
    if h.pc.Refusing? {
      DealerHasOrder(OrderIn(s.db, h.tx), h);
      RefusedIsReserved(cfg, s, h.tx, h.pc.provider);
    }
    CommittedViews(cfg, s, h.tx, w, fault);
    WritesMakeNoCalls(cfg, s, h.tx, w, fault);
    WriteStepIs(cfg, s, id, h, w, input, fault);
    WriteEnds(cfg, s.db, h, w, input, fault);
    EndsSomewhere(h, AfterWrite(cfg, s.db, h, w, input, fault), GivesUp(h, OrderIn(s.db, h.tx), input, fault));
  }

  lemma SenseStepEnds(cfg: Config, s: State, id: nat, input: Input, fault: Fault)
    requires id in s.handlers && Orders(cfg, s.handlers[id]) && Intent(cfg, s.handlers[id], input).None?
    requires KnowsOrder(OrderIn(s.db, s.handlers[id].tx), s.handlers[id])
    ensures var h, s' := s.handlers[id], SenseStep(cfg, s, id, s.handlers[id], input);
      || (s' == s && !GivesUp(h, OrderIn(s.db, h.tx), input, fault))
      || Ends(h, HandlerAt(s', id), GivesUp(h, OrderIn(s.db, h.tx), input, fault))
  {
    hide Sense, SenseStep, Intent, Ends, GivesUp, OrderIn, Orders, KnowsOrder;
    var h := s.handlers[id];
    var sensed := Sense(cfg, s.db, TraceOf(s, h.tx), h, input);
    SenseEnds(cfg, s.db, TraceOf(s, h.tx), h, input, fault);
    SenseStepIs(cfg, s, id, h, input);
    if sensed.Moved? {
      EndsSomewhere(h, sensed.next, GivesUp(h, OrderIn(s.db, h.tx), input, fault));
    }
  }

  lemma StepEnds(cfg: Config, s: State, id: nat, input: Input, fault: Fault)
    requires Reachable(cfg, s) && cfg.provider && Validated(cfg)
    requires s.up && id in s.handlers && InOrder(s.handlers[id].pc)
    ensures var s', h := Next(cfg, s, Step(id, input, fault)), s.handlers[id];
      && ((s' == s && !GivesUp(h, OrderIn(s.db, h.tx), input, fault))
          || Ends(h, HandlerAt(s', id), GivesUp(h, OrderIn(s.db, h.tx), input, fault)))
      && (h.pc.Accepting? || h.pc.Doubting? ==> TraceOf(s', h.tx).calls == TraceOf(s, h.tx).calls)
  {
    hide Reachable, Inv, WriteStep, SenseStep, Intent, Ends, GivesUp, OrderIn, Orders, KnowsOrder, OneInside, RowsOf,
      Next, Waits, TraceOf;
    var h := s.handlers[id];
    InvHolds(cfg, s);
    PrepareHolds(cfg, s);
    OrderingHolds(cfg, s, id);
    OrdersIsLive(cfg, h);
    assert Knows(TxView(s, h.tx), h);
    ViewOrder(s, h.tx);
    OrderPlacesWait(s, id);
    StepIs(cfg, s, id, input, fault);
    OutcomeIsWritten(cfg, h, input);
    var intent := Intent(cfg, h, input);
    if intent.Some? {
      WriteStepEnds(cfg, s, id, intent.value, input, fault);
    } else {
      SenseStepEnds(cfg, s, id, input, fault);
    }
  }

  lemma OrderPlacesWait(s: State, id: nat)
    requires id in s.handlers && InOrder(s.handlers[id].pc)
    ensures !Waits(s, id)
  {
    InsideWaitsNot(s, id);
  }

  lemma OrdersIsLive(cfg: Config, h: Handler)
    requires Orders(cfg, h)
    ensures !h.late
  {
  }

  lemma OutcomeIsWritten(cfg: Config, h: Handler, input: Input)
    ensures h.pc.Accepting? || h.pc.Doubting? ==> Intent(cfg, h, input).Some?
  {
  }

  lemma EndsSomewhere(h: Handler, next: Option<Handler>, gives: bool)
    requires Ends(h, next, gives)
    ensures next.Some?
  {
  }

  /**
   * A step of orderEnergy sends the unit back exactly when it gives the order up. Every call made for the
   * transaction was then explicitly rejected, and it is the other way round when the order ends: the unit
   * goes back if and only if no call may have been charged, and it is consumed if and only if one may have been.
   */
  lemma UnitGoesBackIff(cfg: Config, s: State, id: nat, input: Input, fault: Fault)
    requires Reachable(cfg, s) && cfg.provider && Validated(cfg)
    requires s.up && id in s.handlers && InOrder(s.handlers[id].pc)
    ensures var s', h := Next(cfg, s, Step(id, input, fault)), s.handlers[id];
      var calls := TraceOf(s', h.tx).calls;
      && id in s'.handlers && s'.handlers[id].tx == h.tx
      && (s'.handlers[id].pc.CatchReleasing? <==> GivesUp(h, OrderIn(s.db, h.tx), input, fault))
      && (!InOrder(s'.handlers[id].pc) ==>
          && (s'.handlers[id].pc.CatchReleasing? <==> forall i :: 0 <= i < |calls| ==> calls[i].answer.SaidNo?)
          && (s'.handlers[id].pc.Consuming? <==> MayBeCharged(calls)))
  {
    hide Reachable, Inv, GivesUp, OrderIn, Next, OneInside, KnowsOrder, RowsOf;
    var s', h := Next(cfg, s, Step(id, input, fault)), s.handlers[id];
    StepEnds(cfg, s, id, input, fault);
    if s' != s {
      NextReachable(cfg, s, Step(id, input, fault));
      InvHolds(cfg, s');
      if s'.handlers[id].pc.CatchReleasing? {
        ReleasingIsUncharged(cfg, s', id);
      } else if s'.handlers[id].pc.Consuming? {
        OrderStandsAsKnown(cfg, s, id) by { InvHolds(cfg, s); OrderingHolds(cfg, s, id); OrdersIsLive(cfg, h); }
      }
    }
  }

  lemma NextReachable(cfg: Config, s: State, e: Event)
    requires Reachable(cfg, s)
    ensures Reachable(cfg, Next(cfg, s, e))
  {
    hide Next;
    var events :| s == Run(cfg, events);
    assert (events + [e])[..|events|] == events;
    assert Run(cfg, events + [e]) == Next(cfg, s, e);
  }

  lemma ReleasingIsUncharged(cfg: Config, s: State, id: nat)
    requires Inv(cfg, s) && id in s.handlers && s.handlers[id].pc.CatchReleasing?
    ensures !MayBeCharged(TraceOf(s, s.handlers[id].tx).calls)
  {
    hide TxOk, DetailOk, EnergyOk, MayBeCharged, RowsOf;
    assert HandlerWell(cfg, s, s.handlers[id]);
  }

  // ---- how the order stands then ----------------------------------------------------------------------

  /**
   * The order row that a given-up unit leaves behind is open in exactly two cases: a markRejected that was
   * not carried out, and a startAttempt that was, although it threw.
   */
  lemma OrderLeftOpenIff(cfg: Config, s: State, id: nat, input: Input, fault: Fault)
    requires Reachable(cfg, s) && cfg.provider && Validated(cfg)
    requires s.up && id in s.handlers && InOrder(s.handlers[id].pc)
    requires GivesUp(s.handlers[id], OrderIn(s.db, s.handlers[id].tx), input, fault)
    ensures var s', h := Next(cfg, s, Step(id, input, fault)), s.handlers[id];
      OrderIsOpen(s'.db, h.tx) <==>
        || (h.pc.Refusing? && fault.NotApplied?)
        || (h.pc.Attempting? && input.Budgeted? && fault.Unacked? && P.ValidEnergyAmount(h.pc.amount)
            && P.StartAttempt(s.db, cfg.limits, h.tx, h.pc.provider, h.pc.amount, input.day).1)
  {
    hide Reachable, Inv, Apply, Commit, WriteStep, SenseStep, Intent, OrderIn, Orders, Next, Waits, InOrder, GivesUp,
      Unsold, Placed, Shopping, Dealing, OrderIsOpen, P.StartAttempt, P.ValidEnergyAmount;
    var h := s.handlers[id];
    InvHolds(cfg, s);
    OrderingHolds(cfg, s, id);
    OrdersIsLive(cfg, h);
    OrderStandsAsKnown(cfg, s, id);
    StandsOpen(s.db, h);
    OrderPlacesWait(s, id);
    StepIs(cfg, s, id, input, fault);
    GivesUpWhere(cfg, h, OrderIn(s.db, h.tx), input, fault);
    var intent := Intent(cfg, h, input);
    if intent.Some? {
      CommittedViews(cfg, s, h.tx, intent.value, fault);
      WriteStepIs(cfg, s, id, h, intent.value, input, fault);
      WriteLeavesOpen(cfg, s, h, intent.value, input);
    } else {
      SenseStepIs(cfg, s, id, h, input);
    }
  }

  lemma GivesUpWhere(cfg: Config, h: Handler, o: Option<Order>, input: Input, fault: Fault)
    requires GivesUp(h, o, input, fault)
    ensures h.pc.Opening? || Shopping(h.pc) || h.pc.Refusing?
    ensures Dealing(h.pc) <==> h.pc.Refusing?
    ensures Intent(cfg, h, input).Some? ==>
      && (h.pc.Opening? || h.pc.RefusingOrder? || h.pc.Attempting? || h.pc.Refusing?)
      && (h.pc.Attempting? ==> input.Budgeted? && P.ValidEnergyAmount(h.pc.amount) && !fault.Acked?)
    ensures Intent(cfg, h, input).None? ==>
      && !h.pc.Refusing?
      && (h.pc.Attempting? ==> !input.Budgeted? || !P.ValidEnergyAmount(h.pc.amount))
  {
  }

  lemma StandsOpen(db: Db, h: Handler)
    requires h.pc.Opening? ==> h.tx !in db.orders
    requires Shopping(h.pc) ==> Unsold(OrderIn(db, h.tx))
    requires Dealing(h.pc) ==> Placed(OrderIn(db, h.tx), h.pc.provider)
    ensures h.pc.Opening? || Shopping(h.pc) ==> !OrderIsOpen(db, h.tx)
    ensures Dealing(h.pc) ==> OrderIsOpen(db, h.tx)
  {
  }

  lemma WriteLeavesOpen(cfg: Config, s: State, h: Handler, w: Write, input: Input)
    requires Inv(cfg, s) && Intent(cfg, h, input) == Some(w)
    requires h.pc.Opening? || h.pc.RefusingOrder? || h.pc.Attempting? || h.pc.Refusing?
    requires h.pc.Opening? ==> h.tx !in s.db.orders
    requires Shopping(h.pc) ==> Unsold(OrderIn(s.db, h.tx))
    requires Dealing(h.pc) ==> Placed(OrderIn(s.db, h.tx), h.pc.provider)
    ensures OrderIsOpen(Apply(cfg, s.db, h.tx, w).0, h.tx) <==>
      && h.pc.Attempting? && P.ValidEnergyAmount(h.pc.amount)
      && P.StartAttempt(s.db, cfg.limits, h.tx, h.pc.provider, h.pc.amount, input.day).1
  {
    hide Inv, Apply, OrderIn, Unsold, Placed, OrderIsOpen, P.StartAttempt;
    match h.pc
    case Opening(plan) => OpeningOpensNothing(cfg, s.db, h.tx, plan.requested);
    case RefusingOrder => OpeningOpensNothing(cfg, s.db, h.tx, 0);
    case Attempting(_, p, amount, _, _) => StartOpensIff(cfg, s.db, h.tx, p, amount, input.day);
    case Refusing(_, p, _, _) =>
      RefusedIsReserved(cfg, s, h.tx, p);
      RejectionApplies(cfg, s.db, h.tx, p);
      UnsoldIsClosed(Apply(cfg, s.db, h.tx, w).0, h.tx);
  }

  lemma UnsoldIsClosed(db: Db, t: TxId)
    requires Unsold(OrderIn(db, t))
    ensures !OrderIsOpen(db, t)
  {
  }

  lemma OpeningOpensNothing(cfg: Config, db: Db, t: TxId, requested: int)
    ensures t !in db.orders ==> !OrderIsOpen(Apply(cfg, db, t, Write.OpenOrder(requested)).0, t)
    ensures Unsold(OrderIn(db, t)) ==> !OrderIsOpen(Apply(cfg, db, t, RefuseOrder).0, t)
  {
  }

  lemma StartOpensIff(cfg: Config, db: Db, t: TxId, p: ProviderId, amount: nat, day: Day)
    requires Unsold(OrderIn(db, t))
    ensures OrderIsOpen(Apply(cfg, db, t, StartAttempt(p, amount, day)).0, t) <==>
      P.StartAttempt(db, cfg.limits, t, p, amount, day).1
  {
    hide P.Affordable;
  }
}
