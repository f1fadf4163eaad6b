/** A handler's readings, calls and broadcasts keep the invariants of its transaction. */
module SenseLemmas {
  import opened Options
  import opened Schema
  import opened EnergyPackages
  import opened Gateway
  import opened TxInvariant
  import opened WriteLemmas
  import opened HandlerLemmas
  import P = ProviderRepository

  ghost predicate SensedOk(cfg: Config, t: TxId, v: View, sensed: Sensed) {
    sensed.Moved? ==>
      TxOk(cfg, t, v.(trace := sensed.trace)) && NextFit(cfg, v.(trace := sensed.trace), sensed.next)
  }

  // ---- where the catch block and the end of prepare lead ---------------------------------------

  /** A handler that is not ordering has no plan to keep. */
  predicate Plain(pc: Pc) {
    !(pc.Opening? || pc.Listing? || pc.Choosing? || pc.Attempting? || pc.Rereading? || pc.Ready? || pc.Calling?
      || pc.Refusing?)
  }

  lemma PlainDetail(cfg: Config, v: View, h: Handler)
    requires Plain(h.pc)
    ensures DetailOk(cfg, v, h)
  {
  }

  lemma UnclaimFit(cfg: Config, v: View, h: Handler)
    requires v.request.Some? && !v.request.value.state.UpstreamAccepted? && !h.forwarded && !h.charged
    ensures NextFit(cfg, v, CatchUnclaim(h))
  {
    CatchUnclaimOk(cfg, v, h);
    if h.claimed && !h.retain {
    } else if h.retain {
    } else {
    }
  }

  lemma RestFit(cfg: Config, v: View, h: Handler, err: Error)
    requires Catchable(cfg, v, h, err) && (err.Paid? ==> !h.quota)
    ensures NextFit(cfg, v, CatchRest(cfg, h, err))
  {
    hide CatchUnclaim, Catchable, HandlerOk, PhaseOf;
    assert Clean(v, h) by { CatchableIsClean(cfg, v, h, err); }
    CatchRestOk(cfg, v, h, err);
    if cfg.forwardInsufficient && err.Insufficient? && !Guarded(cfg, h.tx) {
    } else if h.quota {
    } else {
      UnclaimFit(cfg, v, h);
    }
  }

  ghost predicate Clean(v: View, h: Handler) {
    v.request.Some? && !v.request.value.state.UpstreamAccepted? && !h.forwarded && !h.charged
  }

  lemma CatchableIsClean(cfg: Config, v: View, h: Handler, err: Error)
    requires Catchable(cfg, v, h, err)
    ensures Clean(v, h)
  {
  }

  lemma CatchFit(cfg: Config, v: View, h: Handler, err: Error)
    requires Catchable(cfg, v, h, err)
    ensures NextFit(cfg, v, Catch(cfg, h, err))
  {
    hide CatchRest, HandlerOk, Catchable;
    CatchOk(cfg, v, h, err);
    if err.Paid? && h.quota {
    } else {
      RestFit(cfg, v, h, err);
    }
  }

  lemma OrdinaryFit(cfg: Config, v: View, h: Handler)
    requires HandlerOk(cfg, v, h) && Basics(v) && !h.charged
    requires var phase := PhaseOf(h); phase.Fresh? || phase.Unordered? || phase.Buying? || phase.Clear?
    ensures NextFit(cfg, v, Catch(cfg, h, Ordinary))
  {
    hide HandlerOk, Catch, NextFit;
    OrdinaryCatchable(cfg, v, h);
    CatchFit(cfg, v, h, Ordinary);
  }

  lemma PaidFit(cfg: Config, v: View, h: Handler)
    requires HandlerOk(cfg, v, h) && Basics(v) && !h.charged && (PhaseOf(h).Due? || PhaseOf(h).Spent?)
    ensures NextFit(cfg, v, Catch(cfg, h, Paid))
  {
    hide Catch, NextFit;
    CatchFit(cfg, v, h, Paid);
  }

  /** From the estimate on the requirement is known, if the transaction is guarded. */
  ghost predicate NeedKnown(cfg: Config, h: Handler) {
    Guarded(cfg, h.tx) ==> h.need.Some?
  }

  lemma NeedIsKnown(cfg: Config, h: Handler)
    requires EnergyOk(cfg, h)
    requires !Ending(h.pc) && !PhaseOf(h).Fresh? && !h.pc.Estimating?
    ensures NeedKnown(cfg, h)
  {
  }

  lemma NeedSuffices(cfg: Config, h: Handler, pc: Pc)
    requires NeedKnown(cfg, h) && !pc.Readying? && !pc.Forwarding?
    ensures EnergyOk(cfg, h.(pc := pc))
  {
  }

  // ---- preparation ---------------------------------------------------------------------------------

  lemma StepUnordered(cfg: Config, v: View, h: Handler, h': Handler)
    requires HandlerOk(cfg, v, h) && Basics(v) && PhaseOf(h).Unordered?
    requires h'.quota == h.quota && h'.forwarded == h.forwarded && h'.charged == h.charged && h'.retain == h.retain
    requires !h'.charged && (PhaseOf(h').Unordered? || PhaseOf(h').Clear?) && !h'.pc.Reserving?
    ensures HandlerOk(cfg, v, h')
  {
    hide MayBeCharged, NotSent;
  }

  lemma InsufficientFit(cfg: Config, v: View, h: Handler, err: Error)
    requires HandlerOk(cfg, v, h) && Basics(v) && PhaseOf(h).Unordered? && !err.Paid? && !h.charged
    ensures NextFit(cfg, v, Catch(cfg, h, err))
  {
    hide Catch, NextFit;
    CatchFit(cfg, v, h, err);
  }

  lemma UnpaidFit(cfg: Config, v: View, h: Handler)
    requires HandlerOk(cfg, v, h) && Basics(v) && PhaseOf(h).Unordered? && !h.charged && NeedKnown(cfg, h)
    ensures Fit(cfg, v, AfterPrepare(cfg, h, false))
  {
    hide HandlerOk, Basics;
    if !cfg.ownerEnergyBurn && h.need.Some? {
      StepUnordered(cfg, v, h, h.(pc := Rechecking(false)));
    } else {
      StepUnordered(cfg, v, h, h.(pc := Readying));
    }
  }

  lemma EstimateOk(cfg: Config, v: View, h: Handler, input: Input)
    requires TxOk(cfg, h.tx, v) && Fit(cfg, v, h) && h.pc.Estimating? && (cfg.sponsorEnergy || !Guarded(cfg, h.tx))
    ensures SensedOk(cfg, h.tx, v, SenseEstimate(cfg, v.trace, h, input))
  {
    hide TxOk, HandlerOk, Catch;
    BasicsOk(cfg, h.tx, v);
    NotCharged(cfg, v, h);
    assert v.(trace := v.trace) == v;
    match input
    case Estimated(energy) =>
      var next := SenseEstimate(cfg, v.trace, h, input).next;
      StepUnordered(cfg, v, h, next.value);
      SavingFits(cfg, v, next.value);
    case Fails(_) => InsufficientFit(cfg, v, h, Ordinary);
    case _ =>
  }

  lemma SavingFits(cfg: Config, v: View, h: Handler)
    requires HandlerOk(cfg, v, h) && h.pc.SavingEstimate? && NeedKnown(cfg, h)
    ensures Fit(cfg, v, h)
  {
    hide HandlerOk;
  }

  lemma DelegationOk(cfg: Config, v: View, h: Handler, input: Input)
    requires TxOk(cfg, h.tx, v) && Fit(cfg, v, h) && h.pc.Delegating?
    ensures SensedOk(cfg, h.tx, v, SenseDelegation(cfg, v.trace, h, input))
  {
    hide TxOk, HandlerOk, Catch, AfterPrepare;
    BasicsOk(cfg, h.tx, v);
    NotCharged(cfg, v, h);
    assert v.(trace := v.trace) == v;
    match input
    case NoInput => UnpaidFit(cfg, v, h);
    case Fails(err) =>
      if !err.Paid? {
        InsufficientFit(cfg, v, h, err);
      }
    case _ =>
  }

  lemma ListedRows(providers: map<ProviderId, Provider>, listing: seq<ProviderId>)
    requires ListsEnabled(providers, listing)
    ensures forall i :: 0 <= i < |listing| ==> listing[i] in providers
  {
  }

  /** The quoted package covers the shortfall. */
  lemma PlannedFit(cfg: Config, db: Db, v: View, h: Handler, available: nat, listing: seq<ProviderId>, quote: Quote)
    requires HandlerOk(cfg, v, h) && Basics(v) && EnergyOk(cfg, h) && h.pc.Planning?
    requires h.need.Some? && available < h.need.value && quote.Package?
    requires forall i :: 0 <= i < |listing| ==> listing[i] in db.providers
    requires IsQuote(cfg.registry, RowsListed(db.providers, listing), h.estimate, StrictMinimum(cfg, h.need.value,
      available), quote)
    ensures var shortfall := if cfg.ownerEnergyBurn then None else Some(h.need.value - available);
      Fit(cfg, v, h.(pc := Opening(Plan(h.estimate, quote.amount, shortfall))))
  {
    hide IsQuote, HandlerOk;
    var minimum := StrictMinimum(cfg, h.need.value, available);
    QuoteIsUnique(cfg.registry, RowsListed(db.providers, listing), h.estimate, minimum, quote, quote);
    var plan := Plan(h.estimate, quote.amount, if cfg.ownerEnergyBurn then None else Some(h.need.value - available));
    NotCharged(cfg, v, h);
    StepUnordered(cfg, v, h, h.(pc := Opening(plan)));
    assert PlanOk(cfg, plan);
  }

  lemma PlanningOk(cfg: Config, db: Db, v: View, h: Handler, input: Input)
    requires TxOk(cfg, h.tx, v) && Fit(cfg, v, h) && h.pc.Planning?
    ensures SensedOk(cfg, h.tx, v, SensePlan(cfg, db, v.trace, h, input))
  {
    hide TxOk, HandlerOk, Catch, AfterPrepare, ListsEnabled, IsQuote;
    BasicsOk(cfg, h.tx, v);
    NotCharged(cfg, v, h);
    assert v.(trace := v.trace) == v;
    match input
    case Quoted(available, listing, quote) =>
      if h.need.None? {
      } else if available >= h.need.value {
        UnpaidFit(cfg, v, h);
      } else if !ListsEnabled(db.providers, listing) {
      } else {
        ListedRows(db.providers, listing);
        var minimum := StrictMinimum(cfg, h.need.value, available);
        if !IsQuote(cfg.registry, RowsListed(db.providers, listing), h.estimate, minimum, quote) {
        } else if !quote.Package? || !P.ValidEnergyAmount(quote.amount) {
          InsufficientFit(cfg, v, h, Ordinary);
        } else {
          PlannedFit(cfg, db, v, h, available, listing, quote);
        }
      }
    case Fails(err) =>
      if !err.Paid? {
        InsufficientFit(cfg, v, h, err);
      }
    case _ =>
  }

  // ---- the order -------------------------------------------------------------------------------------

  lemma StepBuying(cfg: Config, v: View, h: Handler, pc: Pc)
    requires HandlerOk(cfg, v, h) && EnergyOk(cfg, h) && PhaseOf(h).Buying?
    requires var phase := PhaseOf(h.(pc := pc)); (phase.Buying? || (phase.Due? && Cause(v))) && !pc.Reserving?
    ensures HandlerOk(cfg, v, h.(pc := pc)) && EnergyOk(cfg, h.(pc := pc))
  {
    hide NotSent, MayBeCharged;
    NotCharged(cfg, v, h);
    NeedIsKnown(cfg, h);
    NeedSuffices(cfg, h, pc);
  }

  /** The view shows the order row as it is. */
  ghost predicate Seen(db: Db, t: TxId, v: View) {
    v.order == OrderIn(db, t)
  }

  lemma DuplicateFit(cfg: Config, v: View, h: Handler, state: OrderState)
    requires HandlerOk(cfg, v, h) && Basics(v) && EnergyOk(cfg, h) && PhaseOf(h).Buying?
    requires v.order.Some? && v.order.value.state == state
    ensures NextFit(cfg, v, Duplicate(cfg, h, state))
  {
    hide Catch, HandlerOk, Basics, EnergyOk;
    NotCharged(cfg, v, h);
    if state.Accepted? || state.Fulfilled? {
      StepBuying(cfg, v, h, Consuming(true));
    } else if state.Ordering? || state.Unknown? {
      StepBuying(cfg, v, h, Consuming(false));
    } else {
      OrdinaryFit(cfg, v, h);
    }
  }

  lemma ListDetail(cfg: Config, v: View, h: Handler)
    requires h.pc.Choosing? || h.pc.Attempting?
    requires ListOk(cfg, h.pc.plan, h.pc.rest) && (h.pc.Attempting? ==> h.pc.amount >= h.pc.plan.minimum)
    ensures DetailOk(cfg, v, h)
  {
    hide ListOk;
  }

  lemma ListOfDetail(cfg: Config, v: View, h: Handler)
    requires DetailOk(cfg, v, h)
    ensures h.pc.Choosing? || h.pc.Rereading? ==> ListOk(cfg, h.pc.plan, h.pc.rest)
    ensures h.pc.Listing? ==> PlanOk(cfg, h.pc.plan)
  {
    hide ListOk, PlanOk;
  }

  /** Every offer on the list reaches the quoted minimum. */
  lemma OffersReachMinimum(cfg: Config, providers: map<ProviderId, Provider>, listing: seq<ProviderId>, plan: Plan)
    requires forall i :: 0 <= i < |listing| ==> listing[i] in providers
    ensures OffersOk(Offers(cfg, providers, listing, plan), plan)
  {
    var offers := Offers(cfg, providers, listing, plan);
    forall i | 0 <= i < |offers| && offers[i].amount.Some?
      ensures offers[i].amount.value >= plan.minimum
    {
      assert offers[i].amount == Offered(cfg.registry, providers[listing[i]].adapter, plan.requested,
        Some(plan.minimum));
    }
  }

  lemma OffersFit(cfg: Config, v: View, h: Handler, plan: Plan, offers: seq<Offer>)
    requires HandlerOk(cfg, v, h) && EnergyOk(cfg, h) && h.pc.Listing? && PlanOk(cfg, plan)
    ensures OffersOk(offers, plan) ==> Fit(cfg, v, h.(pc := Choosing(plan, offers, false)))
  {
    hide HandlerOk, EnergyOk, DetailOk, OffersOk;
    StepBuying(cfg, v, h, Choosing(plan, offers, false));
    if OffersOk(offers, plan) {
      ListDetail(cfg, v, h.(pc := Choosing(plan, offers, false)));
    }
  }

  lemma ListingOk(cfg: Config, db: Db, v: View, h: Handler, plan: Plan, input: Input)
    requires TxOk(cfg, h.tx, v) && Fit(cfg, v, h) && h.pc == Listing(plan)
    ensures SensedOk(cfg, h.tx, v, SenseListing(cfg, db, v.trace, h, plan, input))
  {
    hide TxOk, HandlerOk, EnergyOk, DetailOk, Catch, ListsEnabled, Offers, OffersOk;
    BasicsOk(cfg, h.tx, v);
    NotCharged(cfg, v, h);
    ListOfDetail(cfg, v, h);
    assert v.(trace := v.trace) == v;
    match input
    case Listed(listing) =>
      if !ListsEnabled(db.providers, listing) {
      } else if listing == [] {
        StepBuying(cfg, v, h, RefusingOrder);
        PlainDetail(cfg, v, h.(pc := RefusingOrder));
      } else {
        ListedRows(db.providers, listing);
        OffersFit(cfg, v, h, plan, Offers(cfg, db.providers, listing, plan));
        OffersReachMinimum(cfg, db.providers, listing, plan);
      }
    case Fails(_) => OrdinaryFit(cfg, v, h);
    case _ =>
  }

  lemma ChoiceOk(cfg: Config, v: View, h: Handler, plan: Plan, rest: seq<Offer>, rejected: bool)
    requires TxOk(cfg, h.tx, v) && Fit(cfg, v, h) && h.pc == Choosing(plan, rest, rejected)
    ensures SensedOk(cfg, h.tx, v, SenseChoice(cfg, v.trace, h, plan, rest, rejected))
  {
    hide TxOk, HandlerOk, EnergyOk, DetailOk, Catch;
    BasicsOk(cfg, h.tx, v);
    NotCharged(cfg, v, h);
    ListOfDetail(cfg, v, h);
    assert v.(trace := v.trace) == v;
    if rest == [] {
      if rejected {
        OrdinaryFit(cfg, v, h);
      } else {
        StepBuying(cfg, v, h, Exhausted);
        PlainDetail(cfg, v, h.(pc := Exhausted));
      }
    } else if rest[0].amount.None? {
      var pc := Choosing(plan, rest[1..], rejected);
      StepBuying(cfg, v, h, pc);
      ListDetail(cfg, v, h.(pc := pc));
    } else {
      var pc := Attempting(plan, rest[0].provider, rest[0].amount.value, rest[1..], rejected);
      StepBuying(cfg, v, h, pc);
      ListDetail(cfg, v, h.(pc := pc));
    }
  }

  lemma AttemptOk(cfg: Config, v: View, h: Handler, amount: int)
    requires TxOk(cfg, h.tx, v) && Fit(cfg, v, h) && h.pc.Attempting?
    ensures SensedOk(cfg, h.tx, v, SenseAttempt(cfg, v.trace, h, amount))
  {
    hide TxOk, HandlerOk, Catch, NextFit;
    BasicsOk(cfg, h.tx, v);
    NotCharged(cfg, v, h);
    assert v.(trace := v.trace) == v;
    OrdinaryFit(cfg, v, h);
  }

  lemma RereadOk(cfg: Config, db: Db, v: View, h: Handler, plan: Plan, rest: seq<Offer>, rejected: bool, input: Input)
    requires TxOk(cfg, h.tx, v) && Fit(cfg, v, h) && h.pc == Rereading(plan, rest, rejected) && Seen(db, h.tx, v)
    ensures SensedOk(cfg, h.tx, v, SenseReread(cfg, db, v.trace, h, plan, rest, rejected, input))
  {
    hide TxOk, HandlerOk, EnergyOk, DetailOk, Catch, Duplicate;
    BasicsOk(cfg, h.tx, v);
    NotCharged(cfg, v, h);
    ListOfDetail(cfg, v, h);
    assert v.(trace := v.trace) == v;
    match input
    case NoInput =>
      if h.tx in db.orders && !db.orders[h.tx].state.Pending? && !db.orders[h.tx].state.Rejected? {
        DuplicateFit(cfg, v, h, db.orders[h.tx].state);
      } else {
        StepBuying(cfg, v, h, Choosing(plan, rest, rejected));
        ListDetail(cfg, v, h.(pc := Choosing(plan, rest, rejected)));
      }
    case Fails(_) => OrdinaryFit(cfg, v, h);
    case _ =>
  }

  lemma ExhaustedOk(cfg: Config, db: Db, v: View, h: Handler, input: Input)
    requires TxOk(cfg, h.tx, v) && Fit(cfg, v, h) && h.pc.Exhausted? && Seen(db, h.tx, v)
    ensures SensedOk(cfg, h.tx, v, SenseExhausted(cfg, db, v.trace, h, input))
  {
    hide TxOk, HandlerOk, EnergyOk, Catch, Duplicate;
    BasicsOk(cfg, h.tx, v);
    NotCharged(cfg, v, h);
    assert v.(trace := v.trace) == v;
    match input
    case NoInput =>
      if h.tx !in db.orders || db.orders[h.tx].state.Pending? {
        StepBuying(cfg, v, h, RefusingOrder);
      } else {
        DuplicateFit(cfg, v, h, db.orders[h.tx].state);
      }
    case Fails(_) => OrdinaryFit(cfg, v, h);
    case _ =>
  }

  // ---- the call ----------------------------------------------------------------------------------------

  /** A call made under its own budget row, for an amount that covers the shortfall. */
  lemma MadeCallKeepsTx(cfg: Config, v: View, h: Handler)
    requires TxOk(cfg, h.tx, v) && HandlerOk(cfg, v, h) && DetailOk(cfg, v, h) && h.pc.Ready?
    ensures var call := Call(h.pc.provider, h.pc.granted, h.pc.day, h.pc.plan.shortfall, InFlight);
      TxOk(cfg, h.tx, v.(trace := v.trace.(calls := v.trace.calls + [call])))
  {
    var call := Call(h.pc.provider, h.pc.granted, h.pc.day, h.pc.plan.shortfall, InFlight);
    var calls := v.trace.calls + [call];
    assert Covers(call);
    assert forall i :: 0 <= i < |v.trace.calls| ==> v.trace.calls[i].answer.SaidNo?;
    assert CallsAgreeWithLedger(calls, v.rows);
  }

  lemma MadeCallFit(cfg: Config, v: View, h: Handler, plan: Plan, p: ProviderId, rest: seq<Offer>, call: Call)
    requires Fit(cfg, v, h) && h.pc.Ready? && ListOk(cfg, plan, rest) && call.answer.InFlight?
    ensures Fit(cfg, v.(trace := v.trace.(calls := v.trace.calls + [call])), h.(pc := Calling(plan, p, rest)))
  {
    hide ListOk;
    var calls := v.trace.calls + [call];
    assert MayBeCharged(calls) by { assert calls[|calls| - 1] == call; }
    NotCharged(cfg, v, h);
    NeedIsKnown(cfg, h);
    NeedSuffices(cfg, h, Calling(plan, p, rest));
  }

  lemma ReadyOk(cfg: Config, v: View, h: Handler, plan: Plan, p: ProviderId, amount: nat, day: Day, rest: seq<Offer>,
      input: Input)
    requires TxOk(cfg, h.tx, v) && Fit(cfg, v, h) && h.pc == Ready(plan, p, amount, day, rest)
    ensures SensedOk(cfg, h.tx, v, SenseReady(v.trace, h, plan, p, amount, day, rest, input))
  {
    hide TxOk, HandlerOk, EnergyOk;
    assert v.(trace := v.trace) == v;
    match input
    case Deadline(passed) =>
      if passed {
        StepBuying(cfg, v, h, Refusing(plan, p, rest, true));
      } else {
        MadeCallKeepsTx(cfg, v, h);
        MadeCallFit(cfg, v, h, plan, p, rest, Call(p, amount, day, plan.shortfall, InFlight));
      }
    case _ =>
  }

  lemma AnswerKeepsTx(cfg: Config, t: TxId, v: View, answer: Answer)
    requires TxOk(cfg, t, v) && AwaitsAnswer(v)
    ensures var last := |v.trace.calls| - 1;
      TxOk(cfg, t, v.(trace := v.trace.(calls := v.trace.calls[last := v.trace.calls[last].(answer := answer)])))
  {
    var last := |v.trace.calls| - 1;
    var told := v.trace.calls[last := v.trace.calls[last].(answer := answer)];
    assert MayBeCharged(v.trace.calls) by { assert !v.trace.calls[last].answer.SaidNo?; }
    assert CallsAgreeWithLedger(told, v.rows);
    assert forall i :: 0 <= i < |told| ==> (Covers(told[i]) <==> Covers(v.trace.calls[i]));
  }

  /** The call was the last one, so an explicit rejection leaves nothing that may be charged. */
  lemma AnswerRejects(calls: seq<Call>, answer: Answer)
    requires calls != [] && (forall i :: 0 <= i < |calls| && !calls[i].answer.SaidNo? ==> i == |calls| - 1)
    ensures var told := calls[|calls| - 1 := calls[|calls| - 1].(answer := answer)];
      MayBeCharged(told) <==> !answer.SaidNo?
  {
    var last := |calls| - 1;
    var told := calls[last := calls[last].(answer := answer)];
    assert told[last].answer == answer;
  }

  lemma AnsweredOk(cfg: Config, v: View, v': View, h: Handler, answer: Answer, pc: Pc)
    requires HandlerOk(cfg, v, h) && EnergyOk(cfg, h) && h.pc.Calling? && v.order.Some?
    requires v' == v.(trace := v.trace.(calls := v'.trace.calls)) && (MayBeCharged(v'.trace.calls) <==> !answer.SaidNo?)
    requires if answer.SaidNo? then pc.Refusing? else pc.Accepting? || pc.Doubting?
    ensures HandlerOk(cfg, v', h.(pc := pc)) && EnergyOk(cfg, h.(pc := pc))
  {
    hide MayBeCharged;
    NotCharged(cfg, v, h);
    NeedIsKnown(cfg, h);
    NeedSuffices(cfg, h, pc);
  }

  /** Only the last call can be anything but rejected, and there is an order when there is a call. */
  lemma CallFacts(cfg: Config, t: TxId, v: View)
    requires TxOk(cfg, t, v)
    ensures v.trace.calls != [] ==> v.order.Some?
    ensures forall i :: 0 <= i < |v.trace.calls| && !v.trace.calls[i].answer.SaidNo? ==> i == |v.trace.calls| - 1
  {
  }

  lemma AnswerOk(cfg: Config, v: View, h: Handler, plan: Plan, p: ProviderId, rest: seq<Offer>, input: Input)
    requires TxOk(cfg, h.tx, v) && Fit(cfg, v, h) && h.pc == Calling(plan, p, rest)
    ensures SensedOk(cfg, h.tx, v, SenseAnswer(v.trace, h, plan, p, rest, input))
  {
    hide TxOk, HandlerOk, EnergyOk, MayBeCharged;
    match input
    case Answered(answer) =>
      if !answer.InFlight? && v.trace.calls != [] {
        var last := |v.trace.calls| - 1;
        var told := v.trace.calls[last := v.trace.calls[last].(answer := answer)];
        CallFacts(cfg, h.tx, v);
        AnswerKeepsTx(cfg, h.tx, v, answer);
        AnswerRejects(v.trace.calls, answer);
        AnsweredOk(cfg, v, v.(trace := v.trace.(calls := told)), h, answer, AfterAnswer(plan, p, rest, answer));
      }
    case _ =>
  }

  // ---- delivery and broadcast ------------------------------------------------------------------------------

  lemma StepSpent(cfg: Config, v: View, h: Handler, h': Handler)
    requires HandlerOk(cfg, v, h) && PhaseOf(h).Spent? && !h.charged && !h.forwarded
    requires PhaseOf(h').Spent? && !h'.pc.Reserving? && !h'.forwarded
    requires h'.charged ==> !h'.quota && h'.retain && h'.pc.Readying?
    ensures HandlerOk(cfg, v, h')
  {
  }

  lemma StepClear(cfg: Config, v: View, h: Handler, h': Handler)
    requires HandlerOk(cfg, v, h) && PhaseOf(h).Clear? && !h.charged && !h.forwarded
    requires PhaseOf(h').Clear? && !h'.pc.Reserving? && !h'.forwarded && !h'.charged && h'.quota == h.quota
    ensures HandlerOk(cfg, v, h')
  {
  }

  lemma NotForwarded(cfg: Config, v: View, h: Handler)
    requires HandlerOk(cfg, v, h)
    ensures h.forwarded ==> h.pc.Recording?
  {
  }

  /** The invariants do not look at the deliveries of a transaction that is there. */
  lemma ArrivalKeeps(cfg: Config, v: View, h: Handler, arrivals: seq<Arrival>)
    requires TxOk(cfg, h.tx, v) && HandlerOk(cfg, v, h) && h.pc.Confirming?
    ensures var seen := v.(trace := v.trace.(arrivals := arrivals)); TxOk(cfg, h.tx, seen) && HandlerOk(cfg, seen, h)
  {
  }

  lemma ArrivalOk(cfg: Config, v: View, h: Handler, input: Input)
    requires TxOk(cfg, h.tx, v) && Fit(cfg, v, h) && h.pc.Confirming?
    ensures SensedOk(cfg, h.tx, v, SenseArrival(cfg, v.trace, h, input))
  {
    hide TxOk, HandlerOk;
    NotCharged(cfg, v, h);
    NotForwarded(cfg, v, h);
    assert v.(trace := v.trace) == v;
    match input
    case Reading(available) =>
      var seen := v.trace.(arrivals := v.trace.arrivals + [Arrival(h.need, available, |v.trace.calls|)]);
      ArrivalKeeps(cfg, v, h, seen.arrivals);
      if h.need.Some? && (available >= h.need.value || cfg.ownerEnergyBurn) {
        StepSpent(cfg, v.(trace := seen), h, h.(reading := available, pc := Fulfilling));
      } else {
        StepSpent(cfg, v.(trace := seen), h, h.(reading := available));
      }
    case TimedOut => StepSpent(cfg, v, h, h.(pc := TimingOut));
    case _ =>
  }

  lemma RecheckFailsFit(cfg: Config, v: View, h: Handler, paid: bool)
    requires HandlerOk(cfg, v, h) && Basics(v) && h.pc == Rechecking(paid)
    ensures NextFit(cfg, v, Catch(cfg, h, if paid then Paid else Ordinary))
  {
    hide Catch, HandlerOk, Basics, NextFit;
    NotCharged(cfg, v, h);
    if paid {
      PaidFit(cfg, v, h);
    } else {
      OrdinaryFit(cfg, v, h);
    }
  }

  lemma ReadAgainOk(cfg: Config, v: View, h: Handler, reading: nat)
    requires HandlerOk(cfg, v, h)
    ensures HandlerOk(cfg, v, h.(reading := reading))
  {
    hide NotSent, MayBeCharged;
  }

  /** The reading that ends the recheck is the one the broadcast goes out on. */
  lemma PreparedFit(cfg: Config, v: View, h: Handler, paid: bool)
    requires HandlerOk(cfg, v, h) && h.pc == Rechecking(paid) && h.need.Some? && h.reading >= h.need.value
    ensures Fit(cfg, v, Prepared(h, paid))
  {
    hide HandlerOk;
    NotCharged(cfg, v, h);
    NotForwarded(cfg, v, h);
    if paid {
      StepSpent(cfg, v, h, Prepared(h, true));
    } else {
      StepClear(cfg, v, h, Prepared(h, false));
    }
  }

  lemma RecheckOk(cfg: Config, v: View, h: Handler, paid: bool, input: Input)
    requires TxOk(cfg, h.tx, v) && Fit(cfg, v, h) && h.pc == Rechecking(paid)
    ensures SensedOk(cfg, h.tx, v, SenseRecheck(cfg, v.trace, h, paid, input))
  {
    hide TxOk, HandlerOk, EnergyOk, Catch, Prepared;
    BasicsOk(cfg, h.tx, v);
    assert v.(trace := v.trace) == v;
    match input
    case Reading(available) =>
      var seen := h.(reading := available);
      ReadAgainOk(cfg, v, h, available);
      if h.need.Some? && available >= h.need.value {
        PreparedFit(cfg, v, seen, paid);
      } else {
        RecheckFailsFit(cfg, v, seen, paid);
      }
    case Fails(_) => RecheckFailsFit(cfg, v, h, paid);
    case _ =>
  }

  lemma LifetimeOk(cfg: Config, v: View, h: Handler, input: Input)
    requires TxOk(cfg, h.tx, v) && Fit(cfg, v, h) && h.pc.Readying?
    ensures SensedOk(cfg, h.tx, v, SenseLifetime(cfg, v.trace, h, input))
  {
    hide TxOk, HandlerOk, Catch, NextFit;
    BasicsOk(cfg, h.tx, v);
    assert v.(trace := v.trace) == v;
    if !h.charged {
      OrdinaryFit(cfg, v, h);
    }
  }

  lemma ForwardKeepsTx(cfg: Config, v: View, h: Handler, reply: UpstreamReply)
    requires TxOk(cfg, h.tx, v) && HandlerOk(cfg, v, h) && EnergyOk(cfg, h) && h.pc.Forwarding?
    ensures TxOk(cfg, h.tx, v.(trace := v.trace.(forwards := v.trace.forwards + [Forward(h.need, h.reading, reply)])))
  {
    var sent := v.trace.forwards + [Forward(h.need, h.reading, reply)];
    assert v.trace.forwards == [] && v.trace.released == 0;
    assert sent == [Forward(h.need, h.reading, reply)];
  }

  lemma SentFit(cfg: Config, v: View, h: Handler)
    requires v.request.Some? && !v.request.value.state.UpstreamAccepted?
    requires h.forwarded && h.pc.Recording? && (h.charged ==> !h.quota && h.retain)
    ensures Fit(cfg, v, h)
  {
  }

  /** After the attempt the catch block does nothing more. */
  lemma UncertainStops(cfg: Config, h: Handler)
    requires h.forwarded
    ensures Catch(cfg, h, Ordinary).None?
  {
  }

  lemma ForwardOk(cfg: Config, v: View, h: Handler, input: Input)
    requires TxOk(cfg, h.tx, v) && Fit(cfg, v, h) && h.pc.Forwarding?
    ensures SensedOk(cfg, h.tx, v, SenseForward(cfg, v.trace, h, input))
  {
    hide TxOk, Catch, EnergyOk;
    UncertainStops(cfg, h.(forwarded := true));
    match input
    case Upstream(reply) =>
      ForwardKeepsTx(cfg, v, h, reply);
      match reply {
        case Decided(accepted) =>
          var sent := v.trace.(forwards := v.trace.forwards + [Forward(h.need, h.reading, reply)]);
          SentFit(cfg, v.(trace := sent), h.(forwarded := true, pc := Recording(accepted)));
        case _ =>
      }
    case _ =>
  }

  lemma SenseOk(cfg: Config, db: Db, v: View, h: Handler, input: Input)
    requires TxOk(cfg, h.tx, v) && Fit(cfg, v, h) && (cfg.sponsorEnergy || !Guarded(cfg, h.tx)) && Seen(db, h.tx, v)
    ensures SensedOk(cfg, h.tx, v, Sense(cfg, db, v.trace, h, input))
  {
    hide TxOk, Fit, SensedOk, Guarded, Seen, SenseEstimate, SenseDelegation, SensePlan, SenseListing, SenseChoice,
        SenseAttempt, SenseReread,
      SenseExhausted, SenseReady, SenseAnswer, SenseArrival, SenseRecheck, SenseLifetime, SenseForward;
    match h.pc
    case Estimating => EstimateOk(cfg, v, h, input);
    case Delegating => DelegationOk(cfg, v, h, input);
    case Planning => PlanningOk(cfg, db, v, h, input);
    case Listing(plan) => ListingOk(cfg, db, v, h, plan, input);
    case Choosing(plan, rest, rejected) => ChoiceOk(cfg, v, h, plan, rest, rejected);
    case Attempting(_, _, amount, _, _) => AttemptOk(cfg, v, h, amount);
    case Rereading(plan, rest, rejected) => RereadOk(cfg, db, v, h, plan, rest, rejected, input);
    case Exhausted => ExhaustedOk(cfg, db, v, h, input);
    case Ready(plan, p, amount, day, rest) => ReadyOk(cfg, v, h, plan, p, amount, day, rest, input);
    case Calling(plan, p, rest) => AnswerOk(cfg, v, h, plan, p, rest, input);
    case Confirming => ArrivalOk(cfg, v, h, input);
    case Rechecking(paid) => RecheckOk(cfg, v, h, paid, input);
    case Readying => LifetimeOk(cfg, v, h, input);
    case Forwarding => ForwardOk(cfg, v, h, input);
    case _ => assert SensedOk(cfg, h.tx, v, Ignored) by { IgnoredOk(cfg, h.tx, v); }
  }

  lemma IgnoredOk(cfg: Config, t: TxId, v: View)
    ensures SensedOk(cfg, t, v, Ignored)
  {
  }
}
