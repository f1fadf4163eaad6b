/**
 * What goes on inside prepare: one handler at a time is in there, and its place in orderEnergy says how its
 * order stands. So the duplicate results of orderEnergy never come up, and a unit goes back for known reasons.
 */
module Prepare {
  import opened Options
  import opened Schema
  import opened EnergyPackages
  import opened Gateway
  import opened TxInvariant
  import opened WriteLemmas
  import opened StepLemmas
  import opened Invariant
  import opened Safety
  import G = GatewayRepository
  import P = ProviderRepository

  // ---- the order of a handler --------------------------------------------------------------------

  predicate Unsold(o: Option<Order>) {
    o.Some? && (o.value.state.Pending? || o.value.state.Rejected?)
  }

  predicate Placed(o: Option<Order>, p: ProviderId) {
    o.Some? && o.value.state.Ordering? && o.value.provider == Some(p)
  }

  /** Places where the order has not been given to a provider. */
  predicate Shopping(pc: Pc) {
    pc.Listing? || pc.RefusingOrder? || pc.Choosing? || pc.Attempting? || pc.Rereading? || pc.Exhausted?
  }

  /** Places where it has, and no outcome is recorded. */
  predicate Dealing(pc: Pc) {
    pc.Ready? || pc.Calling? || pc.Refusing? || pc.Accepting?
  }

  predicate KnowsOrder(o: Option<Order>, h: Handler) {
    && (Shopping(h.pc) ==> Unsold(o))
    && (Dealing(h.pc) ==> Placed(o, h.pc.provider))
  }

  ghost predicate KnowsNext(o: Option<Order>, next: Option<Handler>) {
    next.Some? ==> KnowsOrder(o, next.value)
  }

  /** Places that a call which may have been charged leads to. */
  predicate Charging(pc: Pc) {
    pc.Calling? || pc.Accepting? || pc.Doubting?
  }

  predicate Uncharged(next: Option<Handler>) {
    next.Some? ==> !Charging(next.value.pc)
  }

  ghost predicate KnowsCharge(calls: seq<Call>, h: Handler) {
    Charging(h.pc) ==> MayBeCharged(calls)
  }

  ghost predicate Knows(v: View, h: Handler) {
    KnowsOrder(v.order, h) && KnowsCharge(v.trace.calls, h)
  }

  ghost predicate HandlersKnow(s: State) {
    forall i :: i in s.handlers && !s.handlers[i].late ==> Knows(TxView(s, s.handlers[i].tx), s.handlers[i])
  }

  /** The mutex of prepare. */
  ghost predicate OneInside(s: State) {
    forall i, j :: i in s.handlers && j in s.handlers && InPrepare(s.handlers[i].pc) && InPrepare(s.handlers[j].pc) ==>
      i == j
  }

  ghost predicate PrepareInv(s: State) {
    HandlersKnow(s) && OneInside(s)
  }

  // ---- where a step leads --------------------------------------------------------------------------

  /** Places outside prepare, of which nothing is known about the order. */
  predicate Outside(next: Option<Handler>) {
    next.Some? ==> !InPrepare(next.value.pc)
  }

  /** Places in prepare at which the order has been dealt with. */
  predicate Dealt(pc: Pc) {
    pc.Consuming? || pc.Confirming? || pc.Fulfilling? || pc.TimingOut? || pc.Rechecking?
  }

  /** A step from one place leads out of prepare, or to where the order has been dealt with. */
  predicate Leaves(h: Handler, next: Option<Handler>) {
    || Outside(next)
    || (InPrepare(h.pc) && Dealt(next.value.pc))
    || (h.pc.Accepting? && next.value.pc.Doubting?)
  }

  lemma LeavingKnows(o: Option<Order>, h: Handler, next: Option<Handler>)
    requires Leaves(h, next)
    ensures KnowsNext(o, next) && (Uncharged(next) || (h.pc.Accepting? && next.value.pc.Doubting?))
  {
  }

  lemma CatchLeaves(cfg: Config, h: Handler, err: Error)
    ensures Outside(Catch(cfg, h, err)) && Outside(CatchRest(cfg, h, err)) && Outside(CatchUnclaim(h))
  {
  }

  lemma PreparedLeaves(cfg: Config, h: Handler, paid: bool)
    ensures var pc := AfterPrepare(cfg, h, paid).pc; pc == Rechecking(paid) || !InPrepare(pc)
    ensures !InPrepare(Prepared(h, paid).pc)
  {
    if !cfg.ownerEnergyBurn && h.need.Some? {
    } else {
    }
  }

  lemma LateFailLeaves(cfg: Config, h: Handler)
    requires h.pc.Accepting? || h.pc.Doubting? || h.pc.Consuming? || h.pc.Fulfilling? || h.pc.TimingOut?
    ensures Leaves(h, Fail(cfg, h))
  {
    hide Catch, AfterPrepare;
    CatchLeaves(cfg, h, Paid);
    PreparedLeaves(cfg, h, true);
  }

  lemma CatchFailLeaves(cfg: Config, h: Handler)
    requires h.pc.Readying? || Ending(h.pc)
    ensures Outside(Fail(cfg, h))
  {
    hide Catch, CatchRest, CatchUnclaim;
    CatchLeaves(cfg, h, Ordinary);
    CatchLeaves(cfg, h.(quota := false), Paid);
  }

  lemma FailLeaves(cfg: Config, h: Handler)
    ensures Leaves(h, Fail(cfg, h))
    ensures !InPrepare(h.pc) ==> Outside(Fail(cfg, h))
  {
    hide Fail, Leaves, Outside;
    if h.pc.Accepting? || h.pc.Doubting? || h.pc.Consuming? || h.pc.Fulfilling? || h.pc.TimingOut? {
      LateFailLeaves(cfg, h);
    } else if h.pc.Readying? || Ending(h.pc) {
      CatchFailLeaves(cfg, h);
      OutsideLeaves(h, Fail(cfg, h));
    } else {
      FailIsCaught(cfg, h);
      CatchLeaves(cfg, h, Ordinary);
      OutsideLeaves(h, Fail(cfg, h));
    }
  }

  lemma OutsideLeaves(h: Handler, next: Option<Handler>)
    requires Outside(next)
    ensures Leaves(h, next)
  {
  }

  // ---- acknowledged writes -----------------------------------------------------------------------------

  lemma FirstLeaves(cfg: Config, h: Handler, reply: Reply, input: Input)
    requires h.pc.Claiming? || h.pc.Reserving? || h.pc.DroppingClaim? || h.pc.SavingEstimate? || h.pc.Readying?
    ensures Outside(Resume(cfg, h, reply, input))
  {
    hide InPrepare, Catch, CatchRest, CatchUnclaim, CatchConclude, Opened, Started, AfterPrepare;
    FirstPlaces();
    if h.pc.Claiming? && !reply.No? {
    } else if h.pc.Reserving? {
    } else {
    }
  }

  lemma FirstPlaces()
    ensures !InPrepare(Discarding) && !InPrepare(Reserving) && !InPrepare(Estimating) && !InPrepare(DroppingClaim)
    ensures !InPrepare(CachingReject) && !InPrepare(Planning) && !InPrepare(Delegating) && !InPrepare(Forwarding)
  {
  }

  lemma LastLeaves(cfg: Config, h: Handler, reply: Reply, input: Input)
    requires h.pc.CatchConsuming? || h.pc.CatchReleasing? || h.pc.CatchDropping?
    ensures Outside(Resume(cfg, h, reply, input))
  {
    hide Catch, CatchRest, CatchUnclaim;
    CatchLeaves(cfg, h, Ordinary);
    CatchLeaves(cfg, h.(quota := false), Paid);
  }

  lemma EarlyLeaves(cfg: Config, h: Handler, reply: Reply, input: Input)
    requires Intent(cfg, h, input).Some? && !InPrepare(h.pc)
    ensures Outside(Resume(cfg, h, reply, input))
  {
    hide Resume, Outside;
    if h.pc.Claiming? || h.pc.Reserving? || h.pc.DroppingClaim? || h.pc.SavingEstimate? || h.pc.Readying? {
      FirstLeaves(cfg, h, reply, input);
    } else if h.pc.CatchConsuming? || h.pc.CatchReleasing? || h.pc.CatchDropping? {
      LastLeaves(cfg, h, reply, input);
    } else {
      EndingResume(cfg, h, reply, input);
      assert Outside(None) by { NobodyIsOutside(); }
    }
  }

  lemma NobodyIsOutside()
    ensures Outside(None)
  {
  }

  lemma OrderedLeaves(cfg: Config, h: Handler, reply: Reply, input: Input)
    requires h.pc.Accepting? || h.pc.Doubting? || h.pc.Consuming? || h.pc.RefusingOrder?
    ensures Leaves(h, Resume(cfg, h, reply, input)) && Uncharged(Resume(cfg, h, reply, input))
  {
    hide Catch;
    CatchLeaves(cfg, h, Paid);
    CatchLeaves(cfg, h, Ordinary);
  }

  lemma DeliveredLeaves(cfg: Config, h: Handler, reply: Reply, input: Input)
    requires h.pc.Fulfilling? || h.pc.TimingOut?
    ensures Leaves(h, Resume(cfg, h, reply, input)) && Uncharged(Resume(cfg, h, reply, input))
  {
    hide Catch, AfterPrepare;
    CatchLeaves(cfg, h, Paid);
    PreparedLeaves(cfg, h, true);
  }

  lemma DealtLeaves(cfg: Config, h: Handler, reply: Reply, input: Input)
    requires Intent(cfg, h, input).Some?
    requires Dealt(h.pc) || h.pc.Accepting? || h.pc.Doubting? || h.pc.RefusingOrder?
    ensures Leaves(h, Resume(cfg, h, reply, input)) && Uncharged(Resume(cfg, h, reply, input))
  {
    hide Resume, Leaves, Uncharged;
    if h.pc.Fulfilling? || h.pc.TimingOut? {
      DeliveredLeaves(cfg, h, reply, input);
    } else {
      OrderedLeaves(cfg, h, reply, input);
    }
  }

  /** beginOrder makes the order, since there was none. */
  lemma OpeningKnows(cfg: Config, db: Db, h: Handler, input: Input)
    requires h.pc.Opening? && h.tx !in db.orders
    ensures var (after, reply) := Apply(cfg, db, h.tx, Write.OpenOrder(h.pc.plan.requested));
      !reply.Thrown? ==>
        && KnowsNext(OrderIn(after, h.tx), Resume(cfg, h, reply, input))
        && Resume(cfg, h, reply, input) == Some(h.(pc := Listing(h.pc.plan)))
        && Uncharged(Resume(cfg, h, reply, input))
  {
    hide Catch, Duplicate;
  }

  /** startAttempt places the order, or leaves everything as it is. */
  lemma AttemptPlaces(cfg: Config, db: Db, t: TxId, p: ProviderId, amount: nat, day: Day)
    requires Unsold(OrderIn(db, t))
    ensures var (after, reply) := Apply(cfg, db, t, StartAttempt(p, amount, day));
      (reply.Yes? && Placed(OrderIn(after, t), p)) || (reply.No? && after == db)
  {
    hide P.Affordable;
  }

  lemma AttemptLeads(cfg: Config, h: Handler, reply: Reply, input: Input)
    requires h.pc.Attempting? && input.Budgeted? && h.pc.amount >= 0 && (reply.Yes? || reply.No?)
    ensures Resume(cfg, h, reply, input) == Some(h.(pc :=
      if reply.No? then Rereading(h.pc.plan, h.pc.rest, h.pc.rejected)
      else if input.decrypts then Ready(h.pc.plan, h.pc.provider, h.pc.amount, input.day, h.pc.rest)
      else Refusing(h.pc.plan, h.pc.provider, h.pc.rest, false)))
  {
    hide Catch, Duplicate, AfterPrepare;
  }

  lemma AttemptKnows(cfg: Config, db: Db, h: Handler, input: Input)
    requires h.pc.Attempting? && input.Budgeted? && h.pc.amount >= 0 && KnowsOrder(OrderIn(db, h.tx), h)
    ensures var (after, reply) := Apply(cfg, db, h.tx, StartAttempt(h.pc.provider, h.pc.amount, input.day));
      KnowsNext(OrderIn(after, h.tx), Resume(cfg, h, reply, input)) && Uncharged(Resume(cfg, h, reply, input))
  {
    hide Apply, Resume, Placed, Unsold, OrderIn;
    AttemptPlaces(cfg, db, h.tx, h.pc.provider, h.pc.amount, input.day);
    AttemptLeads(cfg, h, Apply(cfg, db, h.tx, StartAttempt(h.pc.provider, h.pc.amount, input.day)).1, input);
  }

  /** markRejected always finds the order it is to reject. */
  lemma RejectionApplies(cfg: Config, db: Db, t: TxId, p: ProviderId)
    requires Placed(OrderIn(db, t), p) && P.ReservationOpen(db, t, p)
    ensures var (after, reply) := Apply(cfg, db, t, FinishAttempt(p, OrderState.Rejected));
      reply.Yes? && Unsold(OrderIn(after, t))
  {
  }

  lemma RefusedLeads(cfg: Config, h: Handler, reply: Reply, input: Input)
    requires h.pc.Refusing?
    ensures Resume(cfg, h, reply, input) ==
      if h.pc.final then Catch(cfg, h, Ordinary) else Some(h.(pc := Choosing(h.pc.plan, h.pc.rest, true)))
  {
    hide Catch;
  }

  lemma RefusingKnows(cfg: Config, db: Db, h: Handler, input: Input)
    requires h.pc.Refusing? && KnowsOrder(OrderIn(db, h.tx), h) && P.ReservationOpen(db, h.tx, h.pc.provider)
    ensures var (after, reply) := Apply(cfg, db, h.tx, FinishAttempt(h.pc.provider, OrderState.Rejected));
      && !reply.Thrown? && Unsold(OrderIn(after, h.tx))
      && KnowsNext(OrderIn(after, h.tx), Resume(cfg, h, reply, input)) && Uncharged(Resume(cfg, h, reply, input))
  {
    hide Catch, Apply, Resume, Unsold, Placed, OrderIn;
    CatchLeaves(cfg, h, Ordinary);
    RejectionApplies(cfg, db, h.tx, h.pc.provider);
    RefusedLeads(cfg, h, Apply(cfg, db, h.tx, FinishAttempt(h.pc.provider, OrderState.Rejected)).1, input);
  }

  /** A handler's write leaves it knowing how its order stands. */
  lemma WriteKnows(cfg: Config, db: Db, h: Handler, w: Write, input: Input)
    requires KnowsOrder(OrderIn(db, h.tx), h) && Intent(cfg, h, input) == Some(w)
    requires h.pc.Opening? ==> h.tx !in db.orders
    requires h.pc.Refusing? ==> P.ReservationOpen(db, h.tx, h.pc.provider)
    ensures var (after, reply) := Apply(cfg, db, h.tx, w);
      !reply.Thrown? ==>
        KnowsNext(OrderIn(after, h.tx), Resume(cfg, h, reply, input)) && Uncharged(Resume(cfg, h, reply, input))
  {
    hide Apply, Resume, KnowsOrder, OrderIn, Leaves, Outside, Uncharged;
    var (after, reply) := Apply(cfg, db, h.tx, w);
    if h.pc.Opening? {
      OpeningKnows(cfg, db, h, input);
    } else if h.pc.Attempting? {
      AttemptKnows(cfg, db, h, input);
    } else if h.pc.Refusing? {
      RefusingKnows(cfg, db, h, input);
    } else if InPrepare(h.pc) {
      DealtLeaves(cfg, h, reply, input);
      LeavingKnows(OrderIn(after, h.tx), h, Resume(cfg, h, reply, input));
    } else {
      EarlyLeaves(cfg, h, reply, input);
      OutsideLeaves(h, Resume(cfg, h, reply, input));
      OutsideUncharged(Resume(cfg, h, reply, input));
      LeavingKnows(OrderIn(after, h.tx), h, Resume(cfg, h, reply, input));
    }
  }

  lemma OutsideUncharged(next: Option<Handler>)
    requires Outside(next)
    ensures Uncharged(next)
  {
  }

  /** A write never leads into prepare. */
  lemma WriteEnters(cfg: Config, h: Handler, reply: Reply, input: Input)
    requires Intent(cfg, h, input).Some? && !InPrepare(h.pc)
    ensures Outside(Resume(cfg, h, reply, input)) && Outside(Fail(cfg, h)) && Outside(MarkLate(Fail(cfg, h)))
  {
    hide Resume, Fail, Intent;
    EarlyLeaves(cfg, h, reply, input);
    FailLeaves(cfg, h);
  }

  // ---- readings and answers --------------------------------------------------------------------------------

  lemma CatchKnows(cfg: Config, o: Option<Order>, h: Handler)
    ensures KnowsNext(o, Catch(cfg, h, Ordinary))
  {
    hide Catch;
    CatchLeaves(cfg, h, Ordinary);
  }

  /** Shopping goes on, or ends in the catch block. */
  ghost predicate ShopsOn(cfg: Config, h: Handler, sensed: Sensed) {
    sensed.Moved? ==>
      sensed.next == Catch(cfg, h, Ordinary) || (sensed.next.Some? && Shopping(sensed.next.value.pc))
  }

  lemma ShoppingKnows(cfg: Config, o: Option<Order>, h: Handler, sensed: Sensed)
    requires Unsold(o) && ShopsOn(cfg, h, sensed)
    ensures sensed.Moved? ==> KnowsNext(o, sensed.next) && Uncharged(sensed.next)
  {
    hide Catch, Unsold;
    CatchKnows(cfg, o, h);
    CatchLeaves(cfg, h, Ordinary);
  }

  lemma ListingShops(cfg: Config, db: Db, trace: Trace, h: Handler, plan: Plan, input: Input)
    ensures ShopsOn(cfg, h, SenseListing(cfg, db, trace, h, plan, input))
  {
    hide Catch, ListsEnabled, Offers;
  }

  lemma ChoiceShops(cfg: Config, trace: Trace, h: Handler, plan: Plan, rest: seq<Offer>, rejected: bool)
    ensures ShopsOn(cfg, h, SenseChoice(cfg, trace, h, plan, rest, rejected))
  {
    hide Catch;
  }

  lemma AttemptShops(cfg: Config, trace: Trace, h: Handler, amount: int)
    ensures ShopsOn(cfg, h, SenseAttempt(cfg, trace, h, amount))
  {
    hide Catch;
  }

  lemma RereadShops(cfg: Config, db: Db, trace: Trace, h: Handler, plan: Plan, rest: seq<Offer>, rejected: bool,
      input: Input)
    requires Unsold(OrderIn(db, h.tx))
    ensures ShopsOn(cfg, h, SenseReread(cfg, db, trace, h, plan, rest, rejected, input))
  {
    hide Catch, Duplicate;
  }

  lemma ExhaustedShops(cfg: Config, db: Db, trace: Trace, h: Handler, input: Input)
    requires Unsold(OrderIn(db, h.tx))
    ensures ShopsOn(cfg, h, SenseExhausted(cfg, db, trace, h, input))
  {
    hide Catch;
  }

  lemma ShopperKnows(cfg: Config, db: Db, trace: Trace, h: Handler, input: Input)
    requires Unsold(OrderIn(db, h.tx)) && Shopping(h.pc)
    ensures ShopsOn(cfg, h, Sense(cfg, db, trace, h, input))
  {
    hide ShopsOn, Unsold, OrderIn, SenseListing, SenseChoice, SenseAttempt, SenseReread, SenseExhausted;
    match h.pc
    case Listing(plan) => ListingShops(cfg, db, trace, h, plan, input);
    case Choosing(plan, rest, rejected) => ChoiceShops(cfg, trace, h, plan, rest, rejected);
    case Attempting(_, _, amount, _, _) => AttemptShops(cfg, trace, h, amount);
    case Rereading(plan, rest, rejected) => RereadShops(cfg, db, trace, h, plan, rest, rejected, input);
    case Exhausted => ExhaustedShops(cfg, db, trace, h, input);
    case _ =>
      NothingToSense(cfg, db, trace, h, input);
      IgnoredShops(cfg, h);
  }

  lemma IgnoredShops(cfg: Config, h: Handler)
    ensures ShopsOn(cfg, h, Ignored)
  {
  }

  ghost predicate ChargeNext(sensed: Sensed)
    requires sensed.Moved?
  {
    sensed.next.Some? ==> KnowsCharge(sensed.trace.calls, sensed.next.value)
  }

  lemma UnchargedCharges(sensed: Sensed)
    requires sensed.Moved? && Uncharged(sensed.next)
    ensures ChargeNext(sensed)
  {
  }

  lemma CallingKnows(cfg: Config, db: Db, trace: Trace, h: Handler, input: Input)
    requires KnowsOrder(OrderIn(db, h.tx), h) && (h.pc.Ready? || h.pc.Calling?)
    ensures var sensed := Sense(cfg, db, trace, h, input);
      sensed.Moved? ==> KnowsNext(OrderIn(db, h.tx), sensed.next) && ChargeNext(sensed)
  {
    hide OrderIn, Placed, Unsold, SenseReady, SenseAnswer, ChargeNext;
    if h.pc.Ready? {
      ReadyLeads(trace, h, input);
    } else {
      AnswerLeads(trace, h, input);
    }
  }

  lemma ReadyLeads(trace: Trace, h: Handler, input: Input)
    requires h.pc.Ready?
    ensures var sensed := SenseReady(trace, h, h.pc.plan, h.pc.provider, h.pc.granted, h.pc.day, h.pc.rest, input);
      sensed.Moved? ==>
        && ChargeNext(sensed)
        && (|| sensed.next == Some(h.(pc := Refusing(h.pc.plan, h.pc.provider, h.pc.rest, true)))
            || sensed.next == Some(h.(pc := Calling(h.pc.plan, h.pc.provider, h.pc.rest))))
  {
    if input.Deadline? && !input.passed {
      var call := Call(h.pc.provider, h.pc.granted, h.pc.day, h.pc.plan.shortfall, InFlight);
      assert (trace.calls + [call])[|trace.calls|] == call;
    }
  }

  lemma AnswerLeads(trace: Trace, h: Handler, input: Input)
    requires h.pc.Calling?
    ensures var sensed := SenseAnswer(trace, h, h.pc.plan, h.pc.provider, h.pc.rest, input);
      sensed.Moved? ==>
        && input.Answered? && ChargeNext(sensed)
        && sensed.next == Some(h.(pc := AfterAnswer(h.pc.plan, h.pc.provider, h.pc.rest, input.answer)))
  {
    if input.Answered? && !input.answer.InFlight? && trace.calls != [] {
      var last := |trace.calls| - 1;
      assert trace.calls[last := trace.calls[last].(answer := input.answer)][last].answer == input.answer;
    }
  }

  lemma ArrivalLeaves(cfg: Config, trace: Trace, h: Handler, input: Input)
    requires h.pc.Confirming?
    ensures var sensed := SenseArrival(cfg, trace, h, input);
      sensed.Moved? ==> Leaves(h, sensed.next) && Uncharged(sensed.next)
  {
  }

  lemma RecheckLeaves(cfg: Config, trace: Trace, h: Handler, paid: bool, input: Input)
    requires h.pc == Rechecking(paid)
    ensures var sensed := SenseRecheck(cfg, trace, h, paid, input);
      sensed.Moved? ==> Outside(sensed.next) && Uncharged(sensed.next)
  {
    hide Catch, Prepared;
    var seen := if input.Reading? then h.(reading := input.available) else h;
    CatchLeaves(cfg, h, Ordinary);
    CatchLeaves(cfg, h, Paid);
    CatchLeaves(cfg, seen, Ordinary);
    CatchLeaves(cfg, seen, Paid);
    PreparedLeaves(cfg, seen, paid);
  }

  lemma DeliveryLeaves(cfg: Config, db: Db, trace: Trace, h: Handler, input: Input)
    requires h.pc.Confirming? || h.pc.Rechecking?
    ensures var sensed := Sense(cfg, db, trace, h, input);
      sensed.Moved? ==> Leaves(h, sensed.next) && Uncharged(sensed.next)
  {
    hide SenseArrival, SenseRecheck, Uncharged, Outside;
    if h.pc.Confirming? {
      ArrivalLeaves(cfg, trace, h, input);
    } else {
      RecheckLeaves(cfg, trace, h, h.pc.paid, input);
    }
  }

  lemma PreparedKnows(cfg: Config, o: Option<Order>, h: Handler)
    ensures KnowsNext(o, Some(AfterPrepare(cfg, h, false))) && Uncharged(Some(AfterPrepare(cfg, h, false)))
  {
    hide AfterPrepare;
    PreparedLeaves(cfg, h, false);
  }

  lemma InsufficientKnows(cfg: Config, o: Option<Order>, h: Handler, err: Error)
    ensures KnowsNext(o, Catch(cfg, h, err)) && Uncharged(Catch(cfg, h, err))
  {
    hide Catch;
    CatchLeaves(cfg, h, err);
  }

  lemma OpeningKnowsNothing(o: Option<Order>, h: Handler, plan: Plan)
    ensures KnowsNext(o, Some(h.(pc := Opening(plan)))) && Uncharged(Some(h.(pc := Opening(plan))))
  {
  }

  lemma PlanKnows(cfg: Config, db: Db, trace: Trace, h: Handler, o: Option<Order>, input: Input)
    ensures var sensed := SensePlan(cfg, db, trace, h, input);
      sensed.Moved? ==> KnowsNext(o, sensed.next) && Uncharged(sensed.next)
  {
    hide Catch, ListsEnabled, IsQuote, AfterPrepare, KnowsNext, Uncharged;
    InsufficientKnows(cfg, o, h, Ordinary);
    match input
    case Fails(err) => InsufficientKnows(cfg, o, h, err);
    case Quoted(available, _, quote) =>
      PreparedKnows(cfg, o, h);
      if h.need.Some? && quote.Package? && available < h.need.value {
        var shortfall := if cfg.ownerEnergyBurn then None else Some(h.need.value - available);
        OpeningKnowsNothing(o, h, Plan(h.estimate, quote.amount, shortfall));
      }
    case _ =>
  }

  lemma DelegationKnows(cfg: Config, trace: Trace, h: Handler, o: Option<Order>, input: Input)
    ensures var sensed := SenseDelegation(cfg, trace, h, input);
      sensed.Moved? ==> KnowsNext(o, sensed.next) && Uncharged(sensed.next)
  {
    hide Catch, AfterPrepare, KnowsNext, Uncharged;
    PreparedKnows(cfg, o, h);
    if input.Fails? {
      InsufficientKnows(cfg, o, h, input.error);
    }
  }

  lemma PlanningKnows(cfg: Config, db: Db, trace: Trace, h: Handler, input: Input)
    requires h.pc.Planning? || h.pc.Delegating?
    ensures var sensed := Sense(cfg, db, trace, h, input);
      sensed.Moved? ==> KnowsNext(OrderIn(db, h.tx), sensed.next) && Uncharged(sensed.next)
  {
    hide SensePlan, SenseDelegation, KnowsNext, Uncharged, OrderIn;
    PlanKnows(cfg, db, trace, h, OrderIn(db, h.tx), input);
    DelegationKnows(cfg, trace, h, OrderIn(db, h.tx), input);
  }

  lemma SenseEnters(cfg: Config, db: Db, trace: Trace, h: Handler, input: Input)
    requires !InPrepare(h.pc) && !h.pc.Planning? && !h.pc.Delegating?
    ensures var sensed := Sense(cfg, db, trace, h, input); sensed.Moved? ==> Outside(sensed.next)
  {
    hide Catch, Outside, SenseEstimate, SenseLifetime, SenseForward;
    if h.pc.Estimating? || h.pc.Readying? || h.pc.Forwarding? {
      EdgeEnters(cfg, trace, h, input);
    }
  }

  lemma EdgeEnters(cfg: Config, trace: Trace, h: Handler, input: Input)
    ensures var sensed := SenseEstimate(cfg, trace, h, input); sensed.Moved? ==> Outside(sensed.next)
    ensures var sensed := SenseLifetime(cfg, trace, h, input); sensed.Moved? ==> Outside(sensed.next)
    ensures var sensed := SenseForward(cfg, trace, h, input); sensed.Moved? ==> Outside(sensed.next)
  {
    hide Catch;
    CatchLeaves(cfg, h, Ordinary);
    CatchLeaves(cfg, h.(forwarded := true), Ordinary);
  }

  lemma ShopperHasOrder(o: Option<Order>, h: Handler)
    requires KnowsOrder(o, h) && Shopping(h.pc)
    ensures Unsold(o)
  {
  }

  lemma SenseKnows(cfg: Config, db: Db, trace: Trace, h: Handler, input: Input)
    requires KnowsOrder(OrderIn(db, h.tx), h)
    ensures var sensed := Sense(cfg, db, trace, h, input);
      sensed.Moved? ==>
        && KnowsNext(OrderIn(db, h.tx), sensed.next) && ChargeNext(sensed)
        && (h.pc.Ready? || h.pc.Calling? || Uncharged(sensed.next))
  {
    hide Sense, KnowsOrder, OrderIn, Leaves, Outside, Uncharged, ChargeNext;
    var sensed := Sense(cfg, db, trace, h, input);
    if h.pc.Planning? || h.pc.Delegating? {
      PlanningKnows(cfg, db, trace, h, input);
    } else if Shopping(h.pc) {
      assert Unsold(OrderIn(db, h.tx)) by { ShopperHasOrder(OrderIn(db, h.tx), h); }
      ShopperKnows(cfg, db, trace, h, input);
      ShoppingKnows(cfg, OrderIn(db, h.tx), h, sensed);
    } else if h.pc.Ready? || h.pc.Calling? {
      CallingKnows(cfg, db, trace, h, input);
    } else if h.pc.Confirming? || h.pc.Rechecking? {
      DeliveryLeaves(cfg, db, trace, h, input);
      if sensed.Moved? {
        LeavingKnows(OrderIn(db, h.tx), h, sensed.next);
      }
    } else if !InPrepare(h.pc) {
      SenseEnters(cfg, db, trace, h, input);
      if sensed.Moved? {
        OutsideLeaves(h, sensed.next);
        OutsideUncharged(sensed.next);
        LeavingKnows(OrderIn(db, h.tx), h, sensed.next);
      }
    } else {
      NothingToSense(cfg, db, trace, h, input);
    }
    if sensed.Moved? && !h.pc.Ready? && !h.pc.Calling? {
      UnchargedCharges(sensed);
    }
  }

  lemma NothingToSense(cfg: Config, db: Db, trace: Trace, h: Handler, input: Input)
    requires InPrepare(h.pc) && !h.pc.Listing? && !h.pc.Choosing? && !h.pc.Attempting? && !h.pc.Rereading?
    requires !h.pc.Exhausted? && !h.pc.Ready? && !h.pc.Calling? && !h.pc.Confirming? && !h.pc.Rechecking?
    ensures Sense(cfg, db, trace, h, input) == Ignored
  {
  }

  // ---- every event ---------------------------------------------------------------------------------------------

  lemma FailedKeepsOrder(cfg: Config, db: Db, t: TxId)
    ensures OrderIn(Apply(cfg, db, t, Complete(Failed)).0, t) == OrderIn(db, t)
  {
  }

  lemma ViewOrder(s: State, t: TxId)
    ensures TxView(s, t).order == OrderIn(s.db, t)
  {
  }

  lemma WritesMakeNoCalls(cfg: Config, s: State, t: TxId, w: Write, fault: Fault)
    ensures TxView(Commit(cfg, s, t, w, fault), t).trace.calls == TxView(s, t).trace.calls
  {
    hide Apply;
  }

  /** A handler about to reject its attempt finds the budget row reserved. */
  lemma RefusedIsReserved(cfg: Config, s: State, t: TxId, p: ProviderId)
    requires Inv(cfg, s) && Placed(OrderIn(s.db, t), p)
    ensures P.ReservationOpen(s.db, t, p)
  {
    hide HandlersOk, CallsAgreeWithLedger, QuotaAgrees;
    assert TxOk(cfg, t, TxView(s, t));
    RowKeys(s.db.ledger, t, p);
  }

  /** Before beginOrder there is no order. */
  lemma OpeningHasNone(cfg: Config, s: State, id: nat)
    requires Inv(cfg, s) && id in s.handlers && !s.handlers[id].late && s.handlers[id].pc.Opening?
    ensures s.handlers[id].tx !in s.db.orders
  {
    hide TxOk, DetailOk, EnergyOk;
    assert HandlerWell(cfg, s, s.handlers[id]);
  }

  /** Where a write leaves its handler, it knows how its order stands. */
  lemma AfterWriteKnows(cfg: Config, db: Db, v: View, v': View, h: Handler, w: Write, input: Input, fault: Fault)
    requires Knows(v, h) && v.order == OrderIn(db, h.tx) && Intent(cfg, h, input) == Some(w)
    requires v'.order == OrderIn(if fault.NotApplied? then db else Apply(cfg, db, h.tx, w).0, h.tx)
    requires v'.trace.calls == v.trace.calls
    requires h.pc.Opening? ==> h.tx !in db.orders
    requires h.pc.Refusing? ==> P.ReservationOpen(db, h.tx, h.pc.provider)
    ensures var next := AfterWrite(cfg, db, h, w, input, fault);
      next.Some? && !next.value.late ==> Knows(v', next.value) && !next.value.pc.Calling?
  {
    hide Apply, Resume, Fail, Intent, KnowsOrder, MayBeCharged, OrderIn, Leaves;
    FailLeaves(cfg, h);
    LeavingKnows(v'.order, h, Fail(cfg, h));
    WriteKnows(cfg, db, h, w, input);
  }

  /** What the step leaves its own handler knowing. */
  lemma NextKnows(cfg: Config, s: State, h: Handler, w: Write, input: Input, fault: Fault)
    requires Inv(cfg, s) && !h.late && Knows(TxView(s, h.tx), h) && Intent(cfg, h, input) == Some(w)
    requires h.pc.Opening? ==> h.tx !in s.db.orders
    ensures var next := AfterWrite(cfg, s.db, h, w, input, fault);
      next.Some? && !next.value.late ==>
        Knows(TxView(Commit(cfg, s, h.tx, w, fault), h.tx), next.value) && !next.value.pc.Calling?
  {
    hide Inv, Apply, AfterWrite, Commit, Intent, KnowsOrder, KnowsCharge, OrderIn, TxView, After;
    var c := Commit(cfg, s, h.tx, w, fault);
    CommittedViews(cfg, s, h.tx, w, fault);
    WritesMakeNoCalls(cfg, s, h.tx, w, fault);
    ViewOrder(s, h.tx);
    ViewOrder(c, h.tx);
    if h.pc.Refusing? {
      assert Placed(OrderIn(s.db, h.tx), h.pc.provider) by { DealerHasOrder(OrderIn(s.db, h.tx), h); }
      RefusedIsReserved(cfg, s, h.tx, h.pc.provider);
    }
    AfterWriteKnows(cfg, s.db, TxView(s, h.tx), TxView(c, h.tx), h, w, input, fault);
  }

  lemma DealerHasOrder(o: Option<Order>, h: Handler)
    requires KnowsOrder(o, h) && Dealing(h.pc)
    ensures Placed(o, h.pc.provider)
  {
  }

  lemma WriteStepKnows(cfg: Config, s: State, id: nat, w: Write, input: Input, fault: Fault)
    requires Inv(cfg, s) && HandlersKnow(s) && id in s.handlers && Intent(cfg, s.handlers[id], input) == Some(w)
    ensures HandlersKnow(WriteStep(cfg, s, id, s.handlers[id], w, input, fault))
  {
    hide TxOk, Fit, Apply, AfterWrite, Commit, WriteStep, Intent, WorkersOk, BindingsThere, Knows, OrderIn, RowsOf,
      After;
    var h := s.handlers[id];
    var s' := WriteStep(cfg, s, id, h, w, input, fault);
    var c := Commit(cfg, s, h.tx, w, fault);
    CommittedViews(cfg, s, h.tx, w, fault);
    WriteStepIs(cfg, s, id, h, w, input, fault);
    NextStaysLate(cfg, s.db, h, w, input, fault);
    assert forall u :: TxView(s', u) == TxView(c, u);
    if h.late {
      assert HandlerWell(cfg, s, h);
      LateWrites(cfg, h, input);
    } else {
      if h.pc.Opening? {
        OpeningHasNone(cfg, s, id);
      }
      NextKnows(cfg, s, h, w, input, fault);
    }
    forall i | i in s'.handlers && !s'.handlers[i].late
      ensures Knows(TxView(s', s'.handlers[i].tx), s'.handlers[i])
    {
      if i != id {
        assert Knows(TxView(s, s.handlers[i].tx), s.handlers[i]);
        if s.handlers[i].tx == h.tx {
          FailedKeepsKnowing(cfg, s, h.tx, fault, s.handlers[i]);
        }
      }
    }
  }

  /** A late handler's write tells the handler at work nothing about its order. */
  lemma FailedKeepsKnowing(cfg: Config, s: State, t: TxId, fault: Fault, g: Handler)
    requires Knows(TxView(s, t), g)
    ensures Knows(TxView(Commit(cfg, s, t, Complete(Failed), fault), t), g)
  {
    hide Apply, Commit, KnowsOrder, KnowsCharge, OrderIn, RowsOf, After;
    var c := Commit(cfg, s, t, Complete(Failed), fault);
    CommittedViews(cfg, s, t, Complete(Failed), fault);
    WritesMakeNoCalls(cfg, s, t, Complete(Failed), fault);
    FailedKeepsOrder(cfg, s.db, t);
    ViewOrder(s, t);
    ViewOrder(c, t);
  }

  lemma NextStaysLate(cfg: Config, db: Db, h: Handler, w: Write, input: Input, fault: Fault)
    requires Intent(cfg, h, input) == Some(w)
    ensures var next := AfterWrite(cfg, db, h, w, input, fault);
      next.Some? ==> next.value.tx == h.tx && (h.late ==> next.value.late)
  {
    hide Apply, Resume, Fail, Intent;
    ResumeStays(cfg, h, Apply(cfg, db, h.tx, w).1, input);
    FailStays(cfg, h);
  }

  lemma SenseStepKnows(cfg: Config, s: State, id: nat, input: Input)
    requires Inv(cfg, s) && HandlersKnow(s) && id in s.handlers && Intent(cfg, s.handlers[id], input).None?
    ensures HandlersKnow(SenseStep(cfg, s, id, s.handlers[id], input))
  {
    hide TxOk, Fit, Sense, Intent, WorkersOk, BindingsThere, KnowsOrder, KnowsCharge, RowsOf;
    var h := s.handlers[id];
    assert HandlerWell(cfg, s, h);
    LateWrites(cfg, h, input);
    SenseKnows(cfg, s.db, TraceOf(s, h.tx), h, input);
    var s' := SenseStep(cfg, s, id, h, input);
    forall i | i in s'.handlers && !s'.handlers[i].late
      ensures Knows(TxView(s', s'.handlers[i].tx), s'.handlers[i])
    {
      if i != id {
        assert Knows(TxView(s, s.handlers[i].tx), s.handlers[i]);
      }
    }
  }

  /** A handler takes a step into prepare only when nobody is inside. */
  lemma PlacedInside(s: State, s': State, id: nat, next: Option<Handler>)
    requires OneInside(s) && id in s.handlers && s'.handlers == Place(s, id, next).handlers
    requires InPrepare(s.handlers[id].pc) || Outside(next) || forall j :: j in s.handlers ==>
      !InPrepare(s.handlers[j].pc)
    ensures OneInside(s')
  {
    hide InPrepare;
  }

  lemma WriteStepInside(cfg: Config, s: State, id: nat, w: Write, input: Input, fault: Fault)
    requires OneInside(s) && id in s.handlers && Intent(cfg, s.handlers[id], input) == Some(w)
    ensures OneInside(WriteStep(cfg, s, id, s.handlers[id], w, input, fault))
  {
    hide OneInside, Resume, Fail, MarkLate, Intent, Commit, Apply, WriteStep, Outside, InPrepare;
    var h := s.handlers[id];
    var s' := WriteStep(cfg, s, id, h, w, input, fault);
    CommittedViews(cfg, s, h.tx, w, fault);
    WriteStepIs(cfg, s, id, h, w, input, fault);
    if !InPrepare(h.pc) {
      WriteEnters(cfg, h, Apply(cfg, s.db, h.tx, w).1, input);
    }
    PlacedInside(s, s', id, AfterWrite(cfg, s.db, h, w, input, fault));
  }

  lemma SenseStepInside(cfg: Config, s: State, id: nat, input: Input)
    requires OneInside(s) && id in s.handlers && !Waits(s, id)
    ensures OneInside(SenseStep(cfg, s, id, s.handlers[id], input))
  {
    hide OneInside, Sense, SenseStep, Outside, InPrepare, Waits;
    var h := s.handlers[id];
    var sensed := Sense(cfg, s.db, TraceOf(s, h.tx), h, input);
    SenseStepIs(cfg, s, id, h, input);
    if sensed.Moved? {
      if h.pc.Planning? || h.pc.Delegating? {
        FreeToEnter(s, id);
      } else if !InPrepare(h.pc) {
        SenseEnters(cfg, s.db, TraceOf(s, h.tx), h, input);
      }
      PlacedInside(s, SenseStep(cfg, s, id, h, input), id, sensed.next);
    }
  }

  lemma SenseStepIs(cfg: Config, s: State, id: nat, h: Handler, input: Input)
    ensures var sensed, s' := Sense(cfg, s.db, TraceOf(s, h.tx), h, input), SenseStep(cfg, s, id, h, input);
      && (sensed.Ignored? ==> s' == s)
      && (sensed.Moved? ==>
          && s' == Place(WithTrace(s, h.tx, sensed.trace), id, sensed.next)
          && s'.handlers == Place(s, id, sensed.next).handlers && s'.db == s.db)
  {
    hide Sense;
  }

  lemma FreeToEnter(s: State, id: nat)
    requires id in s.handlers && !Waits(s, id) && (s.handlers[id].pc.Planning? || s.handlers[id].pc.Delegating?)
    ensures forall j :: j in s.handlers ==> !InPrepare(s.handlers[j].pc)
  {
    hide InPrepare;
  }

  /** A step that leaves the handlers in place, and what they know of their orders. */
  lemma KnownStays(s: State, s': State)
    requires PrepareInv(s)
    requires forall i :: i in s'.handlers ==> i in s.handlers && s'.handlers[i] == s.handlers[i]
    requires forall i :: i in s'.handlers && !s.handlers[i].late ==>
      && OrderIn(s'.db, s.handlers[i].tx) == OrderIn(s.db, s.handlers[i].tx)
      && TraceOf(s', s.handlers[i].tx) == TraceOf(s, s.handlers[i].tx)
    ensures PrepareInv(s')
  {
    hide KnowsOrder, KnowsCharge, OrderIn, RowsOf, TraceOf;
    forall i | i in s'.handlers && !s'.handlers[i].late
      ensures Knows(TxView(s', s'.handlers[i].tx), s'.handlers[i])
    {
      ViewOrder(s, s.handlers[i].tx);
      ViewOrder(s', s.handlers[i].tx);
      assert Knows(TxView(s, s.handlers[i].tx), s.handlers[i]);
    }
  }

  lemma OthersKeepOrders(cfg: Config, s: State, e: Event)
    requires !e.Step? && !e.Recover? && !e.Start?
    ensures Next(cfg, s, e).db.orders == s.db.orders
    ensures !e.Arrive? && !e.Crash? ==> Next(cfg, s, e).handlers == s.handlers
  {
    hide HandlerStep, ArriveStep, SweepStep, ListStaleStep, ListAwaitingStep, ConcludeStep, PutBindingStep,
      ResetBindingStep, PutProviderStep, MoveLeaseStep, CrashStep, G.MarkFinalized, G.ExpireRequest;
    WorkersKeepOrders(s, e);
    ConclusionKeepsOrders(s, e);
    SettingsKeepOrders(cfg, s, e);
    if e.Arrive? {
      ArrivalKeepsOrders(cfg, s, e);
    }
  }

  lemma WorkersKeepOrders(s: State, e: Event)
    ensures var s' := SweepStep(s); s'.db.orders == s.db.orders && s'.handlers == s.handlers
    ensures CrashStep(s).db == s.db
    ensures e.ListStale? ==> var s' := ListStaleStep(s, e.found); s'.db == s.db && s'.handlers == s.handlers
    ensures e.ListAwaiting? ==> var s' := ListAwaitingStep(s, e.found); s'.db == s.db && s'.handlers == s.handlers
  {
    hide Owned, Stale, Losses, G.Releasable;
  }

  lemma ConclusionKeepsOrders(s: State, e: Event)
    ensures e.Finalize? ==> var s' := ConcludeStep(s, e.tx, G.MarkFinalized(s.db, e.tx, e.success), e.fault);
      s'.db.orders == s.db.orders && s'.handlers == s.handlers
    ensures e.Expire? ==> var s' := ConcludeStep(s, e.tx, G.ExpireRequest(s.db, e.tx), e.fault);
      s'.db.orders == s.db.orders && s'.handlers == s.handlers
  {
    hide G.MarkFinalized, G.ExpireRequest;
    if e.Finalize? {
      FinalityOrders(s.db, e.tx, e.success);
    } else if e.Expire? {
      ExpiryOrders(s.db, e.tx);
    }
  }

  lemma FinalityOrders(db: Db, t: TxId, success: bool)
    ensures G.MarkFinalized(db, t, success).orders == db.orders
  {
  }

  lemma ExpiryOrders(db: Db, t: TxId)
    ensures G.ExpireRequest(db, t).orders == db.orders
  {
  }

  lemma SettingsKeepOrders(cfg: Config, s: State, e: Event)
    ensures e.PutBinding? ==> var s' := PutBindingStep(s, e.address, e.max, e.expiresAt, e.enabled);
      s'.db.orders == s.db.orders && s'.handlers == s.handlers
    ensures e.ResetBinding? ==> var s' := ResetBindingStep(cfg, s, e.address, e.max);
      s'.db.orders == s.db.orders && s'.handlers == s.handlers
    ensures e.PutProvider? ==> var s' := PutProviderStep(s, e.provider, e.row);
      s'.db.orders == s.db.orders && s'.handlers == s.handlers
    ensures e.MoveLease? ==> var s' := MoveLeaseStep(cfg, s, e.tx, e.leased);
      s'.db.orders == s.db.orders && s'.handlers == s.handlers
  {
    hide Raise, G.HasOpenPaidProviderActivity;
  }

  lemma ArrivalKeepsOrders(cfg: Config, s: State, e: Event)
    requires e.Arrive?
    ensures ArriveStep(cfg, s, e.id, e.tx, e.wellFormed, e.permitted, e.now, e.fault).db.orders == s.db.orders
  {
    hide Guarded, Usable, Sponsorable, NewHandler;
  }

  lemma ArrivalsEnterNot(cfg: Config, s: State, e: Event)
    requires e.Arrive?
    ensures var s' := ArriveStep(cfg, s, e.id, e.tx, e.wellFormed, e.permitted, e.now, e.fault);
      s'.handlers == s.handlers || (e.id !in s.handlers && s'.handlers == s.handlers[e.id := NewHandler(e.tx)])
  {
    hide Guarded, Usable, Sponsorable, NewHandler, G.BeginRequest;
  }

  lemma ArriveKnows(cfg: Config, s: State, e: Event)
    requires PrepareInv(s) && e.Arrive?
    ensures PrepareInv(Next(cfg, s, e))
  {
    hide ArriveStep, OneInside, HandlersKnow;
    ArrivalsEnterNot(cfg, s, e);
    OthersKeepOrders(cfg, s, e);
    OthersRecordNothing(cfg, s, e);
    var s' := Next(cfg, s, e);
    if s'.handlers == s.handlers {
      KnownStays(s, s');
    } else {
      KnownStays(s, s'.(handlers := s.handlers));
      NewcomerKnows(s'.(handlers := s.handlers), s', e.id, e.tx);
    }
  }

  lemma NewcomerKnows(s: State, s': State, id: nat, t: TxId)
    requires PrepareInv(s) && id !in s.handlers && s' == s.(handlers := s.handlers[id := NewHandler(t)])
    ensures PrepareInv(s')
  {
    hide RowsOf, KnowsOrder, KnowsCharge;
    NewKnows(t, TxView(s', t));
    forall i | i in s'.handlers && !s'.handlers[i].late
      ensures Knows(TxView(s', s'.handlers[i].tx), s'.handlers[i])
    {
      if i != id {
        assert Knows(TxView(s, s.handlers[i].tx), s.handlers[i]);
      }
    }
  }

  lemma NewKnows(t: TxId, v: View)
    ensures Knows(v, NewHandler(t))
  {
  }

  lemma RecoverKnows(cfg: Config, s: State, t: TxId, accepted: bool, fault: Fault)
    requires Inv(cfg, s) && PrepareInv(s)
    ensures PrepareInv(RecoverStep(cfg, s, t, accepted, fault))
  {
    hide TxsOk, HandlersOk, BindingsThere, Alone, Commit, Apply, PrepareInv, OrderIn, RowsOf, After;
    if s.up && t in s.stale {
      var left := s.(stale := s.stale - {t});
      var s' := RecoverStep(cfg, s, t, accepted, fault);
      CommittedViews(cfg, left, t, RecordOutcome(accepted), fault);
      assert !Owned(s, t);
      forall i | i in s'.handlers && !s.handlers[i].late
        ensures OrderIn(s'.db, s.handlers[i].tx) == OrderIn(s.db, s.handlers[i].tx)
        ensures TraceOf(s', s.handlers[i].tx) == TraceOf(s, s.handlers[i].tx)
      {
        var u := s.handlers[i].tx;
        ViewOrder(left, u);
        ViewOrder(s', u);
        assert TxView(Commit(cfg, left, t, RecordOutcome(accepted), fault), u) == TxView(left, u);
      }
      KnownStays(s, s');
    }
  }

  /** A step of a handler that does not wait is its next write, or the reading it takes. */
  lemma StepIs(cfg: Config, s: State, id: nat, input: Input, fault: Fault)
    requires s.up && id in s.handlers && !Waits(s, id)
    ensures var h, s' := s.handlers[id], Next(cfg, s, Step(id, input, fault));
      match Intent(cfg, h, input)
      case Some(w) => s' == WriteStep(cfg, s, id, h, w, input, fault)
      case None => s' == SenseStep(cfg, s, id, h, input)
  {
    hide Waits, WriteStep, SenseStep, Intent;
  }

  /** Nobody waits for the mutex once inside. */
  lemma InsideWaitsNot(s: State, id: nat)
    requires id in s.handlers && !s.handlers[id].pc.Planning? && !s.handlers[id].pc.Delegating?
    ensures !Waits(s, id)
  {
    hide InPrepare;
  }

  lemma StepPrepare(cfg: Config, s: State, id: nat, input: Input, fault: Fault)
    requires Inv(cfg, s) && PrepareInv(s) && !Waits(s, id)
    ensures PrepareInv(HandlerStep(cfg, s, id, input, fault))
  {
    hide Inv, HandlersKnow, OneInside, Waits, WriteStep, SenseStep, Intent;
    if id in s.handlers {
      var intent := Intent(cfg, s.handlers[id], input);
      if intent.Some? {
        WriteStepInside(cfg, s, id, intent.value, input, fault);
        WriteStepKnows(cfg, s, id, intent.value, input, fault);
      } else {
        SenseStepInside(cfg, s, id, input);
        SenseStepKnows(cfg, s, id, input);
      }
    }
  }

  lemma StartKnows(cfg: Config, s: State, fault: Fault)
    requires Inv(cfg, s) && PrepareInv(s)
    ensures PrepareInv(StartStep(s, fault))
  {
    hide PrepareInv, P.RecoverInterruptedOrders, TxsOk, HandlersOk, Alone, WorkersOk, BindingsThere;
    KnownStays(s, StartStep(s, fault));
  }

  lemma CrashKnows(s: State)
    requires PrepareInv(s)
    ensures PrepareInv(CrashStep(s))
  {
    hide PrepareInv;
    KnownStays(s, CrashStep(s));
  }

  lemma PrepareNext(cfg: Config, s: State, e: Event)
    requires Inv(cfg, s) && PrepareInv(s)
    ensures PrepareInv(Next(cfg, s, e))
  {
    if e.Step? {
      hide Inv, PrepareInv, Waits, HandlerStep;
      if s.up && !Waits(s, e.id) {
        StepPrepare(cfg, s, e.id, e.input, e.fault);
      }
    } else if e.Recover? {
      hide Inv, PrepareInv, RecoverStep;
      RecoverKnows(cfg, s, e.tx, e.accepted, e.fault);
    } else if e.Arrive? {
      hide Inv, PrepareInv, Next;
      ArriveKnows(cfg, s, e);
    } else if e.Start? {
      hide Inv, PrepareInv, StartStep;
      StartKnows(cfg, s, e.fault);
    } else if e.Crash? {
      hide Inv, PrepareInv, CrashStep;
      CrashKnows(s);
    } else {
      hide Inv, PrepareInv, Next;
      OthersKeepOrders(cfg, s, e);
      OthersRecordNothing(cfg, s, e);
      KnownStays(s, Next(cfg, s, e));
    }
  }

  lemma {:induction false} RunPrepare(cfg: Config, events: seq<Event>)
    ensures PrepareInv(Run(cfg, events))
  {
    if events != [] {
      hide Inv, Next, PrepareInv;
      var before := events[..|events| - 1];
      RunInv(cfg, before);
      RunPrepare(cfg, before);
      PrepareNext(cfg, Run(cfg, before), events[|events| - 1]);
    }
  }

  lemma PrepareHolds(cfg: Config, s: State)
    requires Reachable(cfg, s)
    ensures PrepareInv(s)
  {
    hide Run, PrepareInv;
    var events :| s == Run(cfg, events);
    RunPrepare(cfg, events);
  }

  /** At any time at most one handler is inside prepare. */
  lemma OneHandlerInPrepare(cfg: Config, s: State, i: nat, j: nat)
    requires Reachable(cfg, s) && i in s.handlers && j in s.handlers
    requires InPrepare(s.handlers[i].pc) && InPrepare(s.handlers[j].pc)
    ensures i == j
  {
    hide Reachable, InPrepare, HandlersKnow;
    PrepareHolds(cfg, s);
  }

  /**
   * A handler's place in orderEnergy says how its order stands: it is there and unsold while the handler goes
   * through the providers, it is with the handler's provider from startAttempt until an outcome is recorded,
   * and a call that may have been charged has been made once the handler is waiting for its answer or past it.
   */
  lemma OrderStandsAsKnown(cfg: Config, s: State, i: nat)
    requires Reachable(cfg, s) && i in s.handlers && !s.handlers[i].late
    ensures var h := s.handlers[i];
      && (h.pc.Opening? ==> h.tx !in s.db.orders)
      && (Shopping(h.pc) ==> Unsold(OrderIn(s.db, h.tx)))
      && (Dealing(h.pc) ==> Placed(OrderIn(s.db, h.tx), h.pc.provider))
      && (Charging(h.pc) ==> MayBeCharged(TraceOf(s, h.tx).calls))
  {
    hide Reachable, Inv, OneInside, Unsold, Placed, Shopping, Dealing, Charging;
    PrepareHolds(cfg, s);
    InvHolds(cfg, s);
    assert Knows(TxView(s, s.handlers[i].tx), s.handlers[i]);
    ViewOrder(s, s.handlers[i].tx);
    if s.handlers[i].pc.Opening? {
      OpeningHasNone(cfg, s, i);
    }
  }
}
