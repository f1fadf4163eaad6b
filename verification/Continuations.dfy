/** What can still happen from a reachable state: who can leave prepare, who can buy, who can enter. */
module Continuations {
  import opened Options
  import opened Schema
  import opened EnergyPackages
  import opened Gateway
  import opened TxInvariant
  import opened WriteLemmas
  import opened Invariant
  import opened Safety
  import opened History
  import opened Claims
  import opened Prepare
  import opened Refunds
  import G = GatewayRepository
  import P = ProviderRepository
  import ResourceMath

  // ---- one state leading to another ---------------------------------------------------------------

  ghost predicate Leads(cfg: Config, s: State, s': State) {
    exists events :: s' == From(cfg, s, events)
  }

  lemma LeadsNowhere(cfg: Config, s: State)
    ensures Leads(cfg, s, s)
  {
    hide Next;
    assert From(cfg, s, []) == s;
  }

  lemma LeadsOn(cfg: Config, s: State, s': State, e: Event)
    requires Leads(cfg, s, s')
    ensures Leads(cfg, s, Next(cfg, s', e))
  {
    hide Next;
    var events :| s' == From(cfg, s, events);
    assert (events + [e])[..|events|] == events;
    assert From(cfg, s, events + [e]) == Next(cfg, s', e);
  }

  lemma {:induction false} FromFurther(cfg: Config, s: State, a: seq<Event>, b: seq<Event>)
    ensures From(cfg, From(cfg, s, a), b) == From(cfg, s, a + b)
  {
    hide Next;
    if b == [] {
      assert a + b == a;
    } else {
      FromFurther(cfg, s, a, b[..|b| - 1]);
      assert (a + b)[..|a + b| - 1] == a + b[..|b| - 1];
    }
  }

  lemma LeadsFurther(cfg: Config, s: State, s1: State, s2: State)
    requires Leads(cfg, s, s1) && Leads(cfg, s1, s2)
    ensures Leads(cfg, s, s2)
  {
    hide From;
    var a :| s1 == From(cfg, s, a);
    var b :| s2 == From(cfg, s1, b);
    FromFurther(cfg, s, a, b);
  }

  // ---- single steps ------------------------------------------------------------------------------------

  /** A step of one handler that changes no other transaction. */
  ghost predicate Only(s: State, s': State, i: nat, t: TxId) {
    && s'.up == s.up && s'.stripped == s.stripped
    && s'.db.claims == s.db.claims && s'.db.providers == s.db.providers
    && (forall j :: j != i ==> (j in s'.handlers <==> j in s.handlers))
    && (forall j :: j != i && j in s.handlers ==> s'.handlers[j] == s.handlers[j])
    && OnlyTx(s, s', t)
  }

  lemma OnlyFurther(a: State, b: State, c: State, i: nat, t: TxId)
    requires Only(a, b, i, t) && Only(b, c, i, t)
    ensures Only(a, c, i, t)
  {
    hide TxView;
  }

  /** A write that goes as it should. */
  lemma Acts(cfg: Config, s: State, i: nat, w: Write, input: Input, h': Handler)
    requires Reachable(cfg, s) && s.up && i in s.handlers && !s.handlers[i].late
    requires Intent(cfg, s.handlers[i], input) == Some(w) && !Apply(cfg, s.db, s.handlers[i].tx, w).1.Thrown?
    requires Resume(cfg, s.handlers[i], Apply(cfg, s.db, s.handlers[i].tx, w).1, input) == Some(h')
    ensures var s' := Next(cfg, s, Step(i, input, Acked));
      && Reachable(cfg, s') && s'.up && s'.stripped == s.stripped && OnlyTx(s, s', s.handlers[i].tx)
      && s'.db == Apply(cfg, s.db, s.handlers[i].tx, w).0 && s'.handlers == s.handlers[i := h']
  {
    hide Reachable, Next, Apply, Resume, Fail, Intent, Commit, WriteStep, Waits, RowsOf;
    var h := s.handlers[i];
    NextReachable(cfg, s, Step(i, input, Acked));
    WriterWaitsNot(cfg, s, i, input);
    StepIs(cfg, s, i, input, Acked);
    CommittedViews(cfg, s, h.tx, w, Acked);
    WriteStepIs(cfg, s, i, h, w, input, Acked);
  }

  lemma WriterWaitsNot(cfg: Config, s: State, i: nat, input: Input)
    requires i in s.handlers && Intent(cfg, s.handlers[i], input).Some?
    ensures !Waits(s, i)
  {
  }

  /** A write that throws without having been carried out. */
  lemma Misses(cfg: Config, s: State, i: nat, input: Input)
    requires Reachable(cfg, s) && s.up && i in s.handlers && !s.handlers[i].late
    requires Intent(cfg, s.handlers[i], input).Some? && !s.handlers[i].pc.Discarding?
    ensures var s', next := Next(cfg, s, Step(i, input, NotApplied)), Fail(cfg, s.handlers[i]);
      && Reachable(cfg, s') && s'.up && s'.stripped == s.stripped && s'.db == s.db && s'.history == s.history
      && s'.handlers == Place(s, i, next).handlers
  {
    hide Reachable, Next, Apply, Resume, Fail, Intent, Commit, WriteStep, Waits;
    var h := s.handlers[i];
    var w := Intent(cfg, h, input).value;
    NextReachable(cfg, s, Step(i, input, NotApplied));
    WriterWaitsNot(cfg, s, i, input);
    StepIs(cfg, s, i, input, NotApplied);
    CommitNothing(cfg, s, h.tx, w);
    WriteStepIs(cfg, s, i, h, w, input, NotApplied);
  }

  /** A reading, an answer or a call. */
  lemma Reads(cfg: Config, s: State, i: nat, input: Input, trace: Trace, next: Option<Handler>)
    requires Reachable(cfg, s) && s.up && i in s.handlers && !Waits(s, i)
    requires Intent(cfg, s.handlers[i], input).None?
    requires Sense(cfg, s.db, TraceOf(s, s.handlers[i].tx), s.handlers[i], input) == Moved(trace, next)
    ensures var s' := Next(cfg, s, Step(i, input, Acked));
      && Reachable(cfg, s') && s'.up && s'.stripped == s.stripped && s'.db == s.db
      && s'.handlers == Place(s, i, next).handlers && OnlyTx(s, s', s.handlers[i].tx)
      && TraceOf(s', s.handlers[i].tx) == trace
  {
    hide Reachable, Next, Intent, Sense, Waits, RowsOf;
    NextReachable(cfg, s, Step(i, input, Acked));
    StepIs(cfg, s, i, input, Acked);
    SenseStepIs(cfg, s, i, s.handlers[i], input);
  }

  // ---- leaving prepare -----------------------------------------------------------------------------------

  /** How many more steps it takes at most. */
  function WayOut(pc: Pc): nat {
    if pc.Choosing? then 2 + |pc.rest|
    else if pc.Calling? then 4
    else if pc.Accepting? then 3
    else if pc.Ready? || pc.Doubting? || pc.Confirming? || pc.Fulfilling? then 2
    else 1
  }

  /** The input that takes a handler out, if it is not a write that fails. */
  function OutInput(h: Handler): Input {
    match h.pc
    case Attempting(_, _, _, _, _) => Budgeted(0, true)
    case Listing(_) => Fails(Ordinary)
    case Rereading(_, _, _) => Fails(Ordinary)
    case Exhausted => Fails(Ordinary)
    case Ready(_, _, _, _, _) => Deadline(true)
    case Calling(_, _, _) => Answered(Unclear)
    case Confirming => TimedOut
    case Rechecking(_) => Fails(Ordinary)
    case _ => NoInput
  }

  ghost predicate Nearer(h: Handler, next: Option<Handler>) {
    next.Some? && InPrepare(next.value.pc) ==> WayOut(next.value.pc) < WayOut(h.pc)
  }

  lemma OutsideIsNearer(h: Handler, next: Option<Handler>)
    requires Outside(next)
    ensures Nearer(h, next)
  {
  }

  lemma FailIsNearer(cfg: Config, h: Handler)
    requires InPrepare(h.pc)
    ensures Nearer(h, Fail(cfg, h))
  {
    hide Catch, AfterPrepare, Nearer;
    CatchLeaves(cfg, h, Ordinary);
    CatchLeaves(cfg, h, Paid);
    OutsideIsNearer(h, Catch(cfg, h, Ordinary));
    OutsideIsNearer(h, Catch(cfg, h, Paid));
    PreparedLeaves(cfg, h, true);
    ShortWays(h, AfterPrepare(cfg, h, true));
  }

  lemma ShortWays(h: Handler, prepared: Handler)
    ensures h.pc.Accepting? ==> Nearer(h, Some(h.(pc := Doubting(h.pc.provider))))
    ensures h.pc.Doubting? ==> Nearer(h, Some(h.(pc := Consuming(false))))
    ensures h.pc.Fulfilling? && (prepared.pc == Rechecking(true) || !InPrepare(prepared.pc)) ==>
      Nearer(h, Some(prepared))
  {
  }

  /** A failed reading goes to the catch block. */
  lemma FailedReading(cfg: Config, db: Db, trace: Trace, h: Handler)
    requires h.pc.Listing? || h.pc.Rereading? || h.pc.Exhausted? || h.pc.Rechecking? || h.pc.Attempting?
    requires Intent(cfg, h, OutInput(h)).None?
    ensures Sense(cfg, db, trace, h, OutInput(h)) ==
      Moved(trace, Catch(cfg, h, if h.pc == Rechecking(true) then Paid else Ordinary))
  {
    hide Catch;
  }

  lemma ChosenIsNearer(h: Handler, pc: Pc)
    requires h.pc.Choosing?
    requires pc.Exhausted? || (h.pc.rest != [] && (pc.Attempting? || (pc.Choosing? && pc.rest == h.pc.rest[1..])))
    ensures Nearer(h, Some(h.(pc := pc)))
  {
  }

  lemma ChoosingIsNearer(cfg: Config, db: Db, trace: Trace, h: Handler)
    requires h.pc.Choosing?
    ensures var sensed := Sense(cfg, db, trace, h, OutInput(h)); sensed.Moved? && Nearer(h, sensed.next)
  {
    hide Catch, Nearer;
    var rest := h.pc.rest;
    if rest == [] {
      CatchLeaves(cfg, h, Ordinary);
      OutsideIsNearer(h, Catch(cfg, h, Ordinary));
      ChosenIsNearer(h, Exhausted);
    } else if rest[0].amount.None? {
      ChosenIsNearer(h, Choosing(h.pc.plan, rest[1..], h.pc.rejected));
    } else {
      ChosenIsNearer(h, Attempting(h.pc.plan, rest[0].provider, rest[0].amount.value, rest[1..], h.pc.rejected));
    }
  }

  lemma WaitingIsNearer(cfg: Config, db: Db, trace: Trace, h: Handler)
    requires h.pc.Ready? || h.pc.Calling? || h.pc.Confirming?
    requires h.pc.Calling? ==> trace.calls != []
    ensures var sensed := Sense(cfg, db, trace, h, OutInput(h)); sensed.Moved? && Nearer(h, sensed.next)
  {
  }

  lemma SenseIsNearer(cfg: Config, db: Db, trace: Trace, h: Handler)
    requires InPrepare(h.pc) && Intent(cfg, h, OutInput(h)).None? && (h.pc.Calling? ==> trace.calls != [])
    ensures var sensed := Sense(cfg, db, trace, h, OutInput(h)); sensed.Moved? && Nearer(h, sensed.next)
  {
    hide Catch, Sense, Nearer, OutInput;
    if h.pc.Choosing? {
      ChoosingIsNearer(cfg, db, trace, h);
    } else if h.pc.Ready? || h.pc.Calling? || h.pc.Confirming? {
      WaitingIsNearer(cfg, db, trace, h);
    } else {
      FailedReading(cfg, db, trace, h);
      CatchLeaves(cfg, h, Ordinary);
      CatchLeaves(cfg, h, Paid);
      OutsideIsNearer(h, Catch(cfg, h, Ordinary));
      OutsideIsNearer(h, Catch(cfg, h, Paid));
    }
  }

  lemma SenseKeepsCharge(cfg: Config, db: Db, trace: Trace, h: Handler)
    requires InPrepare(h.pc) && MayBeCharged(trace.calls)
    ensures var sensed := Sense(cfg, db, trace, h, OutInput(h));
      sensed.Moved? ==> MayBeCharged(sensed.trace.calls)
  {
    hide Catch, MayBeCharged;
    if h.pc.Calling? {
      AnswerLeads(trace, h, OutInput(h));
    } else {
      OutsSilent(cfg, db, trace, h);
    }
  }

  lemma OutsSilent(cfg: Config, db: Db, trace: Trace, h: Handler)
    requires InPrepare(h.pc) && !h.pc.Calling?
    ensures var sensed := Sense(cfg, db, trace, h, OutInput(h)); sensed.Moved? ==> sensed.trace == trace
  {
    hide Catch;
  }

  /** The tables and the other handlers are as they were, and what may be charged may still be. */
  ghost predicate Undisturbed(s: State, s': State, k: nat, t: TxId) {
    && s'.up == s.up && s'.stripped == s.stripped && s'.db == s.db
    && (forall j :: j != k ==> (j in s'.handlers <==> j in s.handlers))
    && (forall j :: j != k && j in s.handlers ==> s'.handlers[j] == s.handlers[j])
    && (forall u :: u != t ==> TraceOf(s', u) == TraceOf(s, u))
    && (MayBeCharged(TraceOf(s, t).calls) ==> MayBeCharged(TraceOf(s', t).calls))
  }

  /** One step of the handler k towards the way out. */
  lemma StepsOut(cfg: Config, s: State, k: nat) returns (e: Event)
    requires Reachable(cfg, s) && s.up && k in s.handlers && InPrepare(s.handlers[k].pc)
    ensures var s', t := Next(cfg, s, e), s.handlers[k].tx;
      && Reachable(cfg, s') && Undisturbed(s, s', k, t)
      && (k in s'.handlers ==> s'.handlers[k].tx == t)
      && (k in s'.handlers && InPrepare(s'.handlers[k].pc) ==>
            WayOut(s'.handlers[k].pc) < WayOut(s.handlers[k].pc))
  {
    hide Reachable, Next, Sense, Fail, Intent, InPrepare, WayOut, OutInput, MayBeCharged, RowsOf;
    var h := s.handlers[k];
    var input := OutInput(h);
    assert !h.late by { InsideIsLive(cfg, s, k); }
    InsideWaitsNot(s, k) by { InsidePlaces(h); }
    if Intent(cfg, h, input).Some? {
      e := Step(k, input, NotApplied);
      assert !h.pc.Discarding? by { InsidePlaces(h); }
      Misses(cfg, s, k, input);
      FailIsNearer(cfg, h);
      FailStays(cfg, h);
    } else {
      e := Step(k, input, Acked);
      assert h.pc.Calling? ==> TraceOf(s, h.tx).calls != [] by { WaitingHasCalled(cfg, s, k); }
      SenseIsNearer(cfg, s.db, TraceOf(s, h.tx), h);
      if MayBeCharged(TraceOf(s, h.tx).calls) {
        SenseKeepsCharge(cfg, s.db, TraceOf(s, h.tx), h);
      }
      var sensed := Sense(cfg, s.db, TraceOf(s, h.tx), h, input);
      Reads(cfg, s, k, input, sensed.trace, sensed.next);
      OthersTraces(s, Next(cfg, s, e), h.tx);
    }
  }

  lemma OthersTraces(s: State, s': State, t: TxId)
    requires OnlyTx(s, s', t)
    ensures forall u :: u != t ==> TraceOf(s', u) == TraceOf(s, u)
  {
    forall u | u != t
      ensures TraceOf(s', u) == TraceOf(s, u)
    {
      assert TxView(s', u) == TxView(s, u);
    }
  }

  lemma InsidePlaces(h: Handler)
    requires InPrepare(h.pc)
    ensures !h.pc.Planning? && !h.pc.Delegating? && !h.pc.Discarding? && !h.pc.CatchFailing?
  {
  }

  lemma InsideIsLive(cfg: Config, s: State, k: nat)
    requires Reachable(cfg, s) && k in s.handlers && InPrepare(s.handlers[k].pc)
    ensures !s.handlers[k].late
  {
    hide Reachable, TxsOk, Fit, InPrepare;
    InvHolds(cfg, s);
    assert HandlerWell(cfg, s, s.handlers[k]);
    InsidePlaces(s.handlers[k]);
  }

  lemma WaitingHasCalled(cfg: Config, s: State, k: nat)
    requires Reachable(cfg, s) && k in s.handlers && !s.handlers[k].late
    ensures s.handlers[k].pc.Calling? ==> TraceOf(s, s.handlers[k].tx).calls != []
  {
    hide Reachable, Unsold, Placed;
    OrderStandsAsKnown(cfg, s, k);
  }

  /** Whoever is inside prepare can leave it without another write being carried out. */
  lemma CanLeave(cfg: Config, s: State, k: nat) returns (s': State)
    requires Reachable(cfg, s) && s.up && k in s.handlers && InPrepare(s.handlers[k].pc)
    ensures Leads(cfg, s, s') && Reachable(cfg, s') && Undisturbed(s, s', k, s.handlers[k].tx)
    ensures k in s'.handlers ==> !InPrepare(s'.handlers[k].pc)
    decreases WayOut(s.handlers[k].pc)
  {
    hide Reachable, Next, InPrepare, WayOut, MayBeCharged, Leads, TraceOf;
    var e := StepsOut(cfg, s, k);
    s' := Next(cfg, s, e);
    LeadsNowhere(cfg, s);
    LeadsOn(cfg, s, s, e);
    if k in s'.handlers && InPrepare(s'.handlers[k].pc) {
      var s1 := s';
      s' := CanLeave(cfg, s1, k);
      LeadsFurther(cfg, s, s1, s');
    }
  }

  /** The mutex can become free for a handler. */
  lemma CanBeFree(cfg: Config, s: State, i: nat) returns (s': State)
    requires Reachable(cfg, s) && s.up && i in s.handlers
    ensures Leads(cfg, s, s') && Reachable(cfg, s') && s'.up && s'.stripped == s.stripped && s'.db == s.db
    ensures forall j :: j in s'.handlers && InPrepare(s'.handlers[j].pc) ==> j == i
    ensures i in s'.handlers && s'.handlers[i] == s.handlers[i]
  {
    hide Reachable, InPrepare, Leads, MayBeCharged;
    if k :| k in s.handlers && k != i && InPrepare(s.handlers[k].pc) {
      s' := CanLeave(cfg, s, k);
      forall j | j in s.handlers && j != k
        ensures !InPrepare(s.handlers[j].pc)
      {
        if InPrepare(s.handlers[j].pc) {
          OneHandlerInPrepare(cfg, s, j, k);
          assert false;
        }
      }
    } else {
      s' := s;
      LeadsNowhere(cfg, s);
    }
  }

  // ---- a market --------------------------------------------------------------------------------------------

  /** A provider of a type, and a day with room in the budget. */
  datatype Market = Market(provider: ProviderId, kind: nat, day: Day)

  /** A transaction's estimate, the energy its owner has, the package quoted for the rest, and the one sold. */
  datatype Sale = Sale(estimate: nat, available: nat, quote: nat, amount: nat)

  predicate OnlySeller(providers: map<ProviderId, Provider>, m: Market) {
    && m.provider in providers && providers[m.provider].enabled && providers[m.provider].adapter == m.kind
    && providers[m.provider].limits.maxEnergyPerOrder >= P.MAX_ENERGY_ORDER_AMOUNT
    && forall q :: q in providers && providers[q].enabled ==> q == m.provider
  }

  predicate Quotes(cfg: Config, m: Market, sale: Sale, need: nat) {
    && sale.available < need && P.ValidEnergyAmount(sale.estimate) && P.ValidEnergyAmount(need - sale.available)
    && Offered(cfg.registry, m.kind, sale.estimate, Some(need - sale.available)) == Some(sale.quote)
    && P.ValidEnergyAmount(sale.quote)
    && Offered(cfg.registry, m.kind, sale.estimate, Some(sale.quote)) == Some(sale.amount)
  }

  /** A handler can be sold the energy it is after: as far as it has got, the market has it. */
  predicate Prospect(cfg: Config, m: Market, sale: Sale, h: Handler) {
    && P.ValidEnergyAmount(sale.amount)
    && match h.pc
       case Reserving => Quotes(cfg, m, sale, ResourceMath.ApplySafetyBasisPoints(sale.estimate, cfg.safetyBps))
       case Estimating => Quotes(cfg, m, sale, ResourceMath.ApplySafetyBasisPoints(sale.estimate, cfg.safetyBps))
       case SavingEstimate => h.need.Some? && h.estimate == sale.estimate && Quotes(cfg, m, sale, h.need.value)
       case Planning => h.need.Some? && h.estimate == sale.estimate && Quotes(cfg, m, sale, h.need.value)
       case Opening(plan) =>
         plan.requested >= 0 && Offered(cfg.registry, m.kind, plan.requested, Some(plan.minimum)) == Some(sale.amount)
       case Listing(plan) => Offered(cfg.registry, m.kind, plan.requested, Some(plan.minimum)) == Some(sale.amount)
       case Choosing(_, rest, _) => rest != [] && rest[0] == Offer(m.provider, Some(sale.amount))
       case Rereading(_, rest, _) => rest != [] && rest[0] == Offer(m.provider, Some(sale.amount))
       case Attempting(_, p, amount, _, _) => p == m.provider && amount == sale.amount
       case _ => false
  }

  /** Everything is there for the handler to buy. */
  ghost predicate Shops(cfg: Config, s: State, i: nat, m: Market, sale: Sale) {
    && Reachable(cfg, s) && cfg.provider && Validated(cfg) && s.up
    && i in s.handlers && !s.handlers[i].late && s.handlers[i].tx.contract.TriggerSmartContract?
    && (forall j :: j in s.handlers && InPrepare(s.handlers[j].pc) ==> j == i)
    && OnlySeller(s.db.providers, m)
    && (s.handlers[i].tx, m.provider) !in s.db.ledger
    && P.Affordable(s.db, cfg.limits, m.provider, sale.amount, m.day)
    && Prospect(cfg, m, sale, s.handlers[i])
  }

  function Distance(pc: Pc): nat {
    if pc.Reserving? then 8 else if pc.Estimating? then 7 else if pc.SavingEstimate? then 6
    else if pc.Planning? then 5 else if pc.Opening? then 4 else if pc.Listing? || pc.Rereading? then 3
    else if pc.Choosing? then 2 else 1
  }

  /** The handler has come a step closer to its attempt, and nothing else has changed. */
  lemma Closer(cfg: Config, s: State, s': State, i: nat, h': Handler, m: Market, sale: Sale)
    requires Shops(cfg, s, i, m, sale) && Reachable(cfg, s') && s'.up && s'.stripped == s.stripped
    requires s'.handlers == s.handlers[i := h'] && h'.tx == s.handlers[i].tx && !h'.late
    requires s'.db.claims == s.db.claims && s'.db.providers == s.db.providers && s'.db.ledger == s.db.ledger
    requires OnlyTx(s, s', h'.tx) && Prospect(cfg, m, sale, h')
    ensures Shops(cfg, s', i, m, sale) && Only(s, s', i, h'.tx)
  {
    hide Reachable, TxView, Prospect, OnlySeller, P.OrdersOn, P.EnergyOn, P.RowsOfProvider, InPrepare;
  }

  // ---- from a reserved unit to an attempt ------------------------------------------------------------------------

  /** An administrator can always give an address another unit. */
  function RoomFor(db: Db, a: Address): Event {
    var cap := if a in db.bindings then db.bindings[a].used + db.bindings[a].reserved + 1 else 1;
    PutBinding(a, Some(Some(cap)), Some(None), Some(true))
  }

  lemma MakesRoom(cfg: Config, s: State, a: Address)
    requires Reachable(cfg, s)
    ensures var s' := Next(cfg, s, RoomFor(s.db, a));
      && Reachable(cfg, s') && s'.up == s.up && s'.stripped == s.stripped && s'.handlers == s.handlers
      && s'.history == s.history && s'.db == s.db.(bindings := s'.db.bindings)
      && a in s'.db.bindings && s'.db.bindings[a].enabled && s'.db.bindings[a].expiresAt.None?
      && s'.db.bindings[a].max.Some?
      && s'.db.bindings[a].used + s'.db.bindings[a].reserved < s'.db.bindings[a].max.value
  {
    hide Reachable, Raise;
    NextReachable(cfg, s, RoomFor(s.db, a));
  }

  lemma ReserveReplies(cfg: Config, db: Db, t: TxId)
    requires t.owner in db.bindings && db.bindings[t.owner].enabled && db.bindings[t.owner].expiresAt.None?
    requires db.bindings[t.owner].max.Some?
      && db.bindings[t.owner].used + db.bindings[t.owner].reserved < db.bindings[t.owner].max.value
    ensures var (after, reply) := Apply(cfg, db, t, ReserveUnit(0));
      reply.Yes? && after.claims == db.claims && after.providers == db.providers && after.ledger == db.ledger
  {
  }

  lemma RequestThereFor(cfg: Config, s: State, i: nat)
    requires Reachable(cfg, s) && i in s.handlers && !s.handlers[i].late
    ensures s.handlers[i].tx in s.db.requests
  {
    hide Reachable, TxsOk, DetailOk, EnergyOk, PhaseOk;
    InvHolds(cfg, s);
    assert HandlerWell(cfg, s, s.handlers[i]);
  }

  lemma SameViews(s: State, s': State, t: TxId)
    requires s'.history == s.history && s'.db == s.db.(bindings := s'.db.bindings)
    ensures OnlyTx(s, s', t)
  {
    forall u
      ensures TxView(s', u) == TxView(s, u)
    {
    }
  }

  /** One step closer. */
  ghost predicate Advanced(cfg: Config, s: State, s': State, i: nat, m: Market, sale: Sale)
    requires i in s.handlers
  {
    && Leads(cfg, s, s') && Shops(cfg, s', i, m, sale) && Only(s, s', i, s.handlers[i].tx)
    && s'.db.ledger == s.db.ledger && s'.handlers[i].tx == s.handlers[i].tx
    && Distance(s'.handlers[i].pc) < Distance(s.handlers[i].pc)
  }

  lemma Writes(cfg: Config, s: State, i: nat, m: Market, sale: Sale, w: Write, input: Input, h': Handler)
    requires Shops(cfg, s, i, m, sale) && Intent(cfg, s.handlers[i], input) == Some(w)
    requires var (after, reply) := Apply(cfg, s.db, s.handlers[i].tx, w);
      && !reply.Thrown? && Resume(cfg, s.handlers[i], reply, input) == Some(h')
      && after.claims == s.db.claims && after.providers == s.db.providers && after.ledger == s.db.ledger
    requires h'.tx == s.handlers[i].tx && !h'.late && Prospect(cfg, m, sale, h')
    requires Distance(h'.pc) < Distance(s.handlers[i].pc)
    ensures Advanced(cfg, s, Next(cfg, s, Step(i, input, Acked)), i, m, sale)
  {
    hide Reachable, Next, Apply, Resume, Intent, Leads, TxView, Prospect, P.Affordable, InPrepare, Only, Distance;
    Acts(cfg, s, i, w, input, h');
    LeadsNowhere(cfg, s);
    LeadsOn(cfg, s, s, Step(i, input, Acked));
    Closer(cfg, s, Next(cfg, s, Step(i, input, Acked)), i, h', m, sale);
  }

  lemma Sees(cfg: Config, s: State, i: nat, m: Market, sale: Sale, input: Input, h': Handler)
    requires Shops(cfg, s, i, m, sale) && Intent(cfg, s.handlers[i], input).None?
    requires var trace := TraceOf(s, s.handlers[i].tx);
      Sense(cfg, s.db, trace, s.handlers[i], input) == Moved(trace, Some(h'))
    requires h'.tx == s.handlers[i].tx && !h'.late && Prospect(cfg, m, sale, h')
    requires Distance(h'.pc) < Distance(s.handlers[i].pc)
    ensures Advanced(cfg, s, Next(cfg, s, Step(i, input, Acked)), i, m, sale)
  {
    hide Reachable, Next, Sense, Intent, Leads, TxView, Prospect, P.Affordable, InPrepare, Only, Distance, Waits;
    ShopperWaitsNot(cfg, s, i, m, sale);
    Reads(cfg, s, i, input, TraceOf(s, s.handlers[i].tx), Some(h'));
    LeadsNowhere(cfg, s);
    LeadsOn(cfg, s, s, Step(i, input, Acked));
    Closer(cfg, s, Next(cfg, s, Step(i, input, Acked)), i, h', m, sale);
  }

  lemma ShopperWaitsNot(cfg: Config, s: State, i: nat, m: Market, sale: Sale)
    requires Shops(cfg, s, i, m, sale)
    ensures !Waits(s, i)
  {
    hide Reachable, Prospect, P.Affordable;
  }

  lemma FromReserving(cfg: Config, s: State, i: nat, m: Market, sale: Sale) returns (s': State)
    requires Shops(cfg, s, i, m, sale) && s.handlers[i].pc.Reserving?
    ensures Advanced(cfg, s, s', i, m, sale)
  {
    hide Reachable, Next, Apply, Leads, P.Affordable, TxView, Quotes, InPrepare;
    var h := s.handlers[i];
    var s1 := Next(cfg, s, RoomFor(s.db, h.tx.owner));
    MakesRoom(cfg, s, h.tx.owner);
    SameViews(s, s1, h.tx);
    LeadsNowhere(cfg, s);
    LeadsOn(cfg, s, s, RoomFor(s.db, h.tx.owner));
    AffordableSame(cfg, s.db, s1.db, m, sale);
    Closer(cfg, s, s1, i, h, m, sale);
    ReserveReplies(cfg, s1.db, h.tx);
    Writes(cfg, s1, i, m, sale, ReserveUnit(0), Clock(0), h.(quota := true, pc := Estimating));
    s' := Next(cfg, s1, Step(i, Clock(0), Acked));
    LeadsFurther(cfg, s, s1, s');
    OnlyFurther(s, s1, s', i, h.tx);
  }

  lemma EstimateSensed(cfg: Config, m: Market, sale: Sale, db: Db, trace: Trace, h: Handler) returns (h': Handler)
    requires h.pc.Estimating? && cfg.provider && Validated(cfg) && h.tx.contract.TriggerSmartContract?
    requires Prospect(cfg, m, sale, h)
    ensures Sense(cfg, db, trace, h, Estimated(sale.estimate)) == Moved(trace, Some(h'))
    ensures h'.pc.SavingEstimate? && h'.tx == h.tx && h'.late == h.late && Prospect(cfg, m, sale, h')
  {
    hide Quotes;
    h' := h.(estimate := sale.estimate, pc := SavingEstimate,
      need := Some(ResourceMath.ApplySafetyBasisPoints(sale.estimate, cfg.safetyBps)));
  }

  lemma SaveReplies(cfg: Config, db: Db, t: TxId)
    ensures var (after, reply) := Apply(cfg, db, t, SaveEstimate);
      reply.Yes? && after.claims == db.claims && after.providers == db.providers && after.ledger == db.ledger
  {
  }

  lemma SavedShops(cfg: Config, m: Market, sale: Sale, h: Handler) returns (h': Handler)
    requires h.pc.SavingEstimate? && cfg.provider && Prospect(cfg, m, sale, h)
    ensures forall reply, input :: Resume(cfg, h, reply, input) == Some(h')
    ensures h'.pc.Planning? && h'.tx == h.tx && h'.late == h.late && Prospect(cfg, m, sale, h')
  {
    hide Quotes;
    h' := h.(pc := Planning);
  }

  lemma SoleListing(providers: map<ProviderId, Provider>, m: Market)
    requires OnlySeller(providers, m)
    ensures ListsEnabled(providers, [m.provider]) && RowsListed(providers, [m.provider]) == [providers[m.provider]]
  {
  }

  lemma SoleQuote(cfg: Config, m: Market, sale: Sale, row: Provider, need: nat)
    requires Quotes(cfg, m, sale, need) && row.adapter == m.kind
    requires row.limits.maxEnergyPerOrder >= P.MAX_ENERGY_ORDER_AMOUNT
    ensures IsQuote(cfg.registry, [row], sale.estimate, Some(need - sale.available), Package(sale.quote))
  {
    assert Compatible(cfg.registry, [row][0], sale.estimate, Some(need - sale.available), sale.quote);
  }

  lemma QuoteSensed(cfg: Config, m: Market, sale: Sale, db: Db, trace: Trace, h: Handler) returns (h': Handler)
    requires h.pc.Planning? && cfg.provider && Validated(cfg) && OnlySeller(db.providers, m)
    requires Prospect(cfg, m, sale, h)
    ensures Sense(cfg, db, trace, h, Quoted(sale.available, [m.provider], Package(sale.quote))) ==
      Moved(trace, Some(h'))
    ensures h'.pc.Opening? && h'.tx == h.tx && h'.late == h.late && Prospect(cfg, m, sale, h')
  {
    hide IsQuote, ListsEnabled;
    SoleListing(db.providers, m);
    SoleQuote(cfg, m, sale, db.providers[m.provider], h.need.value);
    h' := h.(pc := Opening(Plan(sale.estimate, sale.quote, Some(h.need.value - sale.available))));
  }

  lemma OpenReplies(cfg: Config, db: Db, t: TxId, requested: nat)
    requires t in db.requests && t !in db.orders
    ensures var (after, reply) := Apply(cfg, db, t, Write.OpenOrder(requested));
      reply.Yes? && after.claims == db.claims && after.providers == db.providers && after.ledger == db.ledger
  {
  }

  lemma OpenedShops(cfg: Config, m: Market, sale: Sale, h: Handler, input: Input)
    requires h.pc.Opening? && Prospect(cfg, m, sale, h)
    ensures Resume(cfg, h, Yes, input) == Some(h.(pc := Listing(h.pc.plan)))
    ensures Prospect(cfg, m, sale, h.(pc := Listing(h.pc.plan)))
  {
  }

  lemma OffersSensed(cfg: Config, m: Market, sale: Sale, db: Db, trace: Trace, h: Handler) returns (h': Handler)
    requires h.pc.Listing? && OnlySeller(db.providers, m) && Prospect(cfg, m, sale, h)
    ensures Sense(cfg, db, trace, h, Listed([m.provider])) == Moved(trace, Some(h'))
    ensures h'.pc.Choosing? && h'.tx == h.tx && h'.late == h.late && Prospect(cfg, m, sale, h')
  {
    hide ListsEnabled;
    SoleListing(db.providers, m);
    h' := h.(pc := Choosing(h.pc.plan, Offers(cfg, db.providers, [m.provider], h.pc.plan), false));
  }

  lemma ChoiceSensed(cfg: Config, m: Market, sale: Sale, db: Db, trace: Trace, h: Handler) returns (h': Handler)
    requires h.pc.Choosing? && Prospect(cfg, m, sale, h)
    ensures Sense(cfg, db, trace, h, NoInput) == Moved(trace, Some(h'))
    ensures h'.pc.Attempting? && h'.tx == h.tx && h'.late == h.late && Prospect(cfg, m, sale, h')
  {
    var pc := h.pc;
    h' := h.(pc := Attempting(pc.plan, pc.rest[0].provider, pc.rest[0].amount.value, pc.rest[1..], pc.rejected));
  }

  lemma RereadSensed(cfg: Config, m: Market, sale: Sale, db: Db, trace: Trace, h: Handler) returns (h': Handler)
    requires h.pc.Rereading? && Unsold(OrderIn(db, h.tx)) && Prospect(cfg, m, sale, h)
    ensures Sense(cfg, db, trace, h, NoInput) == Moved(trace, Some(h'))
    ensures h'.pc.Choosing? && h'.tx == h.tx && h'.late == h.late && Prospect(cfg, m, sale, h')
  {
    h' := h.(pc := Choosing(h.pc.plan, h.pc.rest, h.pc.rejected));
  }

  lemma FromWrite(cfg: Config, s: State, i: nat, m: Market, sale: Sale) returns (s': State)
    requires Shops(cfg, s, i, m, sale) && (s.handlers[i].pc.SavingEstimate? || s.handlers[i].pc.Opening?)
    ensures Advanced(cfg, s, s', i, m, sale)
  {
    hide Reachable, Next, Apply, Resume, Leads, P.Affordable, TxView, InPrepare, Advanced, Prospect;
    var h := s.handlers[i];
    s' := Next(cfg, s, Step(i, NoInput, Acked));
    if h.pc.SavingEstimate? {
      SaveReplies(cfg, s.db, h.tx);
      var h' := SavedShops(cfg, m, sale, h);
      Writes(cfg, s, i, m, sale, SaveEstimate, NoInput, h');
    } else {
      RequestThereFor(cfg, s, i);
      OrderStandsAsKnown(cfg, s, i);
      assert h.pc.plan.requested >= 0 by { OpeningProspect(cfg, m, sale, h); }
      OpenReplies(cfg, s.db, h.tx, h.pc.plan.requested);
      OpenedShops(cfg, m, sale, h, NoInput);
      Writes(cfg, s, i, m, sale, Write.OpenOrder(h.pc.plan.requested), NoInput, h.(pc := Listing(h.pc.plan)));
    }
  }

  lemma OpeningProspect(cfg: Config, m: Market, sale: Sale, h: Handler)
    requires h.pc.Opening? && Prospect(cfg, m, sale, h)
    ensures h.pc.plan.requested >= 0
  {
  }

  /** Places from which a reading takes the handler closer. */
  predicate Looking(pc: Pc) {
    pc.Estimating? || pc.Planning? || pc.Listing? || pc.Rereading? || pc.Choosing?
  }

  lemma FromSense(cfg: Config, s: State, i: nat, m: Market, sale: Sale) returns (s': State)
    requires Shops(cfg, s, i, m, sale)
    requires Looking(s.handlers[i].pc)
    ensures Advanced(cfg, s, s', i, m, sale)
  {
    hide Reachable, Next, Sense, Leads, P.Affordable, TxView, InPrepare, Advanced, Prospect, OnlySeller, Unsold;
    var h, trace := s.handlers[i], TraceOf(s, s.handlers[i].tx);
    var input := NoInput;
    var h';
    match h.pc {
      case Estimating =>
        input := Estimated(sale.estimate);
        h' := EstimateSensed(cfg, m, sale, s.db, trace, h);
      case Planning =>
        input := Quoted(sale.available, [m.provider], Package(sale.quote));
        h' := QuoteSensed(cfg, m, sale, s.db, trace, h);
      case Listing(_) =>
        input := Listed([m.provider]);
        h' := OffersSensed(cfg, m, sale, s.db, trace, h);
      case Rereading(_, _, _) =>
        OrderStandsAsKnown(cfg, s, i);
        h' := RereadSensed(cfg, m, sale, s.db, trace, h);
      case Choosing(_, _, _) => h' := ChoiceSensed(cfg, m, sale, s.db, trace, h);
    }
    Sees(cfg, s, i, m, sale, input, h');
    s' := Next(cfg, s, Step(i, input, Acked));
  }

  lemma ProspectPlaces(cfg: Config, m: Market, sale: Sale, h: Handler)
    requires Prospect(cfg, m, sale, h)
    ensures h.pc.Reserving? || h.pc.SavingEstimate? || h.pc.Opening? || h.pc.Attempting? || Looking(h.pc)
  {
  }

  /** The handler gets to its attempt, and nothing of other transactions changes on the way. */
  lemma GetsToAttempt(cfg: Config, s: State, i: nat, m: Market, sale: Sale) returns (s': State)
    requires Shops(cfg, s, i, m, sale)
    ensures Leads(cfg, s, s') && Shops(cfg, s', i, m, sale) && Only(s, s', i, s.handlers[i].tx)
    ensures s'.db.ledger == s.db.ledger && s'.handlers[i].tx == s.handlers[i].tx && s'.handlers[i].pc.Attempting?
    decreases Distance(s.handlers[i].pc)
  {
    hide Reachable, Next, Leads, P.Affordable, TxView, InPrepare, Prospect, OnlySeller, Distance, Only;
    ProspectPlaces(cfg, m, sale, s.handlers[i]);
    if s.handlers[i].pc.Attempting? {
      s' := s;
      LeadsNowhere(cfg, s);
      OnlyNothing(s, i, s.handlers[i].tx);
    } else {
      var s1;
      if s.handlers[i].pc.Reserving? {
        s1 := FromReserving(cfg, s, i, m, sale);
      } else if s.handlers[i].pc.SavingEstimate? || s.handlers[i].pc.Opening? {
        s1 := FromWrite(cfg, s, i, m, sale);
      } else {
        s1 := FromSense(cfg, s, i, m, sale);
      }
      s' := GetsToAttempt(cfg, s1, i, m, sale);
      LeadsFurther(cfg, s, s1, s');
      OnlyFurther(s, s1, s', i, s.handlers[i].tx);
    }
  }

  lemma OnlyNothing(s: State, i: nat, t: TxId)
    ensures Only(s, s, i, t)
  {
    hide TxView;
  }

  lemma AffordableSame(cfg: Config, before: Db, after: Db, m: Market, sale: Sale)
    requires after.providers == before.providers && after.ledger == before.ledger && m.provider in before.providers
    ensures P.Affordable(after, cfg.limits, m.provider, sale.amount, m.day)
      == P.Affordable(before, cfg.limits, m.provider, sale.amount, m.day)
  {
  }

  // ---- the attempt and the call ----------------------------------------------------------------------------------

  lemma NeverAttempted(cfg: Config, s: State, t: TxId, p: ProviderId)
    requires Reachable(cfg, s) && t in s.db.orders && (t, p) !in s.db.ledger
    ensures !Attempted(s.db.orders[t], p)
  {
    hide Reachable, CallsAgreeWithLedger, QuotaAgrees;
    TxHolds(cfg, s, t);
    RowKeys(s.db.ledger, t, p);
  }

  lemma Granted(cfg: Config, db: Db, t: TxId, m: Market, amount: nat)
    requires Unsold(OrderIn(db, t)) && OnlySeller(db.providers, m) && (t, m.provider) !in db.ledger
    requires !Attempted(db.orders[t], m.provider) && P.Affordable(db, cfg.limits, m.provider, amount, m.day)
    ensures var (after, reply) := Apply(cfg, db, t, StartAttempt(m.provider, amount, m.day));
      && reply.Yes? && OrderIsOpen(after, t) && after.claims == db.claims && after.providers == db.providers
      && after.ledger == db.ledger[(t, m.provider) := LedgerRow(m.day, amount, Reserved)]
  {
    hide P.Affordable;
  }

  lemma AttemptProspect(cfg: Config, m: Market, sale: Sale, h: Handler)
    requires h.pc.Attempting? && Prospect(cfg, m, sale, h)
    ensures Intent(cfg, h, Budgeted(m.day, true)) == Some(StartAttempt(m.provider, sale.amount, m.day))
    ensures Resume(cfg, h, Yes, Budgeted(m.day, true)) ==
      Some(h.(pc := Ready(h.pc.plan, m.provider, sale.amount, m.day, h.pc.rest)))
  {
    AttemptLeads(cfg, h, Yes, Budgeted(m.day, true));
  }

  /** Everything a handler at its attempt needs for the attempt to be granted. */
  lemma MayBuy(cfg: Config, s: State, i: nat, m: Market, sale: Sale)
    requires Shops(cfg, s, i, m, sale) && s.handlers[i].pc.Attempting?
    ensures var t := s.handlers[i].tx;
      var (after, reply) := Apply(cfg, s.db, t, StartAttempt(m.provider, sale.amount, m.day));
      && reply.Yes? && OrderIsOpen(after, t) && after.claims == s.db.claims && after.providers == s.db.providers
      && after.ledger == s.db.ledger[(t, m.provider) := LedgerRow(m.day, sale.amount, Reserved)]
  {
    hide Reachable, Apply, P.Affordable, OnlySeller, InPrepare, Prospect, Unsold;
    var t := s.handlers[i].tx;
    OrderStandsAsKnown(cfg, s, i);
    assert t in s.db.orders by { UnsoldIsThere(s.db, t); }
    NeverAttempted(cfg, s, t, m.provider);
    Granted(cfg, s.db, t, m, sale.amount);
  }

  lemma UnsoldIsThere(db: Db, t: TxId)
    requires Unsold(OrderIn(db, t))
    ensures t in db.orders
  {
  }

  /** The handler makes its call, and its order stays open. */
  lemma Buys(cfg: Config, s: State, i: nat, m: Market, sale: Sale) returns (s': State)
    requires Shops(cfg, s, i, m, sale)
    ensures var t := s.handlers[i].tx;
      && Leads(cfg, s, s') && Reachable(cfg, s') && Only(s, s', i, t)
      && i in s'.handlers && s'.handlers[i].tx == t && s'.handlers[i].pc.Calling?
      && OrderIsOpen(s'.db, t) && MayBeCharged(TraceOf(s', t).calls)
      && s'.db.ledger == s.db.ledger[(t, m.provider) := LedgerRow(m.day, sale.amount, Reserved)]
  {
    hide Reachable, Next, Apply, Resume, Intent, Sense, Leads, P.Affordable, TxView, InPrepare, Prospect, OnlySeller,
      Only, Waits, OrderIsOpen, MayBeCharged;
    var t := s.handlers[i].tx;
    var s1 := GetsToAttempt(cfg, s, i, m, sale);
    var h := s1.handlers[i];
    var input := Budgeted(m.day, true);
    MayBuy(cfg, s1, i, m, sale);
    AttemptProspect(cfg, m, sale, h);
    var h2 := h.(pc := Ready(h.pc.plan, m.provider, sale.amount, m.day, h.pc.rest));
    Acts(cfg, s1, i, StartAttempt(m.provider, sale.amount, m.day), input, h2);
    var s2 := Next(cfg, s1, Step(i, input, Acked));
    LeadsOn(cfg, s, s1, Step(i, input, Acked));
    OnlyOne(s1, s2, i, h2);
    OnlyFurther(s, s1, s2, i, t);
    var trace := CallSensed(cfg, s2.db, TraceOf(s2, t), h2);
    InsideWaitsNot(s2, i);
    var h3 := h2.(pc := Calling(h2.pc.plan, h2.pc.provider, h2.pc.rest));
    Reads(cfg, s2, i, Deadline(false), trace, Some(h3));
    s' := Next(cfg, s2, Step(i, Deadline(false), Acked));
    LeadsOn(cfg, s, s2, Step(i, Deadline(false), Acked));
    OnlyOne(s2, s', i, h3);
    OnlyFurther(s, s2, s', i, t);
  }

  lemma CallSensed(cfg: Config, db: Db, trace: Trace, h: Handler) returns (trace': Trace)
    requires h.pc.Ready?
    ensures Intent(cfg, h, Deadline(false)).None?
    ensures Sense(cfg, db, trace, h, Deadline(false)) ==
      Moved(trace', Some(h.(pc := Calling(h.pc.plan, h.pc.provider, h.pc.rest))))
    ensures MayBeCharged(trace'.calls)
  {
    var call := Call(h.pc.provider, h.pc.granted, h.pc.day, h.pc.plan.shortfall, InFlight);
    trace' := trace.(calls := trace.calls + [call]);
    assert trace'.calls[|trace.calls|] == call;
  }

  lemma OnlyOne(s: State, s': State, i: nat, h': Handler)
    requires i in s.handlers && s'.handlers == s.handlers[i := h'] && s'.up == s.up && s'.stripped == s.stripped
    requires s'.db.claims == s.db.claims && s'.db.providers == s.db.providers && OnlyTx(s, s', h'.tx)
    ensures Only(s, s', i, h'.tx)
  {
    hide TxView;
  }

  // ---- a market with one seller, and a newcomer ---------------------------------------------------------------

  function EnabledOthers(providers: map<ProviderId, Provider>, p: ProviderId): set<ProviderId> {
    set q | q in providers && providers[q].enabled && q != p
  }

  lemma PutsProvider(cfg: Config, s: State, p: ProviderId, row: Provider)
    requires Reachable(cfg, s)
    ensures var s' := Next(cfg, s, PutProvider(p, row));
      Reachable(cfg, s') && s' == s.(db := s.db.(providers := s.db.providers[p := row]))
  {
    hide Reachable;
    NextReachable(cfg, s, PutProvider(p, row));
  }

  /** An administrator can leave one provider as the only enabled one. */
  lemma CanBeOnly(cfg: Config, s: State, p: ProviderId, row: Provider) returns (s': State)
    requires Reachable(cfg, s) && row.enabled
    ensures Leads(cfg, s, s') && Reachable(cfg, s')
    ensures s' == s.(db := s.db.(providers := s'.db.providers))
    ensures p in s'.db.providers && s'.db.providers[p] == row
    ensures forall q :: q in s'.db.providers && s'.db.providers[q].enabled ==> q == p
    decreases EnabledOthers(s.db.providers, p)
  {
    hide Reachable, Next, Leads;
    LeadsNowhere(cfg, s);
    if q :| q in EnabledOthers(s.db.providers, p) {
      var off := s.db.providers[q].(enabled := false);
      PutsProvider(cfg, s, q, off);
      LeadsOn(cfg, s, s, PutProvider(q, off));
      var s1 := Next(cfg, s, PutProvider(q, off));
      assert EnabledOthers(s1.db.providers, p) == EnabledOthers(s.db.providers, p) - {q};
      s' := CanBeOnly(cfg, s1, p, row);
      LeadsFurther(cfg, s, s1, s');
    } else {
      PutsProvider(cfg, s, p, row);
      LeadsOn(cfg, s, s, PutProvider(p, row));
      s' := Next(cfg, s, PutProvider(p, row));
      assert forall q :: q in s.db.providers && s.db.providers[q].enabled && q != p ==>
        q in EnabledOthers(s.db.providers, p);
    }
  }

  lemma {:induction false} Above(numbers: set<nat>) returns (n: nat)
    ensures forall k :: k in numbers ==> k < n
  {
    if numbers == {} {
      n := 0;
    } else {
      var k :| k in numbers;
      var m := Above(numbers - {k});
      n := if k < m then m else k + 1;
      assert forall j :: j in numbers ==> j == k || j in numbers - {k};
    }
  }

  /** A smart-contract call of an address that the gateway has not seen. */
  lemma FreshTx(requests: map<TxId, Request>, a: Address) returns (u: TxId)
    ensures u !in requests && u.owner == a && u.contract.TriggerSmartContract?
  {
    var digests := set t | t in requests :: t.digest;
    var n := Above(digests);
    u := TxId(a, TriggerSmartContract, n);
    assert u in requests ==> u.digest in digests;
  }

  lemma Comes(cfg: Config, s: State, i: nat, u: TxId)
    requires Reachable(cfg, s) && s.up && cfg.provider && Validated(cfg)
    requires i !in s.handlers && u !in s.db.requests && u.contract.TriggerSmartContract?
    requires u.owner in s.db.bindings && s.db.bindings[u.owner].enabled && s.db.bindings[u.owner].expiresAt.None?
    ensures var s' := Next(cfg, s, Arrive(i, u, true, true, 0, Acked));
      && Reachable(cfg, s')
      && s' == s.(db := s.db.(requests := s.db.requests[u := Request(Received, false, None)]),
                  handlers := s.handlers[i := NewHandler(u)])
  {
    hide Reachable;
    NextReachable(cfg, s, Arrive(i, u, true, true, 0, Acked));
  }

  lemma ClaimReplies(cfg: Config, db: Db, u: TxId)
    requires u.owner !in db.claims && !G.HasOpenOrder(db, u.owner) && u in db.requests
    requires forall b :: b in db.claims ==> db.claims[b] != u
    ensures Apply(cfg, db, u, AcquireClaim) == (db.(claims := db.claims[u.owner := u]), Yes)
  {
  }

  /** A fresh transaction of an address without a claim and without an open order takes the claim. */
  lemma CanEnter(cfg: Config, s: State, a: Address) returns (s': State, i: nat, u: TxId)
    requires Reachable(cfg, s) && s.up && cfg.provider && Validated(cfg)
    requires a !in s.db.claims && !G.HasOpenOrder(s.db, a)
    ensures Leads(cfg, s, s') && Reachable(cfg, s') && s'.up && s'.stripped == s.stripped
    ensures i !in s.handlers && u !in s.db.requests && u.owner == a && u.contract.TriggerSmartContract?
    ensures i in s'.handlers && s'.handlers[i] == NewHandler(u).(claimed := true, pc := Reserving)
    ensures s'.handlers == s.handlers[i := s'.handlers[i]] && OnlyTx(s, s', u)
    ensures s'.db.ledger == s.db.ledger && s'.db.providers == s.db.providers
  {
    hide Reachable, Next, Leads, Apply, RowsOf;
    i := Above(s.handlers.Keys);
    u := FreshTx(s.db.requests, a);
    MakesRoom(cfg, s, a);
    LeadsNowhere(cfg, s);
    LeadsOn(cfg, s, s, RoomFor(s.db, a));
    var s1 := Next(cfg, s, RoomFor(s.db, a));
    Comes(cfg, s1, i, u);
    var arrival := Arrive(i, u, true, true, 0, Acked);
    LeadsOn(cfg, s, s1, arrival);
    var s2 := Next(cfg, s1, arrival);
    ClaimedAreThere(cfg, s);
    assert !G.HasOpenOrder(s2.db, a) by { SameOpenOrders(s.db, s2.db, a); }
    ClaimReplies(cfg, s2.db, u);
    var h := NewHandler(u);
    Acts(cfg, s2, i, AcquireClaim, NoInput, h.(claimed := true, pc := Reserving));
    s' := Next(cfg, s2, Step(i, NoInput, Acked));
    LeadsOn(cfg, s, s2, Step(i, NoInput, Acked));
    assert s'.handlers == s.handlers[i := s'.handlers[i]];
    NewcomerViews(s, s2, s', u);
  }

  lemma NewcomerViews(s: State, s2: State, s': State, u: TxId)
    requires s2.history == s.history && s2.db.orders == s.db.orders && s2.db.ledger == s.db.ledger
    requires s2.db.requests == s.db.requests[u := Request(Received, false, None)] && OnlyTx(s2, s', u)
    ensures OnlyTx(s, s', u)
  {
    hide RowsOf;
    forall v | v != u
      ensures TxView(s', v) == TxView(s, v)
    {
      assert TxView(s2, v) == TxView(s, v);
    }
  }

  lemma SameOpenOrders(before: Db, after: Db, a: Address)
    requires after.orders == before.orders
    ensures G.HasOpenOrder(after, a) <==> G.HasOpenOrder(before, a)
  {
  }

  lemma ClaimedAreThere(cfg: Config, s: State)
    requires Reachable(cfg, s)
    ensures ClaimsOk(s.db)
  {
    hide Run, ClaimsOk, PreparersOk, OpenIsClaimed;
    var events :| s == Run(cfg, events);
    RunClaims(cfg, events);
  }
}
