/**
 * What the gateway promises about money and broadcasts, for every finite run: any interleaving
 * of handlers, workers and administrators, any failed or unacknowledged write, any crash.
 */
module Safety {
  import opened Options
  import opened Schema
  import opened Totals
  import opened Gateway
  import opened TxInvariant
  import opened WriteLemmas
  import opened Invariant
  import opened Quota
  import opened Budget
  import opened Usage
  import G = GatewayRepository
  import P = ProviderRepository

  lemma TxHolds(cfg: Config, s: State, t: TxId)
    requires Reachable(cfg, s)
    ensures TxOk(cfg, t, TxView(s, t))
  {
    hide TxOk, HandlersOk, Alone, WorkersOk, BindingsThere, Idle, Run;
    var events :| s == Run(cfg, events);
    RunInv(cfg, events);
  }

  lemma InvHolds(cfg: Config, s: State)
    requires Reachable(cfg, s)
    ensures Inv(cfg, s) && QuotaInv(cfg, s) && BudgetInv(cfg, s)
  {
    hide Inv, QuotaInv, BudgetInv, Run;
    var events :| s == Run(cfg, events);
    RunQuota(cfg, events);
    RunBudget(cfg, events);
  }

  // ---- units of quota ----------------------------------------------------------------------------

  /**
   * Once a provider call was accepted, unclear or is still out, the unit reserved for the
   * transaction is never given back and is consumed at most once; until it is consumed it stays
   * reserved, in a state the recovery query selects.
   */
  lemma ChargedUnitIsNeverReleased(cfg: Config, s: State, t: TxId)
    requires cfg.provider && Validated(cfg) && Reachable(cfg, s)
    requires MayBeCharged(TraceOf(s, t).calls)
    ensures var trace := TraceOf(s, t);
      && trace.reserved == 1 && trace.released == 0 && trace.consumed <= 1
      && (trace.consumed == 0 <==> Flagged(s.db, t))
      && (Flagged(s.db, t) ==> Stale(s.db.requests[t]))
  {
    hide Reachable, OrderAgreesWithLedger, CallsAgreeWithLedger, MayBeCharged;
    TxHolds(cfg, s, t);
  }

  /**
   * The other way round, a unit is counted as used only for a transaction whose provider may
   * have charged, whose order stands, or whose broadcast was accepted.
   */
  lemma UsedUnitHasCause(cfg: Config, s: State, t: TxId)
    requires Reachable(cfg, s) && TraceOf(s, t).consumed > 0
    ensures || MayBeCharged(TraceOf(s, t).calls)
            || (t in s.db.orders && Billable(s.db.orders[t].state))
            || TraceOf(s, t).accepted > 0
  {
    hide Reachable, OrderAgreesWithLedger, CallsAgreeWithLedger, MayBeCharged;
    TxHolds(cfg, s, t);
  }

  /** Units are conserved: each reservation is settled exactly once, or still held where recovery finds it. */
  lemma UnitsAreConserved(cfg: Config, s: State, t: TxId)
    requires Reachable(cfg, s)
    ensures var trace := TraceOf(s, t);
      && trace.reserved <= 1
      && trace.reserved == trace.consumed + trace.released + (if Flagged(s.db, t) then 1 else 0)
      && (Flagged(s.db, t) ==> Stale(s.db.requests[t]))
  {
    hide Reachable, OrderAgreesWithLedger, CallsAgreeWithLedger, MayBeCharged;
    TxHolds(cfg, s, t);
  }

  /** The reserved counter of an address counts its unsettled requests, so it never runs below them. */
  lemma ReservedCountsHeldUnits(cfg: Config, s: State, a: Address)
    requires Reachable(cfg, s)
    ensures ReservedOf(s.db, a) == |set t | t in s.db.requests && t.owner == a && s.db.requests[t].quotaReserved|
    ensures forall t :: Flagged(s.db, t) ==> t.owner in s.db.bindings && s.db.bindings[t.owner].reserved >= 1
  {
    hide Reachable, Inv, Within, BudgetInv;
    InvHolds(cfg, s);
    assert ReservedOf(s.db, a) == Total(FlagWeights(s.db, a));
    WeightsCount(FlagWeights(s.db, a), set t | t in s.db.requests && t.owner == a && s.db.requests[t].quotaReserved);
    forall t | Flagged(s.db, t)
      ensures t.owner in s.db.bindings && s.db.bindings[t.owner].reserved >= 1
    {
      HeldIsCounted(s.db, t);
    }
  }

  /** The used counter of an address is the number of units consumed for it, less what resets have cleared. */
  lemma UsedCountsConsumedUnits(cfg: Config, s: State, a: Address)
    requires Reachable(cfg, s)
    ensures UsedOf(s.db, a) + WrittenOff(s, a) ==
      Total(map t | t in s.history :: if t.owner == a then s.history[t].consumed else 0)
  {
    hide Run, Total;
    var events :| s == Run(cfg, events);
    RunUsage(cfg, events);
    assert Counter(s, a) == Total(ConsumedWeights(s.history, a));
  }

  /** A map of zeros and ones adds up to the number of its ones. */
  lemma {:induction false} WeightsCount<K>(m: map<K, nat>, ones: set<K>)
    requires forall k :: k in ones <==> k in m && m[k] == 1
    requires forall k :: k in m ==> m[k] <= 1
    ensures Total(m) == |ones|
    decreases |m|
  {
    if m == map[] {
      assert ones == {};
    } else {
      var k :| k in m;
      TotalSplit(m, k);
      RemoveShrinks(m, k);
      WeightsCount(m - {k}, ones - {k});
      if m[k] == 1 {
        assert ones == (ones - {k}) + {k};
      } else {
        assert ones - {k} == ones;
      }
    }
  }

  ghost function Unsettled(db: Db): set<TxId> {
    set t | t in db.requests && db.requests[t].quotaReserved
  }

  /**
   * Recovery of an idle request takes exactly that request out of the unsettled ones. It counts
   * the unit as used if the broadcast went through or the order is billable, as any order is
   * whose provider may have charged for it, and gives it back otherwise.
   */
  lemma RecoverySettles(cfg: Config, s: State, t: TxId, accepted: bool)
    requires Reachable(cfg, s) && s.up && t in s.stale && Flagged(s.db, t)
    ensures var s' := Next(cfg, s, Recover(t, accepted, Acked));
      var used := accepted || G.ProviderBillable(s.db, t);
      && Unsettled(s'.db) == Unsettled(s.db) - {t} && |Unsettled(s'.db)| < |Unsettled(s.db)|
      && TraceOf(s', t).consumed == TraceOf(s, t).consumed + (if used then 1 else 0)
      && TraceOf(s', t).released == TraceOf(s, t).released + (if used then 0 else 1)
      && (MayBeCharged(TraceOf(s, t).calls) ==> used)
  {
    hide Reachable, HandlersOk, Alone, WorkersOk, Idle, QuotaInv, BudgetInv, TxOk, Next, Observe, Billable,
        G.RecordBroadcastOutcome;
    InvHolds(cfg, s);
    TxHolds(cfg, s, t);
    BindingOf(s.db, t);
    RecoveredState(cfg, s, t, accepted);
    RecordOutcomeFrame(s.db, t.owner, t, accepted);
    RecordOutcomeEffect(s.db, t, accepted);
    RecoveredTrace(cfg, s.db, TraceOf(s, t), t, accepted);
    if MayBeCharged(TraceOf(s, t).calls) {
      ChargedIsBillable(cfg, t, TxView(s, t));
    }
    RemovesUnit(s.db, Next(cfg, s, Recover(t, accepted, Acked)).db, t);
  }

  lemma RecoveredState(cfg: Config, s: State, t: TxId, accepted: bool)
    requires s.up && t in s.stale
    ensures var s' := Next(cfg, s, Recover(t, accepted, Acked));
      && s'.db == G.RecordBroadcastOutcome(s.db, t.owner, t, accepted)
      && TraceOf(s', t) == Observe(TraceOf(s, t), s.db, s'.db, t, RecordOutcome(accepted))
  {
    hide G.RecordBroadcastOutcome, Observe;
  }

  lemma RecoveredTrace(cfg: Config, db: Db, trace: Trace, t: TxId, accepted: bool)
    requires Flagged(db, t) && t.owner in db.bindings
    ensures var after := G.RecordBroadcastOutcome(db, t.owner, t, accepted);
      var used := accepted || G.ProviderBillable(db, t);
      var trace' := Observe(trace, db, after, t, RecordOutcome(accepted));
      && trace'.consumed == trace.consumed + (if used then 1 else 0)
      && trace'.released == trace.released + (if used then 0 else 1)
  {
    RecordOutcomeEffect(db, t, accepted);
  }

  lemma RemovesUnit(before: Db, after: Db, t: TxId)
    requires OneRequest(before, after, t) && Flagged(before, t) && !Flagged(after, t)
    ensures Unsettled(after) == Unsettled(before) - {t} && |Unsettled(after)| < |Unsettled(before)|
  {
    assert t in Unsettled(before);
    assert Unsettled(before) == Unsettled(after) + {t};
  }

  /** With provider-sourced energy an address is never charged past the largest limit it had since its last reset. */
  lemma LimitIsKept(cfg: Config, s: State, a: Address)
    requires cfg.provider && Reachable(cfg, s) && a in s.db.bindings
    ensures a in s.peak && s.db.bindings[a].used + s.db.bindings[a].reserved <= s.peak[a]
    ensures s.db.bindings[a].max.Some? ==> s.db.bindings[a].max.value <= s.peak[a]
  {
    hide Reachable, Inv, Counted, BudgetInv;
    InvHolds(cfg, s);
  }

  /** Usage is reset exactly for a bound address with nothing reserved, nothing claimed and no open order. */
  lemma ResetOnlyWhenIdle(cfg: Config, s: State, a: Address, max: Option<Option<nat>>)
    requires cfg.provider && Reachable(cfg, s)
    ensures G.ResetBindingUsage(s.db, a, max, cfg.provider).1 <==>
        && a in s.db.bindings && a !in s.db.claims
        && (forall t :: t in s.db.requests && t.owner == a ==> !s.db.requests[t].quotaReserved)
        && (forall t :: t in s.db.orders && t.owner == a ==> !Open(s.db.orders[t].state))
  {
    hide Reachable, Inv, Within, BudgetInv;
    var db := s.db;
    InvHolds(cfg, s);
    assert ReservedOf(db, a) == Total(FlagWeights(db, a));
    var held := set t | t in db.requests && t.owner == a && db.requests[t].quotaReserved;
    WeightsCount(FlagWeights(db, a), held);
    forall t | t in db.orders
      ensures db.orders[t].receiver == t.owner
    {
      OrderReceiver(cfg, s, t);
    }
    assert forall t :: t in db.requests && t.owner == a ==> (db.requests[t].quotaReserved <==> t in held);
  }

  lemma OrderReceiver(cfg: Config, s: State, t: TxId)
    requires Reachable(cfg, s) && t in s.db.orders
    ensures s.db.orders[t].receiver == t.owner
  {
    hide Reachable, OrderAgreesWithLedger, CallsAgreeWithLedger, QuotaAgrees;
    TxHolds(cfg, s, t);
  }

  // ---- provider calls ------------------------------------------------------------------------------

  /** A provider is called at most once for a transaction, and all calls but the last were rejected. */
  lemma EachProviderIsCalledOnce(cfg: Config, s: State, t: TxId)
    requires Reachable(cfg, s)
    ensures var calls := TraceOf(s, t).calls;
      && (forall i, j :: 0 <= i < j < |calls| ==> calls[i].provider != calls[j].provider)
      && (forall i :: 0 <= i < |calls| - 1 ==> calls[i].answer.SaidNo?)
  {
    hide Reachable, OrderAgreesWithLedger, QuotaAgrees;
    TxHolds(cfg, s, t);
  }

  /** Without owner burn every call asks for at least the energy that was missing when it was planned. */
  lemma CallsCoverShortfall(cfg: Config, s: State, t: TxId, i: nat)
    requires !cfg.ownerEnergyBurn && Reachable(cfg, s) && i < |TraceOf(s, t).calls|
    ensures var call := TraceOf(s, t).calls[i];
      call.shortfall.Some? && call.amount >= call.shortfall.value
  {
    hide Reachable, OrderAgreesWithLedger, CallsAgreeWithLedger, QuotaAgrees;
    TxHolds(cfg, s, t);
    assert Covers(TraceOf(s, t).calls[i]);
  }

  /** The calls that may have been charged under a day's budget: how many, and for how much energy. */
  function CallsOn(calls: seq<Call>, d: Day): nat {
    if calls == [] then 0 else
    var call := calls[|calls| - 1];
    CallsOn(calls[..|calls| - 1], d) + if call.day == d && !call.answer.SaidNo? then 1 else 0
  }

  function CallEnergyOn(calls: seq<Call>, d: Day): nat {
    if calls == [] then 0 else
    var call := calls[|calls| - 1];
    CallEnergyOn(calls[..|calls| - 1], d) + if call.day == d && !call.answer.SaidNo? then call.amount else 0
  }

  lemma {:induction false} RejectedCallsWeighNothing(calls: seq<Call>, d: Day)
    requires forall i :: 0 <= i < |calls| ==> calls[i].answer.SaidNo?
    ensures CallsOn(calls, d) == 0 && CallEnergyOn(calls, d) == 0
  {
    if calls != [] {
      RejectedCallsWeighNothing(calls[..|calls| - 1], d);
    }
  }

  /** A transaction's calls weigh no more than its budget row for the last of them. */
  lemma CallsWeighTheirRow(calls: seq<Call>, rows: map<ProviderId, LedgerRow>, d: Day)
    requires CallsAgreeWithLedger(calls, rows) && CallsOn(calls, d) + CallEnergyOn(calls, d) > 0
    ensures calls != [] && var p := calls[|calls| - 1].provider;
      && p in rows && rows[p].day == d && InUse(rows[p])
      && CallsOn(calls, d) <= 1 && CallEnergyOn(calls, d) <= rows[p].amount
  {
    if calls != [] {
      RejectedCallsWeighNothing(calls[..|calls| - 1], d);
    }
  }

  ghost function ChargesOn(s: State, d: Day): map<TxId, nat> {
    map t | t in s.history :: CallsOn(s.history[t].calls, d)
  }

  ghost function ChargedEnergyOn(s: State, d: Day): map<TxId, nat> {
    map t | t in s.history :: CallEnergyOn(s.history[t].calls, d)
  }

  lemma ChargesAreCovered(cfg: Config, s: State, d: Day)
    requires Reachable(cfg, s)
    ensures Total(ChargesOn(s, d)) <= P.OrdersOn(s.db.ledger, d)
  {
    hide Reachable;
    var calls, rows := ChargesOn(s, d), P.OrderWeights(s.db.ledger, d);
    forall t | t in calls && calls[t] > 0
      ensures exists p :: (t, p) in rows && calls[t] <= rows[(t, p)]
    {
      var p := ChargedRow(cfg, s, t, d);
      assert (t, p) in rows && calls[t] <= rows[(t, p)];
    }
    TotalCovered(calls, rows);
  }

  lemma ChargedEnergyIsCovered(cfg: Config, s: State, d: Day)
    requires Reachable(cfg, s)
    ensures Total(ChargedEnergyOn(s, d)) <= P.EnergyOn(s.db.ledger, d)
  {
    hide Reachable;
    var energy, rows := ChargedEnergyOn(s, d), P.EnergyWeights(s.db.ledger, d);
    forall t | t in energy && energy[t] > 0
      ensures exists p :: (t, p) in rows && energy[t] <= rows[(t, p)]
    {
      var p := ChargedRow(cfg, s, t, d);
      assert (t, p) in rows && energy[t] <= rows[(t, p)];
    }
    TotalCovered(energy, rows);
  }

  /**
   * On no day do the calls that may have been charged, over all transactions, exceed the global
   * order limit or the global energy limit.
   */
  lemma DailyLimitsBoundCharges(cfg: Config, s: State, d: Day)
    requires Reachable(cfg, s)
    ensures Total(ChargesOn(s, d)) <= cfg.limits.dailyOrders
    ensures Total(ChargedEnergyOn(s, d)) <= cfg.limits.dailyEnergy
  {
    hide Reachable, Inv, QuotaInv, ProvidersKnown, ChargesOn, ChargedEnergyOn;
    InvHolds(cfg, s);
    assert WithinDay(cfg.limits, s.db.ledger, d);
    ChargesAreCovered(cfg, s, d);
    ChargedEnergyIsCovered(cfg, s, d);
  }

  lemma ChargedRow(cfg: Config, s: State, t: TxId, d: Day) returns (p: ProviderId)
    requires Reachable(cfg, s)
    requires var calls := TraceOf(s, t).calls; CallsOn(calls, d) + CallEnergyOn(calls, d) > 0
    ensures (t, p) in s.db.ledger && s.db.ledger[(t, p)].day == d && InUse(s.db.ledger[(t, p)])
    ensures CallsOn(TraceOf(s, t).calls, d) <= 1 && CallEnergyOn(TraceOf(s, t).calls, d) <= s.db.ledger[(t, p)].amount
  {
    hide Reachable, OrderAgreesWithLedger, QuotaAgrees, CallsAgreeWithLedger, CallsOn, CallEnergyOn;
    var calls, rows := TraceOf(s, t).calls, RowsOf(s.db.ledger, t);
    TxHolds(cfg, s, t);
    assert CallsAgreeWithLedger(calls, rows);
    CallsWeighTheirRow(calls, rows, d);
    p := calls[|calls| - 1].provider;
    RowKeys(s.db.ledger, t, p);
  }

  // ---- orders and their budget rows ------------------------------------------------------------------

  /** Every row of t but that of p is released. */
  ghost predicate OnlyRow(db: Db, t: TxId, p: ProviderId) {
    forall q :: (t, q) in db.ledger && q != p ==> db.ledger[(t, q)].state.Released?
  }

  /** What the state of an order says about its budget rows. */
  ghost predicate RowsOfOrder(db: Db, t: TxId, order: Order) {
    match order.state
    case Pending => forall p :: (t, p) !in db.ledger
    case Rejected => forall p :: (t, p) in db.ledger ==> db.ledger[(t, p)].state.Released?
    case _ =>
      && order.provider.Some? && (t, order.provider.value) in db.ledger
      && var row := db.ledger[(t, order.provider.value)];
      && row.amount == order.amount && OnlyRow(db, t, order.provider.value)
      && (if order.state.Ordering? then row.state.Reserved? else row.state.Charged?)
  }

  /** At every point of every run, orders and budget rows agree, and there is no row without an order. */
  lemma OrdersAgreeWithLedger(cfg: Config, s: State, t: TxId)
    requires Reachable(cfg, s)
    ensures t in s.db.orders ==> RowsOfOrder(s.db, t, s.db.orders[t])
    ensures t !in s.db.orders ==> forall p :: (t, p) !in s.db.ledger
  {
    hide Reachable, CallsAgreeWithLedger, QuotaAgrees;
    TxHolds(cfg, s, t);
    forall p
      ensures p in RowsOf(s.db.ledger, t) <==> (t, p) in s.db.ledger
      ensures (t, p) in s.db.ledger ==> RowsOf(s.db.ledger, t)[p] == s.db.ledger[(t, p)]
    {
      RowKeys(s.db.ledger, t, p);
    }
  }

  /** An attempt's transition never gets stuck half way: if the order half applies, so does the ledger half. */
  lemma TransitionIsWhole(cfg: Config, s: State, t: TxId, p: ProviderId, outcome: OrderState)
    requires Reachable(cfg, s)
    ensures P.TransitionAttempt(s.db, t, p, outcome).1 <==>
        t in s.db.orders && s.db.orders[t].provider == Some(p) && s.db.orders[t].state.Ordering?
  {
    hide Reachable;
    OrdersAgreeWithLedger(cfg, s, t);
  }

  // ---- broadcasts ----------------------------------------------------------------------------------------

  /** A transaction is sent upstream at most once, and its unit is not released while the outcome is open. */
  lemma SentAtMostOnce(cfg: Config, s: State, t: TxId)
    requires Reachable(cfg, s)
    ensures var trace := TraceOf(s, t);
      |trace.forwards| <= 1 && (trace.forwards != [] && trace.outcomes == 0 ==> trace.released == 0)
  {
    hide Reachable, OrderAgreesWithLedger, CallsAgreeWithLedger;
    TxHolds(cfg, s, t);
  }

  ghost predicate RelaysOk(cfg: Config, s: State) {
    forall i :: 0 <= i < |s.relayed| ==> !Guarded(cfg, s.relayed[i])
  }

  lemma ArrivalRelays(cfg: Config, s: State, e: Event)
    requires RelaysOk(cfg, s) && e.Arrive?
    ensures RelaysOk(cfg, ArriveStep(cfg, s, e.id, e.tx, e.wellFormed, e.permitted, e.now, e.fault))
  {
    hide Usable, G.BeginRequest;
  }

  lemma RelayNext(cfg: Config, s: State, e: Event)
    requires Inv(cfg, s) && RelaysOk(cfg, s)
    ensures RelaysOk(cfg, Next(cfg, s, e))
  {
    if e.Step? {
      hide Inv, HandlerStep;
      var w := HandlerWrites(cfg, s, e.id, e.input, e.fault);
    } else if e.Recover? {
      hide Commit;
      CommitRecords(cfg, s.(stale := s.stale - {e.tx}), e.tx, RecordOutcome(e.accepted), e.fault);
    } else if e.Arrive? {
      hide ArriveStep, RelaysOk;
      ArrivalRelays(cfg, s, e);
    } else {
      hide Next;
      OthersRecordNothing(cfg, s, e);
    }
  }

  lemma {:induction false} RunRelays(cfg: Config, events: seq<Event>)
    ensures RelaysOk(cfg, Run(cfg, events))
  {
    if events != [] {
      hide Next, Inv;
      var before := events[..|events| - 1];
      RunInv(cfg, before);
      RunRelays(cfg, before);
      RelayNext(cfg, Run(cfg, before), events[|events| - 1]);
    }
  }

  /**
   * With owner burn disabled no smart-contract call leaves the gateway on any path unless the last
   * reading of the account showed at least the safe requirement.
   */
  lemma NoUnpreparedContractCall(cfg: Config, s: State, t: TxId)
    requires t.contract.TriggerSmartContract? && !cfg.ownerEnergyBurn && Reachable(cfg, s)
    ensures t !in s.relayed
    ensures forall i :: 0 <= i < |TraceOf(s, t).forwards| ==>
      var f := TraceOf(s, t).forwards[i]; f.required.Some? && f.reading >= f.required.value
  {
    hide Run, OrderAgreesWithLedger, CallsAgreeWithLedger, QuotaAgrees;
    TxHolds(cfg, s, t);
    var events :| s == Run(cfg, events);
    RunRelays(cfg, events);
    var forwards := TraceOf(s, t).forwards;
    forall i | 0 <= i < |forwards|
      ensures forwards[i].required.Some? && forwards[i].reading >= forwards[i].required.value
    {
      assert EnergySafe(cfg, t, forwards[i].required, forwards[i].reading);
    }
  }
}
