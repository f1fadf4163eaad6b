/** The global daily limits hold of the budget ledger, and of the calls that may have been charged. */
module Budget {
  import opened Options
  import opened Schema
  import opened Totals
  import opened Gateway
  import opened TxInvariant
  import opened WriteLemmas
  import opened Invariant
  import opened Quota
  import G = GatewayRepository
  import P = ProviderRepository

  ghost predicate WithinDay(limits: Limits, ledger: Ledger, d: Day) {
    P.OrdersOn(ledger, d) <= limits.dailyOrders && P.EnergyOn(ledger, d) <= limits.dailyEnergy
  }

  ghost predicate WithinBudget(limits: Limits, ledger: Ledger) {
    forall d :: WithinDay(limits, ledger, d)
  }

  ghost predicate ProvidersKnown(db: Db) {
    forall k :: k in db.ledger ==> k.1 in db.providers
  }

  ghost predicate BudgetInv(cfg: Config, s: State) {
    WithinBudget(cfg.limits, s.db.ledger) && ProvidersKnown(s.db)
  }

  // ---- ledger writes ---------------------------------------------------------------------------

  /** Every row of after uses no more than the row it stands for. */
  ghost predicate Lighter(before: Ledger, after: Ledger) {
    forall k :: k in after ==>
      k in before && after[k].day == before[k].day && after[k].amount == before[k].amount
      && (InUse(after[k]) ==> InUse(before[k]))
  }

  lemma LighterKeepsBudget(limits: Limits, before: Ledger, after: Ledger)
    requires WithinBudget(limits, before) && Lighter(before, after)
    ensures WithinBudget(limits, after)
  {
    forall d
      ensures WithinDay(limits, after, d)
    {
      assert WithinDay(limits, before, d);
      TotalMonotone(P.OrderWeights(after, d), P.OrderWeights(before, d));
      TotalMonotone(P.EnergyWeights(after, d), P.EnergyWeights(before, d));
    }
  }

  lemma ReservedOrders(ledger: Ledger, k: (TxId, ProviderId), row: LedgerRow, e: Day)
    requires k !in ledger && row.state.Reserved?
    ensures P.OrdersOn(ledger[k := row], e) == P.OrdersOn(ledger, e) + (if e == row.day then 1 else 0)
  {
    TotalUpdate(P.OrderWeights(ledger, e), k, if e == row.day then 1 else 0);
    assert P.OrderWeights(ledger[k := row], e) == P.OrderWeights(ledger, e)[k := if e == row.day then 1 else 0];
  }

  lemma ReservedEnergy(ledger: Ledger, k: (TxId, ProviderId), row: LedgerRow, e: Day)
    requires k !in ledger && row.state.Reserved?
    ensures P.EnergyOn(ledger[k := row], e) == P.EnergyOn(ledger, e) + (if e == row.day then row.amount else 0)
  {
    TotalUpdate(P.EnergyWeights(ledger, e), k, if e == row.day then row.amount else 0);
    assert P.EnergyWeights(ledger[k := row], e) == P.EnergyWeights(ledger,
      e)[k := if e == row.day then row.amount else 0];
  }

  lemma StartKeepsBudget(limits: Limits, db: Db, t: TxId, p: ProviderId, amount: nat, d: Day)
    requires WithinBudget(limits, db.ledger) && ProvidersKnown(db)
    ensures var after := P.StartAttempt(db, limits, t, p, amount, d).0;
      WithinBudget(limits, after.ledger) && ProvidersKnown(after)
  {
    var after := P.StartAttempt(db, limits, t, p, amount, d).0;
    if P.Eligible(db, t, p) && P.Affordable(db, limits, p, amount, d) {
      forall e
        ensures WithinDay(limits, after.ledger, e)
      {
        assert WithinDay(limits, db.ledger, e);
        ReservedOrders(db.ledger, (t, p), LedgerRow(d, amount, Reserved), e);
        ReservedEnergy(db.ledger, (t, p), LedgerRow(d, amount, Reserved), e);
      }
    }
  }

  lemma FinishIsLighter(db: Db, t: TxId, p: ProviderId, outcome: OrderState)
    ensures var after := P.TransitionAttempt(db, t, p, outcome).0;
      Lighter(db.ledger, after.ledger) && after.providers == db.providers
  {
  }

  lemma RecoverIsLighter(db: Db)
    ensures Lighter(db.ledger, P.RecoverInterruptedOrders(db).ledger)
  {
  }

  lemma OtherWritesKeepLedger(cfg: Config, db: Db, t: TxId, w: Write)
    requires !w.StartAttempt? && !w.FinishAttempt?
    ensures var after := Apply(cfg, db, t, w).0; after.ledger == db.ledger && after.providers == db.providers
  {
    if RequestWrite(w) {
      RequestWriteTouches(cfg, db, t, w);
    } else {
      OrderWriteTouches(cfg, db, t, w);
    }
  }

  lemma WriteKeepsBudget(cfg: Config, db: Db, t: TxId, w: Write)
    requires WithinBudget(cfg.limits, db.ledger) && ProvidersKnown(db)
    ensures var after := Apply(cfg, db, t, w).0; WithinBudget(cfg.limits, after.ledger) && ProvidersKnown(after)
  {
    hide WithinBudget, P.StartAttempt, P.TransitionAttempt;
    if w.StartAttempt? {
      StartKeepsBudget(cfg.limits, db, t, w.provider, w.amount, w.day);
    } else if w.FinishAttempt? {
      FinishIsLighter(db, t, w.provider, w.outcome);
      LighterKeepsBudget(cfg.limits, db.ledger, P.TransitionAttempt(db, t, w.provider, w.outcome).0.ledger);
    } else {
      OtherWritesKeepLedger(cfg, db, t, w);
    }
  }

  // ---- all events ------------------------------------------------------------------------------

  lemma StepBudget(cfg: Config, s: State, id: nat, input: Input, fault: Fault)
    requires Inv(cfg, s) && BudgetInv(cfg, s)
    ensures BudgetInv(cfg, HandlerStep(cfg, s, id, input, fault))
  {
    hide Inv, HandlerStep, WithinBudget, ProvidersKnown, Apply, Intent;
    var w := HandlerWrites(cfg, s, id, input, fault);
    if w.Some? {
      WriteKeepsBudget(cfg, s.db, s.handlers[id].tx, w.value);
    }
  }

  lemma RecoverBudget(cfg: Config, s: State, t: TxId, accepted: bool, fault: Fault)
    requires BudgetInv(cfg, s)
    ensures BudgetInv(cfg, WorkerDone(Commit(cfg, s.(stale := s.stale - {t}), t, RecordOutcome(accepted), fault),
      fault))
  {
    hide WithinBudget, ProvidersKnown, Apply, Commit;
    CommittedViews(cfg, s.(stale := s.stale - {t}), t, RecordOutcome(accepted), fault);
    WriteKeepsBudget(cfg, s.db, t, RecordOutcome(accepted));
  }

  lemma StartBudget(cfg: Config, s: State, fault: Fault)
    requires BudgetInv(cfg, s)
    ensures BudgetInv(cfg, StartStep(s, fault))
  {
    RecoverIsLighter(s.db);
    LighterKeepsBudget(cfg.limits, s.db.ledger, P.RecoverInterruptedOrders(s.db).ledger);
  }

  /** Nothing else reaches the ledger, and no provider row is ever deleted. */
  ghost predicate KeepsLedger(before: Db, after: Db) {
    after.ledger == before.ledger && before.providers.Keys <= after.providers.Keys
  }

  lemma ArriveKeepsLedger(cfg: Config, s: State, e: Event)
    requires e.Arrive?
    ensures KeepsLedger(s.db, ArriveStep(cfg, s, e.id, e.tx, e.wellFormed, e.permitted, e.now, e.fault).db)
  {
    hide Guarded, Usable, Sponsorable;
  }

  lemma WorkersKeepLedger(s: State, e: Event)
    ensures KeepsLedger(s.db, SweepStep(s).db) && KeepsLedger(s.db, CrashStep(s).db)
    ensures e.ListStale? ==> KeepsLedger(s.db, ListStaleStep(s, e.found).db)
    ensures e.ListAwaiting? ==> KeepsLedger(s.db, ListAwaitingStep(s, e.found).db)
  {
    hide Owned, G.Releasable, Stale;
  }

  lemma ConclusionKeepsLedger(s: State, t: TxId, state: RequestState, fault: Fault)
    ensures KeepsLedger(s.db, ConcludeStep(s, t, G.DropClaimOf(G.SetRequestState(s.db, t, state), t), fault).db)
  {
    hide G.Releasable;
  }

  lemma SettingsKeepLedger(cfg: Config, s: State, e: Event)
    ensures e.PutBinding? ==> KeepsLedger(s.db, PutBindingStep(s, e.address, e.max, e.expiresAt, e.enabled).db)
    ensures e.ResetBinding? ==> KeepsLedger(s.db, ResetBindingStep(cfg, s, e.address, e.max).db)
    ensures e.PutProvider? ==> KeepsLedger(s.db, PutProviderStep(s, e.provider, e.row).db)
    ensures e.MoveLease? ==> KeepsLedger(s.db, MoveLeaseStep(cfg, s, e.tx, e.leased).db)
  {
    hide Raise, G.HasOpenPaidProviderActivity;
  }

  lemma BudgetNext(cfg: Config, s: State, e: Event)
    requires Inv(cfg, s) && BudgetInv(cfg, s)
    ensures BudgetInv(cfg, Next(cfg, s, e))
  {
    hide Inv, BudgetInv, HandlerStep, ArriveStep, SweepStep, ListStaleStep, ListAwaitingStep, ConcludeStep,
        PutBindingStep,
      ResetBindingStep, PutProviderStep, MoveLeaseStep, StartStep, CrashStep, Commit, WorkerDone, G.MarkFinalized,
        G.ExpireRequest;
    match e
    case Step(id, input, fault) => StepBudget(cfg, s, id, input, fault);
    case Recover(t, accepted, fault) => RecoverBudget(cfg, s, t, accepted, fault);
    case Start(fault) => StartBudget(cfg, s, fault);
    case _ =>
      SameLedger(cfg, s, e);
      SameBudget(cfg, s, Next(cfg, s, e));
  }

  lemma SameLedger(cfg: Config, s: State, e: Event)
    requires !e.Step? && !e.Recover? && !e.Start?
    ensures KeepsLedger(s.db, Next(cfg, s, e).db)
  {
    hide KeepsLedger, ArriveStep, SweepStep, ListStaleStep, ListAwaitingStep, ConcludeStep, PutBindingStep,
        ResetBindingStep,
      PutProviderStep, MoveLeaseStep, CrashStep, G.DropClaimOf, G.SetRequestState;
    match e
    case Arrive(_, _, _, _, _, _) => ArriveKeepsLedger(cfg, s, e);
    case Finalize(t, success, fault) =>
      ConclusionKeepsLedger(s, t, if success then SolidifiedSuccess else SolidifiedFailed, fault);
    case Expire(t, fault) => ConclusionKeepsLedger(s, t, Expired, fault);
    case _ =>
      WorkersKeepLedger(s, e);
      SettingsKeepLedger(cfg, s, e);
  }

  lemma SameBudget(cfg: Config, s: State, s': State)
    requires BudgetInv(cfg, s) && KeepsLedger(s.db, s'.db)
    ensures BudgetInv(cfg, s')
  {
    hide WithinBudget;
  }

  lemma {:induction false} RunBudget(cfg: Config, events: seq<Event>)
    ensures BudgetInv(cfg, Run(cfg, events))
  {
    if events == [] {
      hide Inv, Next;
      forall d
        ensures WithinDay(cfg.limits, map[], d)
      {
        assert P.OrderWeights(map[], d) == map[] && P.EnergyWeights(map[], d) == map[];
      }
    } else {
      hide Inv, Next, BudgetInv;
      var before := events[..|events| - 1];
      RunInv(cfg, before);
      RunBudget(cfg, before);
      BudgetNext(cfg, Run(cfg, before), events[|events| - 1]);
    }
  }
}
