/** Reserved units are counted exactly, and a finite limit is kept between resets. */
module Quota {
  import opened Options
  import opened Schema
  import opened Totals
  import opened Gateway
  import opened TxInvariant
  import opened WriteLemmas
  import opened HandlerLemmas
  import opened Invariant
  import G = GatewayRepository
  import P = ProviderRepository

  // ---- counting reservations ------------------------------------------------------------------

  function FlagWeights(db: Db, a: Address): map<TxId, nat> {
    map t | t in db.requests :: if t.owner == a && db.requests[t].quotaReserved then 1 else 0
  }

  function ReservedOf(db: Db, a: Address): nat {
    if a in db.bindings then db.bindings[a].reserved else 0
  }

  /** The reserved counter of every address is the number of its requests that hold a unit. */
  ghost predicate Counted(db: Db) {
    forall a :: ReservedOf(db, a) == Total(FlagWeights(db, a))
  }

  function Unit(db: Db, t: TxId): nat {
    if Flagged(db, t) then 1 else 0
  }

  /** Only the request row of t may differ. */
  ghost predicate OneRequest(before: Db, after: Db, t: TxId) {
    && (forall u :: u != t ==> (u in after.requests <==> u in before.requests))
    && (forall u :: u != t && u in before.requests ==> after.requests[u] == before.requests[u])
  }

  lemma RemoveRequest(db: Db, t: TxId, a: Address)
    ensures Total(FlagWeights(db, a)) ==
      Total(FlagWeights(db, a) - {t}) + (if t.owner == a then Unit(db, t) else 0)
  {
    var w := FlagWeights(db, a);
    if t in w {
      TotalSplit(w, t);
    } else {
      assert w - {t} == w;
    }
  }

  lemma CountMoves(before: Db, after: Db, t: TxId, a: Address)
    requires OneRequest(before, after, t)
    ensures Total(FlagWeights(after, a)) + (if t.owner == a then Unit(before, t) else 0)
         == Total(FlagWeights(before, a)) + (if t.owner == a then Unit(after, t) else 0)
  {
    RemoveRequest(before, t, a);
    RemoveRequest(after, t, a);
    assert FlagWeights(after, a) - {t} == FlagWeights(before, a) - {t};
  }

  /** A held unit is counted, so taking one off the counter never meets zero. */
  lemma HeldIsCounted(db: Db, t: TxId)
    requires Counted(db) && Flagged(db, t)
    ensures t.owner in db.bindings && db.bindings[t.owner].reserved >= 1
  {
    RemoveRequest(db, t, t.owner);
    assert ReservedOf(db, t.owner) == Total(FlagWeights(db, t.owner));
  }

  /** The counters moved as the flag of t did, and no other counter moved. */
  ghost predicate Balanced(before: Db, after: Db, t: TxId) {
    && OneRequest(before, after, t)
    && ReservedOf(after, t.owner) + Unit(before, t) == ReservedOf(before, t.owner) + Unit(after, t)
    && forall a :: a != t.owner ==> ReservedOf(after, a) == ReservedOf(before, a)
  }

  lemma BalancedKeepsCount(before: Db, after: Db, t: TxId)
    requires Counted(before) && Balanced(before, after, t)
    ensures Counted(after)
  {
    forall a
      ensures ReservedOf(after, a) == Total(FlagWeights(after, a))
    {
      CountMoves(before, after, t, a);
      assert ReservedOf(before, a) == Total(FlagWeights(before, a));
    }
  }

  lemma MoveBalances(db: Db, t: TxId, consume: bool)
    requires Counted(db)
    ensures Balanced(db, G.MoveQuota(db, t.owner, t, consume), t)
  {
    if Flagged(db, t) {
      HeldIsCounted(db, t);
    }
  }

  lemma OutcomeBindings(db: Db, t: TxId, accepted: bool)
    ensures G.RecordBroadcastOutcome(db, t.owner, t, accepted).bindings ==
      G.MoveQuota(db, t.owner, t, accepted || G.ProviderBillable(db, t)).bindings
    ensures !Flagged(G.RecordBroadcastOutcome(db, t.owner, t, accepted), t)
    ensures !Flagged(G.MoveQuota(db, t.owner, t, accepted || G.ProviderBillable(db, t)), t)
  {
  }

  lemma OutcomeBalances(db: Db, t: TxId, accepted: bool)
    requires Counted(db)
    ensures Balanced(db, G.RecordBroadcastOutcome(db, t.owner, t, accepted), t)
  {
    MoveBalances(db, t, accepted || G.ProviderBillable(db, t));
    OutcomeBindings(db, t, accepted);
    RecordOutcomeFrame(db, t.owner, t, accepted);
    hide G.RecordBroadcastOutcome, G.MoveQuota, Counted;
  }

  lemma ReserveBalances(db: Db, t: TxId, finite: bool, now: int)
    requires t in db.requests && !Flagged(db, t)
    ensures Balanced(db, G.ReserveQuota(db, t.owner, t, finite, now).0, t)
  {
  }

  lemma PlainBindings(cfg: Config, db: Db, t: TxId, w: Write)
    requires RequestWrite(w) && !QuotaWrite(w)
    ensures Apply(cfg, db, t, w).0.bindings == db.bindings
    ensures !w.DiscardRow? ==> (Flagged(Apply(cfg, db, t, w).0, t) <==> Flagged(db, t))
    ensures w.DiscardRow? && !Flagged(db, t) ==> !Flagged(Apply(cfg, db, t, w).0, t)
  {
    match w
    case AcquireClaim =>
    case DropClaim =>
    case DiscardRow =>
    case SaveEstimate =>
    case SetState(state) =>
    case Complete(state) =>
  }

  lemma PlainBalances(cfg: Config, db: Db, t: TxId, w: Write)
    requires RequestWrite(w) && !QuotaWrite(w)
    requires w.DiscardRow? ==> !Flagged(db, t)
    ensures Balanced(db, Apply(cfg, db, t, w).0, t)
  {
    hide Apply;
    PlainBindings(cfg, db, t, w);
    RequestWriteTouches(cfg, db, t, w);
  }

  lemma WriteKeepsCount(cfg: Config, db: Db, t: TxId, w: Write)
    requires Counted(db)
    requires w.ReserveUnit? ==> t in db.requests && !Flagged(db, t)
    requires w.DiscardRow? ==> !Flagged(db, t)
    ensures Counted(Apply(cfg, db, t, w).0)
  {
    hide Counted;
    if w.ReserveUnit? {
      ReserveBalances(db, t, cfg.provider, w.now);
    } else if w.ConsumeUnit? || w.ReleaseUnit? {
      MoveBalances(db, t, w.ConsumeUnit?);
    } else if w.RecordOutcome? {
      OutcomeBalances(db, t, w.accepted);
    } else if RequestWrite(w) {
      PlainBalances(cfg, db, t, w);
    } else {
      OrderKeepsBindings(cfg, db, t, w);
    }
    BalancedKeepsCount(db, Apply(cfg, db, t, w).0, t);
  }

  // ---- the largest limit in force ----------------------------------------------------------------

  predicate RowWithin(row: Binding, peak: nat) {
    row.used + row.reserved <= peak && (row.max.Some? ==> row.max.value <= peak)
  }

  /** Between two resets no address is charged past the largest limit it was given. */
  ghost predicate Within(db: Db, peak: map<Address, nat>) {
    forall a :: a in db.bindings ==> a in peak && RowWithin(db.bindings[a], peak[a])
  }

  /** The write keeps every row within its peak. */
  ghost predicate NoMore(before: Db, after: Db) {
    && after.bindings.Keys == before.bindings.Keys
    && forall a :: a in before.bindings ==>
         && after.bindings[a].max == before.bindings[a].max
         && var charged := after.bindings[a].used + after.bindings[a].reserved;
            || charged <= before.bindings[a].used + before.bindings[a].reserved
            || (after.bindings[a].max.Some? && charged <= after.bindings[a].max.value)
  }

  lemma NoMoreKeepsWithin(before: Db, after: Db, peak: map<Address, nat>)
    requires Within(before, peak) && NoMore(before, after)
    ensures Within(after, peak)
  {
  }

  lemma MoveNoMore(db: Db, t: TxId, consume: bool)
    requires Counted(db)
    ensures NoMore(db, G.MoveQuota(db, t.owner, t, consume))
  {
    if Flagged(db, t) {
      HeldIsCounted(db, t);
    }
  }

  lemma OutcomeNoMore(db: Db, t: TxId, accepted: bool)
    requires Counted(db)
    ensures NoMore(db, G.RecordBroadcastOutcome(db, t.owner, t, accepted))
  {
    MoveNoMore(db, t, accepted || G.ProviderBillable(db, t));
  }

  lemma ReserveNoMore(db: Db, t: TxId, now: int)
    ensures NoMore(db, G.ReserveQuota(db, t.owner, t, true, now).0)
  {
  }

  lemma PlainNoMore(cfg: Config, db: Db, t: TxId, w: Write)
    requires RequestWrite(w) && !QuotaWrite(w)
    ensures NoMore(db, Apply(cfg, db, t, w).0)
  {
    match w
    case AcquireClaim =>
    case DropClaim =>
    case DiscardRow =>
    case SaveEstimate =>
    case SetState(state) =>
    case Complete(state) =>
  }

  lemma WriteNoMore(cfg: Config, db: Db, t: TxId, w: Write)
    requires Counted(db) && cfg.provider
    ensures NoMore(db, Apply(cfg, db, t, w).0)
  {
    hide Counted;
    if w.ReserveUnit? {
      ReserveNoMore(db, t, w.now);
    } else if w.ConsumeUnit? || w.ReleaseUnit? {
      MoveNoMore(db, t, w.ConsumeUnit?);
    } else if w.RecordOutcome? {
      OutcomeNoMore(db, t, w.accepted);
    } else if RequestWrite(w) {
      PlainNoMore(cfg, db, t, w);
    } else {
      OrderKeepsBindings(cfg, db, t, w);
    }
  }

  // ---- the invariant ------------------------------------------------------------------------------

  ghost predicate QuotaInv(cfg: Config, s: State) {
    Counted(s.db) && (cfg.provider ==> Within(s.db, s.peak))
  }

  ghost predicate SameUnits(before: Db, after: Db) {
    && after.bindings == before.bindings
    && (forall t :: Flagged(after, t) <==> Flagged(before, t))
  }

  lemma SameUnitsKeepCount(before: Db, after: Db)
    requires Counted(before) && SameUnits(before, after)
    ensures Counted(after)
  {
    forall a
      ensures ReservedOf(after, a) == Total(FlagWeights(after, a))
    {
      FlagsDecide(before, after, a);
      assert ReservedOf(before, a) == Total(FlagWeights(before, a));
    }
  }

  /** Rows that hold no unit weigh nothing. */
  lemma FlagsDecide(before: Db, after: Db, a: Address)
    requires forall t :: Flagged(after, t) <==> Flagged(before, t)
    ensures Total(FlagWeights(after, a)) == Total(FlagWeights(before, a))
  {
    LightRows(before, after, a);
    LightRows(after, before, a);
  }

  lemma {:induction false} LightRows(before: Db, after: Db, a: Address)
    requires forall t :: Flagged(before, t) ==> Flagged(after, t)
    ensures Total(FlagWeights(before, a)) <= Total(FlagWeights(after, a))
  {
    var held := map t | t in FlagWeights(before, a) && FlagWeights(before, a)[t] > 0 :: FlagWeights(before, a)[t];
    HeavyPart(FlagWeights(before, a), held);
    forall t | t in held
      ensures t in FlagWeights(after, a) && held[t] <= FlagWeights(after, a)[t]
    {
      assert Flagged(before, t);
    }
    TotalMonotone(held, FlagWeights(after, a));
  }

  lemma {:induction false} HeavyPart<K>(m: map<K, nat>, heavy: map<K, nat>)
    requires forall k :: k in heavy <==> k in m && m[k] > 0
    requires forall k :: k in heavy ==> heavy[k] == m[k]
    ensures Total(heavy) == Total(m)
    decreases |m|
  {
    if m == map[] {
      assert heavy == map[];
    } else {
      var k :| k in m;
      TotalSplit(m, k);
      RemoveShrinks(m, k);
      if m[k] > 0 {
        TotalSplit(heavy, k);
        HeavyPart(m - {k}, heavy - {k});
      } else {
        HeavyPart(m - {k}, heavy);
      }
    }
  }

  // ---- the database write in a step ------------------------------------------------------------------

  /** A unit is reserved, and a row discarded, only while none is held. */
  ghost predicate Legal(db: Db, t: TxId, w: Write) {
    && (w.ReserveUnit? ==> t in db.requests && !Flagged(db, t))
    && (w.DiscardRow? ==> !Flagged(db, t))
  }

  lemma AllowedIsLegal(db: Db, trace: Trace, t: TxId, w: Write)
    requires Allowed(ViewOf(db, trace, t), w)
    ensures Legal(db, t, w)
  {
  }

  /** What a handler's step does to the tables: nothing, or the one write it intends. */
  lemma HandlerWrites(cfg: Config, s: State, id: nat, input: Input, fault: Fault) returns (w: Option<Write>)
    requires Inv(cfg, s)
    ensures var s' := HandlerStep(cfg, s, id, input, fault);
      && s'.peak == s.peak && s'.relayed == s.relayed
      && (w.None? ==> s'.db == s.db)
      && (w.Some? ==>
            && id in s.handlers && w == Intent(cfg, s.handlers[id], input) && !fault.NotApplied?
            && s'.db == Apply(cfg, s.db, s.handlers[id].tx, w.value).0
            && Legal(s.db, s.handlers[id].tx, w.value))
  {
    hide TxOk, Fit, Sense, Apply, Commit, WriteStep, Legal, TxView;
    w := None;
    if id in s.handlers && Intent(cfg, s.handlers[id], input).Some? {
      var h := s.handlers[id];
      var intent := Intent(cfg, h, input).value;
      CommittedViews(cfg, s, h.tx, intent, fault);
      CommitRecords(cfg, s, h.tx, intent, fault);
      WriteStepIs(cfg, s, id, h, intent, input, fault);
      assert HandlerWell(cfg, s, h);
      HandlerMay(cfg, s, h, input);
      AllowedIsLegal(s.db, TraceOf(s, h.tx), h.tx, intent);
      w := if fault.NotApplied? then None else Some(intent);
    }
  }

  lemma CommitRecords(cfg: Config, s: State, t: TxId, w: Write, fault: Fault)
    ensures var c := Commit(cfg, s, t, w, fault);
      c.peak == s.peak && c.relayed == s.relayed && c.clobbered == s.clobbered && c.stripped == s.stripped
  {
    hide Apply, Observe;
  }

  lemma HandlerMay(cfg: Config, s: State, h: Handler, input: Input)
    requires HandlerWell(cfg, s, h) && TxOk(cfg, h.tx, TxView(s, h.tx)) && Intent(cfg, h, input).Some?
    ensures Allowed(ViewOf(s.db, TraceOf(s, h.tx), h.tx), Intent(cfg, h, input).value)
  {
    hide TxOk, HandlerOk, Intent;
    if h.late {
      LateWrites(cfg, h, input);
    } else {
      IntentAllowed(cfg, TxView(s, h.tx), h, input);
    }
  }

  // ---- all events ------------------------------------------------------------------------------------

  lemma StepQuota(cfg: Config, s: State, id: nat, input: Input, fault: Fault)
    requires Inv(cfg, s) && QuotaInv(cfg, s)
    ensures QuotaInv(cfg, HandlerStep(cfg, s, id, input, fault))
  {
    hide Inv, HandlerStep, Counted, Within, Apply, Intent;
    var w := HandlerWrites(cfg, s, id, input, fault);
    if w.Some? {
      var t := s.handlers[id].tx;
      WriteKeepsCount(cfg, s.db, t, w.value);
      if cfg.provider {
        WriteNoMore(cfg, s.db, t, w.value);
        NoMoreKeepsWithin(s.db, Apply(cfg, s.db, t, w.value).0, s.peak);
      }
    }
  }

  lemma RecoverQuota(cfg: Config, s: State, t: TxId, accepted: bool, fault: Fault)
    requires QuotaInv(cfg, s)
    ensures QuotaInv(cfg, WorkerDone(Commit(cfg, s.(stale := s.stale - {t}), t, RecordOutcome(accepted), fault), fault))
  {
    hide Counted, Within, Apply, Commit;
    var s0, w := s.(stale := s.stale - {t}), RecordOutcome(accepted);
    CommittedViews(cfg, s0, t, w, fault);
    CommitRecords(cfg, s0, t, w, fault);
    if !fault.NotApplied? {
      WriteKeepsCount(cfg, s.db, t, w);
      if cfg.provider {
        WriteNoMore(cfg, s.db, t, w);
        NoMoreKeepsWithin(s.db, Apply(cfg, s.db, t, w).0, s.peak);
      }
    }
  }

  lemma ConcludeUnits(db: Db, t: TxId, state: RequestState)
    ensures SameUnits(db, G.DropClaimOf(G.SetRequestState(db, t, state), t))
  {
  }

  lemma BeginUnits(db: Db, t: TxId)
    ensures SameUnits(db, G.BeginRequest(db, t))
  {
  }

  /** Setting limits and usage touches no reserved counter. */
  lemma SameReserved(before: Db, after: Db)
    requires Counted(before) && after.requests == before.requests
    requires forall a :: ReservedOf(after, a) == ReservedOf(before, a)
    ensures Counted(after)
  {
    forall a
      ensures ReservedOf(after, a) == Total(FlagWeights(after, a))
    {
      assert ReservedOf(before, a) == Total(FlagWeights(before, a));
      assert FlagWeights(after, a) == FlagWeights(before, a);
    }
  }

  lemma PutQuota(cfg: Config, s: State, a: Address, max: Option<Option<nat>>, expiresAt: Option<Option<int>>,
      enabled: Option<bool>)
    requires QuotaInv(cfg, s)
    ensures QuotaInv(cfg, PutBindingStep(s, a, max, expiresAt, enabled))
  {
    hide Counted;
    SameReserved(s.db, G.UpsertBinding(s.db, a, max, expiresAt, enabled));
  }

  lemma ResetQuota(cfg: Config, s: State, a: Address, max: Option<Option<nat>>)
    requires QuotaInv(cfg, s)
    ensures QuotaInv(cfg, ResetBindingStep(cfg, s, a, max))
  {
    hide Counted, G.HasOpenPaidProviderActivity;
    SameReserved(s.db, G.ResetBindingUsage(s.db, a, max, cfg.provider).0);
  }

  /** A step that moves no unit and no limit. */
  lemma UnitsQuota(cfg: Config, s: State, s': State)
    requires QuotaInv(cfg, s) && SameUnits(s.db, s'.db) && s'.peak == s.peak
    ensures QuotaInv(cfg, s')
  {
    hide Counted;
    SameUnitsKeepCount(s.db, s'.db);
  }

  lemma ConcludeQuota(cfg: Config, s: State, t: TxId, state: RequestState, fault: Fault)
    requires QuotaInv(cfg, s)
    ensures QuotaInv(cfg, ConcludeStep(s, t, G.DropClaimOf(G.SetRequestState(s.db, t, state), t), fault))
  {
    hide QuotaInv, G.DropClaimOf, G.SetRequestState;
    ConcludeUnits(s.db, t, state);
    UnitsQuota(cfg, s, ConcludeStep(s, t, G.DropClaimOf(G.SetRequestState(s.db, t, state), t), fault));
  }

  lemma ArriveQuota(cfg: Config, s: State, e: Event)
    requires QuotaInv(cfg, s) && e.Arrive?
    ensures QuotaInv(cfg, ArriveStep(cfg, s, e.id, e.tx, e.wellFormed, e.permitted, e.now, e.fault))
  {
    hide QuotaInv, G.BeginRequest, Guarded, Usable;
    BeginUnits(s.db, e.tx);
    UnitsQuota(cfg, s, ArriveStep(cfg, s, e.id, e.tx, e.wellFormed, e.permitted, e.now, e.fault));
  }

  lemma OtherQuota(cfg: Config, s: State, e: Event)
    requires QuotaInv(cfg, s)
    ensures QuotaInv(cfg, SweepStep(s)) && QuotaInv(cfg, CrashStep(s))
    ensures e.ListStale? ==> QuotaInv(cfg, ListStaleStep(s, e.found))
    ensures e.ListAwaiting? ==> QuotaInv(cfg, ListAwaitingStep(s, e.found))
    ensures e.PutProvider? ==> QuotaInv(cfg, PutProviderStep(s, e.provider, e.row))
    ensures e.MoveLease? ==> QuotaInv(cfg, MoveLeaseStep(cfg, s, e.tx, e.leased))
  {
    hide QuotaInv, Owned, G.Releasable;
    UnitsQuota(cfg, s, SweepStep(s));
    UnitsQuota(cfg, s, CrashStep(s));
    if e.ListStale? {
      UnitsQuota(cfg, s, ListStaleStep(s, e.found));
    } else if e.ListAwaiting? {
      UnitsQuota(cfg, s, ListAwaitingStep(s, e.found));
    } else if e.PutProvider? {
      UnitsQuota(cfg, s, PutProviderStep(s, e.provider, e.row));
    } else if e.MoveLease? {
      UnitsQuota(cfg, s, MoveLeaseStep(cfg, s, e.tx, e.leased));
    }
  }

  lemma StartQuota(cfg: Config, s: State, fault: Fault)
    requires QuotaInv(cfg, s)
    ensures QuotaInv(cfg, StartStep(s, fault))
  {
    hide QuotaInv, P.RecoverInterruptedOrders;
    RecoverUnits(s.db);
    UnitsQuota(cfg, s, StartStep(s, fault));
  }

  lemma QuotaNext(cfg: Config, s: State, e: Event)
    requires Inv(cfg, s) && QuotaInv(cfg, s)
    ensures QuotaInv(cfg, Next(cfg, s, e))
  {
    hide Inv, QuotaInv, HandlerStep, ArriveStep, SweepStep, ListStaleStep, ListAwaitingStep, ConcludeStep,
        PutBindingStep,
      ResetBindingStep, PutProviderStep, MoveLeaseStep, StartStep, CrashStep, Commit, WorkerDone, G.DropClaimOf,
        G.SetRequestState;
    match e
    case Arrive(_, _, _, _, _, _) => ArriveQuota(cfg, s, e);
    case Step(id, input, fault) => StepQuota(cfg, s, id, input, fault);
    case Recover(t, accepted, fault) => RecoverQuota(cfg, s, t, accepted, fault);
    case Finalize(t, success, fault) =>
      ConcludeQuota(cfg, s, t, if success then SolidifiedSuccess else SolidifiedFailed, fault);
    case Expire(t, fault) => ConcludeQuota(cfg, s, t, Expired, fault);
    case PutBinding(a, max, expiresAt, enabled) => PutQuota(cfg, s, a, max, expiresAt, enabled);
    case ResetBinding(a, max) => ResetQuota(cfg, s, a, max);
    case Start(fault) => StartQuota(cfg, s, fault);
    case _ => OtherQuota(cfg, s, e);
  }

  lemma RecoverUnits(db: Db)
    ensures SameUnits(db, P.RecoverInterruptedOrders(db))
  {
  }

  lemma {:induction false} RunQuota(cfg: Config, events: seq<Event>)
    ensures Inv(cfg, Run(cfg, events)) && QuotaInv(cfg, Run(cfg, events))
  {
    hide Inv, Next;
    RunInv(cfg, events);
    if events == [] {
      forall a
        ensures ReservedOf(Init().db, a) == Total(FlagWeights(Init().db, a))
      {
        assert FlagWeights(Init().db, a) == map[];
      }
    } else {
      RunQuota(cfg, events[..|events| - 1]);
      QuotaNext(cfg, Run(cfg, events[..|events| - 1]), events[|events| - 1]);
    }
  }
}
