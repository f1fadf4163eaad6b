/** The used counter of an address is the number of units consumed for it since its last reset. */
module Usage {
  import opened Options
  import opened Schema
  import opened Totals
  import opened EnergyPackages
  import opened Gateway
  import opened TxInvariant
  import opened WriteLemmas
  import opened Invariant
  import opened Quota
  import G = GatewayRepository

  function ConsumedWeights(history: map<TxId, Trace>, a: Address): map<TxId, nat> {
    map t | t in history :: if t.owner == a then history[t].consumed else 0
  }

  function Counter(s: State, a: Address): nat {
    UsedOf(s.db, a) + WrittenOff(s, a)
  }

  ghost predicate Tallied(s: State) {
    forall a :: Counter(s, a) == Total(ConsumedWeights(s.history, a))
  }

  /** Only the history of t moved, and the counter of its owner moved with it. */
  ghost predicate TallyMoves(s: State, s': State, t: TxId) {
    && (forall u :: u != t ==> (u in s'.history <==> u in s.history))
    && (forall u :: u != t && u in s.history ==> s'.history[u] == s.history[u])
    && (forall a :: a != t.owner ==> Counter(s', a) == Counter(s, a))
    && Counter(s', t.owner) + TraceOf(s, t).consumed == Counter(s, t.owner) + TraceOf(s', t).consumed
  }

  lemma RemoveTrace(s: State, t: TxId, a: Address)
    ensures Total(ConsumedWeights(s.history, a)) ==
      Total(ConsumedWeights(s.history, a) - {t}) + (if t.owner == a then TraceOf(s, t).consumed else 0)
  {
    var w := ConsumedWeights(s.history, a);
    if t in w {
      TotalSplit(w, t);
    } else {
      assert w - {t} == w;
    }
  }

  lemma RestKeeps(s: State, s': State, t: TxId, a: Address)
    requires TallyMoves(s, s', t)
    ensures ConsumedWeights(s'.history, a) - {t} == ConsumedWeights(s.history, a) - {t}
  {
    hide Counter;
  }

  lemma TallyAt(s: State, s': State, t: TxId, a: Address)
    requires Counter(s, a) == Total(ConsumedWeights(s.history, a)) && TallyMoves(s, s', t)
    ensures Counter(s', a) == Total(ConsumedWeights(s'.history, a))
  {
    hide Total, Counter, ConsumedWeights;
    RemoveTrace(s, t, a);
    RemoveTrace(s', t, a);
    RestKeeps(s, s', t, a);
  }

  lemma TallyKeeps(s: State, s': State, t: TxId)
    requires Tallied(s) && TallyMoves(s, s', t)
    ensures Tallied(s')
  {
    hide TallyMoves, Counter, ConsumedWeights, Total;
    forall a
      ensures Counter(s', a) == Total(ConsumedWeights(s'.history, a))
    {
      TallyAt(s, s', t, a);
    }
  }

  // ---- writes --------------------------------------------------------------------------------------

  /** Usage rises by what the history counts as consumed, at the owner alone. */
  ghost predicate UsedMoves(before: Db, after: Db, trace: Trace, trace': Trace, t: TxId) {
    && (forall a :: a != t.owner ==> UsedOf(after, a) == UsedOf(before, a))
    && UsedOf(after, t.owner) + trace.consumed == UsedOf(before, t.owner) + trace'.consumed
  }

  lemma MoveUses(db: Db, trace: Trace, t: TxId, w: Write)
    requires (w.ConsumeUnit? || w.ReleaseUnit?) && (Flagged(db, t) ==> t.owner in db.bindings)
    ensures var after := G.MoveQuota(db, t.owner, t, w.ConsumeUnit?);
      UsedMoves(db, after, trace, Observe(trace, db, after, t, w), t)
  {
  }

  lemma OutcomeUses(db: Db, trace: Trace, t: TxId, w: Write)
    requires w.RecordOutcome? && (Flagged(db, t) ==> t.owner in db.bindings)
    ensures var after := G.RecordBroadcastOutcome(db, t.owner, t, w.accepted);
      UsedMoves(db, after, trace, Observe(trace, db, after, t, w), t)
  {
    OutcomeBindings(db, t, w.accepted);
    RecordOutcomeEffect(db, t, w.accepted);
    hide G.RecordBroadcastOutcome;
  }

  lemma ReserveUses(db: Db, trace: Trace, t: TxId, w: Write, finite: bool)
    requires w.ReserveUnit?
    ensures var after := G.ReserveQuota(db, t.owner, t, finite, w.now).0;
      UsedMoves(db, after, trace, Observe(trace, db, after, t, w), t)
  {
  }

  lemma SameBindingsUse(before: Db, after: Db, trace: Trace, t: TxId, w: Write)
    requires after.bindings == before.bindings
    ensures UsedMoves(before, after, trace, Observe(trace, before, after, t, w), t)
  {
  }

  lemma WriteUses(cfg: Config, db: Db, trace: Trace, t: TxId, w: Write)
    requires Flagged(db, t) ==> t.owner in db.bindings
    ensures var after := Apply(cfg, db, t, w).0; UsedMoves(db, after, trace, Observe(trace, db, after, t, w), t)
  {
    hide UsedMoves, Observe, G.MoveQuota, G.ReserveQuota, G.RecordBroadcastOutcome;
    if w.ConsumeUnit? || w.ReleaseUnit? {
      MoveUses(db, trace, t, w);
    } else if w.RecordOutcome? {
      OutcomeUses(db, trace, t, w);
    } else if w.ReserveUnit? {
      ReserveUses(db, trace, t, w, cfg.provider);
    } else if RequestWrite(w) {
      PlainBindings(cfg, db, t, w);
      SameBindingsUse(db, Apply(cfg, db, t, w).0, trace, t, w);
    } else {
      OrderKeepsBindings(cfg, db, t, w);
      SameBindingsUse(db, Apply(cfg, db, t, w).0, trace, t, w);
    }
  }

  lemma CommitTally(cfg: Config, s: State, t: TxId, w: Write, fault: Fault)
    requires BindingsThere(s.db)
    ensures TallyMoves(s, Commit(cfg, s, t, w, fault), t)
    ensures Commit(cfg, s, t, w, fault).writtenOff == s.writtenOff
  {
    hide Apply, Observe;
    if !fault.NotApplied? {
      WriteUses(cfg, s.db, TraceOf(s, t), t, w);
    }
  }

  // ---- events --------------------------------------------------------------------------------------

  /** Nothing the tally depends on has changed. */
  ghost predicate SameTally(s: State, s': State) {
    s'.history == s.history && s'.writtenOff == s.writtenOff && forall a :: UsedOf(s'.db, a) == UsedOf(s.db, a)
  }

  lemma SameTallyKeeps(s: State, s': State)
    requires Tallied(s) && SameTally(s, s')
    ensures Tallied(s')
  {
    forall a
      ensures Counter(s', a) == Total(ConsumedWeights(s'.history, a))
    {
      assert Counter(s, a) == Total(ConsumedWeights(s.history, a));
    }
  }

  lemma SenseTally(cfg: Config, s: State, id: nat, h: Handler, input: Input)
    ensures TallyMoves(s, SenseStep(cfg, s, id, h, input), h.tx)
  {
    hide Sense;
    SenseSettlesNothing(cfg, s.db, TraceOf(s, h.tx), h, input);
  }

  lemma SenseSettlesNothing(cfg: Config, db: Db, trace: Trace, h: Handler, input: Input)
    ensures var sensed := Sense(cfg, db, trace, h, input); sensed.Moved? ==> sensed.trace.consumed == trace.consumed
  {
    hide Catch, AfterPrepare, Duplicate, Prepared, ListsEnabled, IsQuote, Offers;
  }

  lemma WriteTally(cfg: Config, s: State, id: nat, h: Handler, w: Write, input: Input, fault: Fault)
    requires BindingsThere(s.db)
    ensures TallyMoves(s, WriteStep(cfg, s, id, h, w, input, fault), h.tx)
  {
    hide Commit, AfterWrite, UnderPreparation;
    CommitTally(cfg, s, h.tx, w, fault);
  }

  lemma StepTally(cfg: Config, s: State, id: nat, input: Input, fault: Fault)
    requires Inv(cfg, s) && Tallied(s)
    ensures Tallied(HandlerStep(cfg, s, id, input, fault))
  {
    hide TxsOk, HandlersOk, Alone, WorkersOk, Idle, BindingsThere, Tallied, WriteStep, SenseStep, Intent, TallyMoves;
    if id in s.handlers {
      var h := s.handlers[id];
      var intent := Intent(cfg, h, input);
      if intent.Some? {
        WriteTally(cfg, s, id, h, intent.value, input, fault);
        TallyKeeps(s, WriteStep(cfg, s, id, h, intent.value, input, fault), h.tx);
      } else {
        SenseTally(cfg, s, id, h, input);
        TallyKeeps(s, SenseStep(cfg, s, id, h, input), h.tx);
      }
    }
  }

  lemma RecoverTally(cfg: Config, s: State, t: TxId, accepted: bool, fault: Fault)
    requires Inv(cfg, s) && Tallied(s)
    ensures Tallied(RecoverStep(cfg, s, t, accepted, fault))
  {
    hide TxsOk, HandlersOk, Alone, WorkersOk, Idle, BindingsThere, Tallied, Commit;
    var s0 := s.(stale := s.stale - {t});
    SameTallyKeeps(s, s0);
    CommitTally(cfg, s0, t, RecordOutcome(accepted), fault);
    var c := Commit(cfg, s0, t, RecordOutcome(accepted), fault);
    TallyKeeps(s0, c, t);
    SameTallyKeeps(c, WorkerDone(c, fault));
  }

  /** A reset moves usage from the counter to what was written off. */
  lemma ResetTally(cfg: Config, s: State, a: Address, max: Option<Option<nat>>)
    requires Tallied(s)
    ensures Tallied(ResetBindingStep(cfg, s, a, max))
  {
    hide G.HasOpenPaidProviderActivity, Raise;
    var s' := ResetBindingStep(cfg, s, a, max);
    forall b
      ensures Counter(s', b) == Total(ConsumedWeights(s'.history, b))
    {
      assert Counter(s, b) == Total(ConsumedWeights(s.history, b));
    }
  }

  lemma ConcludeUsesNothing(s: State, t: TxId, state: RequestState, fault: Fault)
    ensures SameTally(s, ConcludeStep(s, t, G.DropClaimOf(G.SetRequestState(s.db, t, state), t), fault))
  {
  }

  lemma ArrivalUsesNothing(cfg: Config, s: State, e: Event)
    requires e.Arrive?
    ensures SameTally(s, ArriveStep(cfg, s, e.id, e.tx, e.wellFormed, e.permitted, e.now, e.fault))
  {
    hide Guarded, Usable, Sponsorable, NewHandler;
  }

  lemma OthersUseNothing(cfg: Config, s: State, e: Event)
    ensures SameTally(s, SweepStep(s)) && SameTally(s, CrashStep(s))
    ensures e.ListStale? ==> SameTally(s, ListStaleStep(s, e.found))
    ensures e.ListAwaiting? ==> SameTally(s, ListAwaitingStep(s, e.found))
    ensures e.PutBinding? ==> SameTally(s, PutBindingStep(s, e.address, e.max, e.expiresAt, e.enabled))
    ensures e.PutProvider? ==> SameTally(s, PutProviderStep(s, e.provider, e.row))
    ensures e.MoveLease? ==> SameTally(s, MoveLeaseStep(cfg, s, e.tx, e.leased))
    ensures e.Start? ==> SameTally(s, StartStep(s, e.fault))
  {
    hide Owned, Raise, G.Releasable;
  }

  lemma UsageNext(cfg: Config, s: State, e: Event)
    requires Inv(cfg, s) && Tallied(s)
    ensures Tallied(Next(cfg, s, e))
  {
    hide Inv, Tallied, SameTally, HandlerStep, ArriveStep, SweepStep, ListStaleStep, ListAwaitingStep, ConcludeStep,
        PutBindingStep,
      ResetBindingStep, PutProviderStep, MoveLeaseStep, StartStep, CrashStep, RecoverStep, G.DropClaimOf,
        G.SetRequestState;
    match e
    case Step(id, input, fault) => StepTally(cfg, s, id, input, fault);
    case Recover(t, accepted, fault) => RecoverTally(cfg, s, t, accepted, fault);
    case ResetBinding(a, max) => ResetTally(cfg, s, a, max);
    case _ =>
      assert SameTally(s, Next(cfg, s, e)) by {
        match e
        case Arrive(_, _, _, _, _, _) => ArrivalUsesNothing(cfg, s, e);
        case Finalize(t, success, fault) =>
          ConcludeUsesNothing(s, t, if success then SolidifiedSuccess else SolidifiedFailed, fault);
        case Expire(t, fault) => ConcludeUsesNothing(s, t, Expired, fault);
        case _ => OthersUseNothing(cfg, s, e);
      }
      SameTallyKeeps(s, Next(cfg, s, e));
  }

  lemma {:induction false} RunUsage(cfg: Config, events: seq<Event>)
    ensures Tallied(Run(cfg, events))
  {
    if events == [] {
      hide Next;
      forall a
        ensures Counter(Init(), a) == Total(ConsumedWeights(Init().history, a))
      {
        assert ConsumedWeights(Init().history, a) == map[];
      }
    } else {
      hide Inv, Next, Tallied;
      var before := events[..|events| - 1];
      RunInv(cfg, before);
      RunUsage(cfg, before);
      UsageNext(cfg, Run(cfg, before), events[|events| - 1]);
    }
  }
}
