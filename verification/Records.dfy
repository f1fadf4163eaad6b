/** What every event leaves true of the rows and of the handlers at work. */
module Records {
  import opened Options
  import opened Schema
  import opened Gateway
  import opened TxInvariant
  import opened WriteLemmas
  import opened HandlerLemmas
  import opened Invariant
  import opened Prepare
  import opened Conduct
  import G = GatewayRepository
  import P = ProviderRepository

  ghost predicate Hit(s: State, t: TxId) {
    t in s.overwritten
  }

  ghost predicate RowsTrue(cfg: Config, s: State) {
    forall t :: Accounts(cfg, Hit(s, t), TxView(s, t))
  }

  ghost predicate HandlersTrue(cfg: Config, s: State) {
    forall i :: i in s.handlers && !s.handlers[i].late ==>
      Conducts(cfg, Hit(s, s.handlers[i].tx), TxView(s, s.handlers[i].tx), s.handlers[i])
  }

  /** Only accepted transactions wait for finality. */
  ghost predicate AwaitingTrue(s: State) {
    forall t :: t in s.awaiting ==> TraceOf(s, t).accepted > 0
  }

  ghost predicate RecordInv(cfg: Config, s: State) {
    RowsTrue(cfg, s) && HandlersTrue(cfg, s) && AwaitingTrue(s)
  }

  lemma ViewParts(s: State, t: TxId)
    ensures TxView(s, t).trace == TraceOf(s, t) && TxView(s, t).order == OrderIn(s.db, t)
    ensures TxView(s, t).request == RequestIn(s.db, t)
  {
  }

  // ---- a step of one handler ----------------------------------------------------------------------------

  /** A live handler's step: its own transaction and place change, and nothing else does. */
  lemma OwnStep(cfg: Config, s: State, s': State, id: nat, next: Option<Handler>)
    requires Inv(cfg, s) && RecordInv(cfg, s) && Steps(cfg, s, s', id, next) && !s.handlers[id].late
    requires OnlyTx(s, s', s.handlers[id].tx) && s'.overwritten == s.overwritten
    requires Accounts(cfg, Hit(s, s.handlers[id].tx), TxView(s', s.handlers[id].tx))
    requires next.Some? && !next.value.late ==>
      Conducts(cfg, Hit(s, s.handlers[id].tx), TxView(s', s.handlers[id].tx), next.value)
    ensures RecordInv(cfg, s')
  {
    hide TxOk, Fit, Accounts, Conducts, TxView, BindingsThere;
    var t := s.handlers[id].tx;
    forall i | i in s'.handlers && !s'.handlers[i].late
      ensures Conducts(cfg, Hit(s', s'.handlers[i].tx), TxView(s', s'.handlers[i].tx), s'.handlers[i])
    {
      if i != id {
        assert Conducts(cfg, Hit(s, s.handlers[i].tx), TxView(s, s.handlers[i].tx), s.handlers[i]);
      }
    }
    forall u | u in s'.awaiting
      ensures TraceOf(s', u).accepted > 0
    {
      assert !Owned(s, u);
      ViewParts(s, u);
      ViewParts(s', u);
    }
  }

  lemma NextSteps(cfg: Config, s: State, s': State, id: nat, next: Option<Handler>)
    requires s.up && id in s.handlers && s'.handlers == Place(s, id, next).handlers
    requires s'.up == s.up && s'.stale == s.stale && s'.awaiting == s.awaiting
    requires next.Some? ==> next.value.tx == s.handlers[id].tx && (s.handlers[id].late ==> next.value.late)
    ensures Steps(cfg, s, s', id, next)
  {
  }

  lemma LiveFacts(cfg: Config, s: State, id: nat)
    requires Inv(cfg, s) && PrepareInv(s) && RecordInv(cfg, s) && id in s.handlers && !s.handlers[id].late
    ensures var h, v := s.handlers[id], TxView(s, s.handlers[id].tx);
      && TxOk(cfg, h.tx, v) && HandlerOk(cfg, v, h) && Basics(v) && KnowsOrder(v.order, h)
      && Conducts(cfg, Hit(s, h.tx), v, h) && Accounts(cfg, Hit(s, h.tx), v)
      && (h.pc.Opening? ==> h.tx !in s.db.orders)
  {
    hide TxOk, HandlerOk, DetailOk, EnergyOk, Basics, KnowsOrder, KnowsCharge, Conducts, Accounts, TxView, Hit,
      OneInside, WorkersOk, Alone, BindingsThere;
    var h, v := s.handlers[id], TxView(s, s.handlers[id].tx);
    assert HandlerWell(cfg, s, h);
    assert Knows(v, h);
    BasicsOk(cfg, h.tx, v);
    if h.pc.Opening? {
      OpeningHasNone(cfg, s, id);
    }
  }

  /** Where a write leaves its handler, it conducts itself, seen from the rows that are there. */
  lemma AfterWriteConducts(cfg: Config, hit: bool, db: Db, v: View, v': View, h: Handler, w: Write, input: Input,
      fault: Fault)
    requires GoesOnWell(cfg, hit, v, v', h, Apply(cfg, db, h.tx, w).1, input) && Intent(cfg, h, input) == Some(w)
    ensures var next := AfterWrite(cfg, db, h, w, input, fault);
      next.Some? && !next.value.late ==> Conducts(cfg, hit, if fault.NotApplied? then v else v', next.value)
  {
    hide Conducts, Apply, Resume, Fail, Intent;
    LateOnlyByDiscard(cfg, db, h, w, input, fault);
    DiscardNeverThrows(cfg, db, h, input);
  }

  lemma DiscardNeverThrows(cfg: Config, db: Db, h: Handler, input: Input)
    ensures h.pc.Discarding? ==> Intent(cfg, h, input) == Some(DiscardRow) && Apply(cfg, db, h.tx, DiscardRow).1 == Yes
  {
  }

  lemma LiveWriteTrue(cfg: Config, s: State, id: nat, w: Write, input: Input, fault: Fault)
    requires Inv(cfg, s) && PrepareInv(s) && RecordInv(cfg, s) && s.up && id in s.handlers && !s.handlers[id].late
    requires Intent(cfg, s.handlers[id], input) == Some(w)
    ensures RecordInv(cfg, WriteStep(cfg, s, id, s.handlers[id], w, input, fault))
  {
    hide TxsOk, HandlersOk, WorkersOk, Alone, PrepareInv, TxOk, HandlerOk, Basics, KnowsOrder, Conducts, Accounts,
      Intent, Apply, AfterWrite, Commit, WriteStep, After, TxView, ViewOf, RecordInv, Steps, GoesOnWell;
    var h := s.handlers[id];
    var s' := WriteStep(cfg, s, id, h, w, input, fault);
    var next := AfterWrite(cfg, s.db, h, w, input, fault);
    LiveFacts(cfg, s, id);
    BindingOf(s.db, h.tx);
    WriteViewIs(s, h.tx);
    WriteConducts(cfg, Hit(s, h.tx), s.db, TraceOf(s, h.tx), h, w, input);
    CommittedViews(cfg, s, h.tx, w, fault);
    WriteStepIs(cfg, s, id, h, w, input, fault);
    SameViews(s', Commit(cfg, s, h.tx, w, fault));
    NextStaysLate(cfg, s.db, h, w, input, fault);
    NextSteps(cfg, s, s', id, next);
    AfterWriteConducts(cfg, Hit(s, h.tx), s.db, TxView(s, h.tx), After(cfg, s.db, TraceOf(s, h.tx), h.tx, w), h, w,
      input, fault);
    OwnStep(cfg, s, s', id, next);
  }

  lemma SameViews(s: State, s': State)
    requires s.db == s'.db && s.history == s'.history
    ensures forall u :: TxView(s, u) == TxView(s', u)
  {
  }

  lemma LateOnlyByDiscard(cfg: Config, db: Db, h: Handler, w: Write, input: Input, fault: Fault)
    requires Intent(cfg, h, input) == Some(w)
    ensures var next := AfterWrite(cfg, db, h, w, input, fault);
      h.pc.Discarding? && !fault.NotApplied? && next.Some? ==> next.value.late
  {
    hide Fail;
  }

  lemma LiveSenseTrue(cfg: Config, s: State, id: nat, input: Input)
    requires Inv(cfg, s) && PrepareInv(s) && RecordInv(cfg, s) && s.up && id in s.handlers && !s.handlers[id].late
    ensures RecordInv(cfg, SenseStep(cfg, s, id, s.handlers[id], input))
  {
    hide TxsOk, HandlersOk, WorkersOk, Alone, PrepareInv, TxOk, HandlerOk, Basics, KnowsOrder, Conducts, Accounts,
      Sense, SenseStep, RowsOf, RecordInv, Steps;
    var h := s.handlers[id];
    var s' := SenseStep(cfg, s, id, h, input);
    var sensed := Sense(cfg, s.db, TraceOf(s, h.tx), h, input);
    LiveFacts(cfg, s, id);
    ViewParts(s, h.tx);
    SenseConducts(cfg, Hit(s, h.tx), s.db, TxView(s, h.tx), h, input);
    SenseStepIs(cfg, s, id, h, input);
    if sensed.Moved? {
      TracedView(s, h.tx, sensed.trace);
      assert TxView(s', h.tx) == TxView(s, h.tx).(trace := sensed.trace);
      assert OnlyTx(s, s', h.tx);
      NextSteps(cfg, s, s', id, sensed.next);
      OwnStep(cfg, s, s', id, sensed.next);
    }
  }

  // ---- a late handler's write -----------------------------------------------------------------------------

  lemma HitForgives(cfg: Config, hit: bool, v: View, v': View, h: Handler)
    requires Conducts(cfg, hit, v, h) && v'.order == v.order && v'.trace == v.trace
    ensures Conducts(cfg, true, v', h)
  {
    hide MayBeCharged, PaidMode, Required, Arrived, LastSaidYes;
  }

  lemma HitAccounts(cfg: Config, hit: bool, v: View, v': View)
    requires Accounts(cfg, hit, v) && RequestMove(cfg, v, v', Complete(Failed))
    ensures Accounts(cfg, true, v')
  {
    hide MayBeCharged, PaidMode, LastSaidYes;
    assert v'.trace == v.trace;
  }

  lemma LateView(cfg: Config, db: Db, trace: Trace, t: TxId)
    requires Flagged(db, t) ==> t.owner in db.bindings
    ensures RequestMove(cfg, ViewOf(db, trace, t), After(cfg, db, trace, t, Complete(Failed)), Complete(Failed))
  {
    RequestWriteMoves(cfg, db, trace, t, Complete(Failed));
  }

  lemma LateWriteTrue(cfg: Config, s: State, id: nat, w: Write, input: Input, fault: Fault)
    requires Inv(cfg, s) && RecordInv(cfg, s) && s.up && id in s.handlers && s.handlers[id].late
    requires Intent(cfg, s.handlers[id], input) == Some(w)
    ensures RecordInv(cfg, WriteStep(cfg, s, id, s.handlers[id], w, input, fault))
  {
    hide TxsOk, Fit, TxOk, WorkersOk, Alone, Conducts, Accounts, Intent, Apply, Resume, Fail, Commit, WriteStep, After,
      TxView, ViewOf, RequestMove;
    var h := s.handlers[id];
    var t := h.tx;
    var s' := WriteStep(cfg, s, id, h, w, input, fault);
    assert HandlerWell(cfg, s, h);
    LateWrites(cfg, h, input);
    assert AfterWrite(cfg, s.db, h, w, input, fault).None?;
    BindingOf(s.db, t);
    WriteViewIs(s, t);
    CommittedViews(cfg, s, t, w, fault);
    WriteStepIs(cfg, s, id, h, w, input, fault);
    SameViews(s', Commit(cfg, s, t, w, fault));
    LateView(cfg, s.db, TraceOf(s, t), t);
    forall u
      ensures Accounts(cfg, Hit(s', u), TxView(s', u))
    {
      assert Accounts(cfg, Hit(s, u), TxView(s, u));
      if u == t && !fault.NotApplied? {
        HitAccounts(cfg, Hit(s, t), TxView(s, t), TxView(s', t));
      }
    }
    forall i | i in s'.handlers && !s'.handlers[i].late
      ensures Conducts(cfg, Hit(s', s'.handlers[i].tx), TxView(s', s'.handlers[i].tx), s'.handlers[i])
    {
      var g := s.handlers[i];
      assert Conducts(cfg, Hit(s, g.tx), TxView(s, g.tx), g);
      if g.tx == t && !fault.NotApplied? {
        LateMoves(cfg, TxView(s, t), TxView(s', t));
        HitForgives(cfg, Hit(s, t), TxView(s, t), TxView(s', t), g);
      }
    }
    forall u | u in s'.awaiting
      ensures TraceOf(s', u).accepted > 0
    {
      ViewParts(s, u);
      ViewParts(s', u);
      if u == t && !fault.NotApplied? {
        LateMoves(cfg, TxView(s, t), TxView(s', t));
      }
    }
  }

  lemma LateMoves(cfg: Config, v: View, v': View)
    requires RequestMove(cfg, v, v', Complete(Failed))
    ensures v'.order == v.order && v'.trace == v.trace
  {
  }

  // ---- workers -----------------------------------------------------------------------------------------------

  /** A worker's write for a transaction no live handler is at work on. */
  lemma WorkerStep(cfg: Config, s: State, s': State, t: TxId)
    requires RecordInv(cfg, s) && !Owned(s, t) && OnlyTx(s, s', t)
    requires s'.handlers == s.handlers && s'.overwritten == s.overwritten && s'.awaiting <= s.awaiting
    requires Accounts(cfg, Hit(s, t), TxView(s', t)) && TraceOf(s, t).accepted <= TraceOf(s', t).accepted
    ensures RecordInv(cfg, s')
  {
    hide Accounts, Conducts, TxView, TraceOf;
    forall i | i in s'.handlers && !s'.handlers[i].late
      ensures Conducts(cfg, Hit(s', s'.handlers[i].tx), TxView(s', s'.handlers[i].tx), s'.handlers[i])
    {
      assert Conducts(cfg, Hit(s, s.handlers[i].tx), TxView(s, s.handlers[i].tx), s.handlers[i]);
    }
    forall u | u in s'.awaiting
      ensures TraceOf(s', u).accepted > 0
    {
      ViewParts(s, u);
      ViewParts(s', u);
    }
  }

  lemma OutcomeAccounts(cfg: Config, hit: bool, db: Db, trace: Trace, t: TxId, accepted: bool)
    requires Accounts(cfg, hit, ViewOf(db, trace, t)) && (Flagged(db, t) ==> t.owner in db.bindings)
    ensures var v' := After(cfg, db, trace, t, RecordOutcome(accepted));
      Accounts(cfg, hit, v') && trace.accepted <= v'.trace.accepted
  {
    hide Accounts, After, Apply;
    var w := RecordOutcome(accepted);
    var v, v' := ViewOf(db, trace, t), After(cfg, db, trace, t, w);
    RequestWriteMoves(cfg, db, trace, t, w);
    RequestWriteAccounts(cfg, hit, v, v', w);
  }

  lemma RecoverTrue(cfg: Config, s: State, t: TxId, accepted: bool, fault: Fault)
    requires Inv(cfg, s) && RecordInv(cfg, s)
    ensures RecordInv(cfg, RecoverStep(cfg, s, t, accepted, fault))
  {
    hide TxsOk, HandlersOk, Alone, Accounts, Conducts, Apply, Commit, TxView, ViewOf, After, HandlersTrue, Owned;
    if s.up && t in s.stale {
      var left := s.(stale := s.stale - {t});
      var c := Commit(cfg, left, t, RecordOutcome(accepted), fault);
      var s' := RecoverStep(cfg, s, t, accepted, fault);
      SameViews(s, left);
      assert Accounts(cfg, Hit(s, t), TxView(s, t));
      BindingOf(s.db, t);
      WriteViewIs(left, t);
      CommittedViews(cfg, left, t, RecordOutcome(accepted), fault);
      SameViews(s', c);
      OutcomeAccounts(cfg, Hit(s, t), s.db, TraceOf(s, t), t, accepted);
      ViewParts(s', t);
      ViewParts(s, t);
      WorkerStep(cfg, s, s', t);
    }
  }

  lemma ConcludedAccounts(cfg: Config, hit: bool, v: View, state: RequestState)
    requires Accounts(cfg, hit, v) && v.trace.accepted > 0 && v.request.Some?
    requires state.SolidifiedSuccess? || state.SolidifiedFailed? || state.Expired?
    ensures Accounts(cfg, hit, v.(request := Some(v.request.value.(state := state))))
  {
    hide MayBeCharged, PaidMode, LastSaidYes, Arrived;
  }

  lemma ConcludeTrue(cfg: Config, s: State, t: TxId, state: RequestState, fault: Fault)
    requires Inv(cfg, s) && RecordInv(cfg, s)
    requires state.SolidifiedSuccess? || state.SolidifiedFailed? || state.Expired?
    ensures RecordInv(cfg, ConcludeStep(s, t, G.DropClaimOf(G.SetRequestState(s.db, t, state), t), fault))
  {
    hide TxsOk, HandlersOk, Alone, Accounts, Conducts, HandlersTrue, Owned, TxView, G.DropClaimOf, G.SetRequestState;
    if s.up && t in s.awaiting {
      var s' := ConcludeStep(s, t, G.DropClaimOf(G.SetRequestState(s.db, t, state), t), fault);
      assert Accounts(cfg, Hit(s, t), TxView(s, t));
      ViewParts(s, t);
      if fault.NotApplied? {
        SameViews(s, s');
      } else {
        ConcludedViews(s, s', t, state);
        ConcludedAccounts(cfg, Hit(s, t), TxView(s, t), state);
      }
      WorkerStep(cfg, s, s', t);
    }
  }

  lemma ConcludedViews(s: State, s': State, t: TxId, state: RequestState)
    requires s'.history == s.history && t in s.db.requests
    requires s'.db == G.DropClaimOf(G.SetRequestState(s.db, t, state), t)
    ensures OnlyTx(s, s', t)
    ensures TxView(s', t) == TxView(s, t).(request := Some(s.db.requests[t].(state := state)))
  {
    hide RowsOf;
  }

  lemma ListAwaitingTrue(cfg: Config, s: State, found: set<TxId>)
    requires RecordInv(cfg, s)
    ensures RecordInv(cfg, ListAwaitingStep(s, found))
  {
    hide Conducts, Deserved, Awaited;
    var s' := ListAwaitingStep(s, found);
    SameViews(s, s');
    forall t
      ensures Accounts(cfg, Hit(s', t), TxView(s', t))
      ensures t in found && t in s.db.requests && s.db.requests[t].state.UpstreamAccepted? ==>
        TraceOf(s, t).accepted > 0
    {
      assert Accounts(cfg, Hit(s, t), TxView(s, t));
      ViewParts(s, t);
    }
    forall i | i in s'.handlers && !s'.handlers[i].late
      ensures Conducts(cfg, Hit(s', s'.handlers[i].tx), TxView(s', s'.handlers[i].tx), s'.handlers[i])
    {
      assert Conducts(cfg, Hit(s, s.handlers[i].tx), TxView(s, s.handlers[i].tx), s.handlers[i]);
    }
  }

  // ---- arrivals, restarts and the rest ------------------------------------------------------------------------

  /** Nothing the records speak of has changed, and no handler has come. */
  lemma SameTrue(cfg: Config, s: State, s': State)
    requires RecordInv(cfg, s) && s'.history == s.history && s'.overwritten == s.overwritten
    requires s'.db.requests == s.db.requests && s'.db.orders == s.db.orders && s'.db.ledger == s.db.ledger
    requires forall i :: i in s'.handlers ==> i in s.handlers && s'.handlers[i] == s.handlers[i]
    requires s'.awaiting <= s.awaiting
    ensures RecordInv(cfg, s')
  {
    hide Accounts, Conducts, RowsOf;
    assert forall t :: TxView(s', t) == TxView(s, t);
    forall t
      ensures Accounts(cfg, Hit(s', t), TxView(s', t))
    {
      assert Accounts(cfg, Hit(s, t), TxView(s, t));
    }
    forall i | i in s'.handlers && !s'.handlers[i].late
      ensures Conducts(cfg, Hit(s', s'.handlers[i].tx), TxView(s', s'.handlers[i].tx), s'.handlers[i])
    {
      assert Conducts(cfg, Hit(s, s.handlers[i].tx), TxView(s, s.handlers[i].tx), s.handlers[i]);
    }
  }

  lemma RecoveredAccounts(cfg: Config, hit: bool, v: View)
    requires Accounts(cfg, hit, v)
    ensures Accounts(cfg, hit, RecoveredView(v))
  {
    hide MayBeCharged, PaidMode, LastSaidYes, Arrived;
  }

  lemma StartTrue(cfg: Config, s: State, fault: Fault)
    requires Inv(cfg, s) && RecordInv(cfg, s)
    ensures RecordInv(cfg, StartStep(s, fault))
  {
    hide TxsOk, HandlersOk, Alone, WorkersOk, BindingsThere, Accounts, Conducts, RowsOf, ViewOf, RecoveredView,
      P.RecoverInterruptedOrders;
    if !s.up && !fault.NotApplied? {
      var s' := StartStep(s, fault);
      forall t
        ensures Accounts(cfg, Hit(s', t), TxView(s', t))
      {
        assert Accounts(cfg, Hit(s, t), TxView(s, t));
        RecoverView(s.db, TraceOf(s, t), t);
        RecoveredAccounts(cfg, Hit(s, t), TxView(s, t));
      }
    }
  }

  lemma NewTrue(cfg: Config, hit: bool, t: TxId)
    ensures var v := View(Some(Request(Received, false, None)), None, map[], NO_TRACE);
      Accounts(cfg, hit, v) && Conducts(cfg, hit, v, NewHandler(t))
  {
  }

  lemma BegunTrue(cfg: Config, s: State, t: TxId, id: nat, next: Option<Handler>)
    requires Inv(cfg, s) && RecordInv(cfg, s) && s.up && t !in s.db.requests && id !in s.handlers
    requires next.Some? ==> next.value == NewHandler(t)
    ensures RecordInv(cfg, Place(s.(db := G.BeginRequest(s.db, t)), id, next))
  {
    hide TxOk, Fit, Accounts, Conducts, RowsOf, NewHandler, Alone, BindingsThere;
    var begun := s.(db := G.BeginRequest(s.db, t));
    var s' := Place(begun, id, next);
    assert TxOk(cfg, t, TxView(s, t));
    BlankView(cfg, t, TxView(s, t));
    BeginView(s, t);
    NobodyHere(cfg, s, t);
    NewTrue(cfg, Hit(s, t), t);
    NewIs(t);
    forall u
      ensures Accounts(cfg, Hit(s', u), TxView(s', u))
    {
      assert Accounts(cfg, Hit(s, u), TxView(s, u));
      assert u != t ==> TxView(s', u) == TxView(s, u);
    }
    forall i | i in s'.handlers && !s'.handlers[i].late
      ensures Conducts(cfg, Hit(s', s'.handlers[i].tx), TxView(s', s'.handlers[i].tx), s'.handlers[i])
    {
      if i in s.handlers {
        assert Conducts(cfg, Hit(s, s.handlers[i].tx), TxView(s, s.handlers[i].tx), s.handlers[i]);
      }
    }
  }

  lemma ArriveTrue(cfg: Config, s: State, e: Event)
    requires Inv(cfg, s) && RecordInv(cfg, s) && e.Arrive?
    ensures RecordInv(cfg, ArriveStep(cfg, s, e.id, e.tx, e.wellFormed, e.permitted, e.now, e.fault))
  {
    hide Inv, RecordInv, Guarded, Usable, Sponsorable, NewHandler, G.BeginRequest;
    SameTrue(cfg, s, s.(relayed := s.relayed + [e.tx]));
    if s.up && e.id !in s.handlers && e.tx !in s.db.requests {
      BegunTrue(cfg, s, e.tx, e.id, Some(NewHandler(e.tx)));
      BegunTrue(cfg, s, e.tx, e.id, None);
      assert Place(s.(db := G.BeginRequest(s.db, e.tx)), e.id, None) == s.(db := G.BeginRequest(s.db, e.tx));
    }
  }

  lemma StepTrue(cfg: Config, s: State, id: nat, input: Input, fault: Fault)
    requires Inv(cfg, s) && PrepareInv(s) && RecordInv(cfg, s) && s.up
    ensures RecordInv(cfg, HandlerStep(cfg, s, id, input, fault))
  {
    hide Inv, PrepareInv, RecordInv, WriteStep, SenseStep, Intent;
    if id in s.handlers {
      var intent := Intent(cfg, s.handlers[id], input);
      if intent.Some? {
        if s.handlers[id].late {
          LateWriteTrue(cfg, s, id, intent.value, input, fault);
        } else {
          LiveWriteTrue(cfg, s, id, intent.value, input, fault);
        }
      } else if s.handlers[id].late {
        LateAlwaysWrites(cfg, s, id, input);
      } else {
        LiveSenseTrue(cfg, s, id, input);
      }
    }
  }

  lemma LateAlwaysWrites(cfg: Config, s: State, id: nat, input: Input)
    requires Inv(cfg, s) && id in s.handlers && s.handlers[id].late
    ensures Intent(cfg, s.handlers[id], input).Some?
  {
    hide TxsOk, Fit, WorkersOk, Alone, BindingsThere;
    assert HandlerWell(cfg, s, s.handlers[id]);
    LateWrites(cfg, s.handlers[id], input);
  }

  ghost predicate SameRecorded(s: State, s': State) {
    && s'.history == s.history && s'.overwritten == s.overwritten
    && s'.db.requests == s.db.requests && s'.db.orders == s.db.orders && s'.db.ledger == s.db.ledger
    && s'.awaiting <= s.awaiting && s'.handlers == s.handlers
  }

  lemma SettingsRecordNothing(cfg: Config, s: State, e: Event)
    ensures SameRecorded(s, SweepStep(s))
    ensures e.ListStale? ==> SameRecorded(s, ListStaleStep(s, e.found))
    ensures e.PutBinding? ==> SameRecorded(s, PutBindingStep(s, e.address, e.max, e.expiresAt, e.enabled))
    ensures e.ResetBinding? ==> SameRecorded(s, ResetBindingStep(cfg, s, e.address, e.max))
    ensures e.PutProvider? ==> SameRecorded(s, PutProviderStep(s, e.provider, e.row))
    ensures e.MoveLease? ==> SameRecorded(s, MoveLeaseStep(cfg, s, e.tx, e.leased))
  {
    hide Owned, Stale, Losses, Raise, G.Releasable, G.HasOpenPaidProviderActivity;
  }

  lemma RecordNext(cfg: Config, s: State, e: Event)
    requires Inv(cfg, s) && PrepareInv(s) && RecordInv(cfg, s)
    ensures RecordInv(cfg, Next(cfg, s, e))
  {
    hide Inv, PrepareInv, RecordInv, HandlerStep, ArriveStep, SweepStep, ListStaleStep, ListAwaitingStep, ConcludeStep,
        PutBindingStep, ResetBindingStep, PutProviderStep, MoveLeaseStep, StartStep, RecoverStep, G.DropClaimOf,
        G.SetRequestState, Waits;
    match e
    case Arrive(_, _, _, _, _, _) => ArriveTrue(cfg, s, e);
    case Step(id, input, fault) =>
      if s.up {
        StepTrue(cfg, s, id, input, fault);
      }
    case Recover(t, accepted, fault) => RecoverTrue(cfg, s, t, accepted, fault);
    case ListAwaiting(found) => ListAwaitingTrue(cfg, s, found);
    case Finalize(t, success, fault) =>
      ConcludeTrue(cfg, s, t, if success then SolidifiedSuccess else SolidifiedFailed, fault);
    case Expire(t, fault) => ConcludeTrue(cfg, s, t, Expired, fault);
    case Crash => SameTrue(cfg, s, CrashStep(s));
    case Start(fault) => StartTrue(cfg, s, fault);
    case _ =>
      SettingsRecordNothing(cfg, s, e);
      SameTrue(cfg, s, Next(cfg, s, e));
  }

  lemma InitTrue(cfg: Config)
    ensures RecordInv(cfg, Init())
  {
    assert RowsOf(map[], TxId(0, OtherContract, 0)) == map[];
  }

  /** After every run the rows and the handlers at work tell the truth. */
  lemma {:induction false} RunRecords(cfg: Config, events: seq<Event>)
    ensures RecordInv(cfg, Run(cfg, events))
  {
    if events == [] {
      InitTrue(cfg);
    } else {
      hide Inv, Next, PrepareInv, RecordInv;
      var before := events[..|events| - 1];
      RunInv(cfg, before);
      RunPrepare(cfg, before);
      RunRecords(cfg, before);
      RecordNext(cfg, Run(cfg, before), events[|events| - 1]);
    }
  }

  lemma RecordsHold(cfg: Config, s: State)
    requires Reachable(cfg, s)
    ensures RecordInv(cfg, s) && Inv(cfg, s) && PrepareInv(s)
  {
    hide Run, Inv, PrepareInv, RecordInv;
    var events :| s == Run(cfg, events);
    RunInv(cfg, events);
    RunPrepare(cfg, events);
    RunRecords(cfg, events);
  }
}
