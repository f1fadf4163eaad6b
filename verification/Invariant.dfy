/** The transaction and handler invariants hold in every reachable state. */
module Invariant {
  import opened Options
  import opened Schema
  import opened EnergyPackages
  import opened Gateway
  import opened TxInvariant
  import opened WriteLemmas
  import opened HandlerLemmas
  import opened SenseLemmas
  import opened StepLemmas
  import G = GatewayRepository
  import P = ProviderRepository

  // ---- the invariant ----------------------------------------------------------------------------

  ghost predicate TxsOk(cfg: Config, s: State) {
    forall t :: TxOk(cfg, t, TxView(s, t))
  }

  /** A live handler is fit and alone on its transaction; a late one is about to write its last state. */
  ghost predicate HandlerWell(cfg: Config, s: State, h: Handler) {
    if h.late then h.pc.CatchFailing?
    else Fit(cfg, TxView(s, h.tx), h) && (cfg.sponsorEnergy || !Guarded(cfg, h.tx))
  }

  ghost predicate HandlersOk(cfg: Config, s: State) {
    forall i :: i in s.handlers ==> HandlerWell(cfg, s, s.handlers[i])
  }

  ghost predicate Alone(s: State) {
    forall i, j :: i in s.handlers && j in s.handlers && i != j && !s.handlers[i].late && !s.handlers[j].late ==>
      s.handlers[i].tx != s.handlers[j].tx
  }

  /** Workers keep to transactions no live handler is at work on. */
  ghost predicate WorkersOk(s: State) {
    && (forall t :: t in s.stale ==> t in s.db.requests && !Owned(s, t))
    && (forall t :: t in s.awaiting ==> t in s.db.requests && !Flagged(s.db, t) && !Owned(s, t))
  }

  /** A reserved unit has a binding to count against. */
  ghost predicate BindingsThere(db: Db) {
    forall t :: Flagged(db, t) ==> t.owner in db.bindings
  }

  ghost predicate Idle(s: State) {
    !s.up ==> s.handlers == map[] && s.stale == {} && s.awaiting == {}
  }

  ghost predicate Inv(cfg: Config, s: State) {
    TxsOk(cfg, s) && HandlersOk(cfg, s) && Alone(s) && WorkersOk(s) && BindingsThere(s.db) && Idle(s)
  }

  lemma InitInv(cfg: Config)
    ensures Inv(cfg, Init())
  {
    forall t
      ensures TxOk(cfg, t, TxView(Init(), t))
    {
      assert RowsOf(map[], t) == map[];
    }
  }

  // ---- writes ------------------------------------------------------------------------------------

  /** A committed write changes the view of its own transaction only. */
  lemma CommitViews(cfg: Config, s: State, t: TxId, w: Write, u: TxId)
    ensures TxView(Commit(cfg, s, t, w, Acked), u) ==
      if u == t then After(cfg, s.db, TraceOf(s, t), t, w) else TxView(s, u)
  {
    hide Observe, Apply;
    if u != t {
      WriteTouchesOneTx(cfg, s.db, t, w, u, TraceOf(s, u));
    }
  }

  lemma ReserveNeedsBinding(db: Db, t: TxId, finite: bool, now: int, u: TxId)
    requires BindingsThere(db)
    ensures var after := G.ReserveQuota(db, t.owner, t, finite, now).0;
      db.bindings.Keys <= after.bindings.Keys && (Flagged(after, u) ==> u.owner in after.bindings)
  {
  }

  lemma SettleKeepsBindings(db: Db, t: TxId, consume: bool, u: TxId)
    requires BindingsThere(db)
    ensures var after := G.MoveQuota(db, t.owner, t, consume);
      db.bindings.Keys <= after.bindings.Keys && (Flagged(after, u) ==> u.owner in after.bindings)
  {
  }

  lemma OutcomeKeepsBindings(db: Db, t: TxId, accepted: bool, u: TxId)
    requires BindingsThere(db)
    ensures var after := G.RecordBroadcastOutcome(db, t.owner, t, accepted);
      db.bindings.Keys <= after.bindings.Keys && (Flagged(after, u) ==> u.owner in after.bindings)
  {
    SettleKeepsBindings(db, t, accepted || G.ProviderBillable(db, t), u);
  }

  lemma PlainKeepsBindings(cfg: Config, db: Db, t: TxId, w: Write, u: TxId)
    requires BindingsThere(db) && RequestWrite(w) && !QuotaWrite(w)
    ensures var after := Apply(cfg, db, t, w).0;
      db.bindings.Keys <= after.bindings.Keys && (Flagged(after, u) ==> u.owner in after.bindings)
  {
    match w
    case AcquireClaim =>
    case DropClaim =>
    case DiscardRow =>
    case SaveEstimate =>
    case SetState(state) =>
    case Complete(state) =>
  }

  lemma OrderKeepsBindings(cfg: Config, db: Db, t: TxId, w: Write)
    requires !RequestWrite(w)
    ensures OrderFrame(db, Apply(cfg, db, t, w).0)
  {
    if w.StartAttempt? {
      StartFrame(db, cfg.limits, t, w.provider, w.amount, w.day, t);
    } else if w.FinishAttempt? {
      TransitionFrame(db, t, w.provider, w.outcome, t);
    } else {
      OrderWriteTouches(cfg, db, t, w);
    }
  }

  lemma WriteKeepsBindings(cfg: Config, db: Db, t: TxId, w: Write)
    requires BindingsThere(db)
    ensures BindingsThere(Apply(cfg, db, t, w).0)
  {
    forall u
      ensures Flagged(Apply(cfg, db, t, w).0, u) ==> u.owner in Apply(cfg, db, t, w).0.bindings
    {
      if w.ReserveUnit? {
        ReserveNeedsBinding(db, t, cfg.provider, w.now, u);
      } else if w.ConsumeUnit? || w.ReleaseUnit? {
        SettleKeepsBindings(db, t, w.ConsumeUnit?, u);
      } else if w.RecordOutcome? {
        OutcomeKeepsBindings(db, t, w.accepted, u);
      } else if RequestWrite(w) {
        PlainKeepsBindings(cfg, db, t, w, u);
      } else {
        OrderKeepsBindings(cfg, db, t, w);
      }
    }
  }

  // ---- a step of one handler -------------------------------------------------------------------------

  ghost predicate OnlyTx(s: State, s': State, t: TxId) {
    forall u :: u != t ==> TxView(s', u) == TxView(s, u)
  }

  /** What a late handler's write leaves to the live handler and the workers. */
  ghost predicate Harmless(cfg: Config, s: State, s': State, t: TxId) {
    && (forall j :: j in s.handlers && s.handlers[j].tx == t && !s.handlers[j].late ==>
          Fit(cfg, TxView(s', t), s.handlers[j]))
    && (t in s.db.requests ==> t in s'.db.requests)
    && (Flagged(s'.db, t) ==> Flagged(s.db, t))
  }

  ghost predicate Steps(cfg: Config, s: State, s': State, id: nat, next: Option<Handler>) {
    && s.up && id in s.handlers
    && s'.handlers == Place(s, id, next).handlers && s'.up == s.up && s'.stale == s.stale && s'.awaiting == s.awaiting
    && (next.Some? ==> next.value.tx == s.handlers[id].tx && (s.handlers[id].late ==> next.value.late))
  }

  lemma ViewRows(s: State, t: TxId)
    ensures t in s.db.requests <==> TxView(s, t).request.Some?
    ensures Flagged(s.db, t) <==> FlagOf(TxView(s, t))
  {
  }

  lemma StepWorkers(cfg: Config, s: State, s': State, id: nat, next: Option<Handler>)
    requires WorkersOk(s) && Steps(cfg, s, s', id, next) && OnlyTx(s, s', s.handlers[id].tx)
    requires s.handlers[id].late ==> Harmless(cfg, s, s', s.handlers[id].tx)
    ensures WorkersOk(s')
  {
    hide Fit;
    var t := s.handlers[id].tx;
    forall u
      ensures u in s.stale || u in s.awaiting ==> !Owned(s', u)
      ensures u in s.stale || u in s.awaiting ==> u in s'.db.requests && (Flagged(s'.db, u) ==> Flagged(s.db, u))
    {
      if u in s.stale || u in s.awaiting {
        assert !Owned(s, u);
        ViewRows(s, u);
        ViewRows(s', u);
      }
    }
  }

  lemma StepAlone(cfg: Config, s: State, s': State, id: nat, next: Option<Handler>)
    requires Alone(s) && Steps(cfg, s, s', id, next)
    ensures Alone(s')
  {
  }

  lemma StepHandlers(cfg: Config, s: State, s': State, id: nat, next: Option<Handler>)
    requires HandlersOk(cfg, s) && Alone(s) && Steps(cfg, s, s', id, next) && OnlyTx(s, s', s.handlers[id].tx)
    requires next.Some? ==> HandlerWell(cfg, s', next.value)
    requires s.handlers[id].late ==> Harmless(cfg, s, s', s.handlers[id].tx)
    ensures HandlersOk(cfg, s')
  {
    hide Fit, TxView;
    forall j | j in s'.handlers
      ensures HandlerWell(cfg, s', s'.handlers[j])
    {
      if j != id {
        assert HandlerWell(cfg, s, s.handlers[j]);
      }
    }
  }

  lemma StepInv(cfg: Config, s: State, s': State, id: nat, next: Option<Handler>)
    requires Inv(cfg, s) && Steps(cfg, s, s', id, next)
    requires OnlyTx(s, s', s.handlers[id].tx) && TxOk(cfg, s.handlers[id].tx, TxView(s', s.handlers[id].tx))
    requires next.Some? ==> HandlerWell(cfg, s', next.value)
    requires s.handlers[id].late ==> Harmless(cfg, s, s', s.handlers[id].tx)
    requires BindingsThere(s'.db)
    ensures Inv(cfg, s')
  {
    hide TxOk, HandlerWell, WorkersOk, Alone, HandlersOk, Harmless, TxView;
    StepWorkers(cfg, s, s', id, next);
    StepAlone(cfg, s, s', id, next);
    StepHandlers(cfg, s, s', id, next);
  }

  // Steps stay on their transaction, and a late handler stays late.

  lemma FailStays(cfg: Config, h: Handler)
    ensures Stays(Fail(cfg, h), h)
  {
    hide Catch, CatchRest, CatchUnclaim;
    match h.pc
    case Accepting(_) =>
    case Doubting(_) =>
    case Fulfilling =>
    case Readying =>
    case CatchConsuming =>
    case CatchDropping =>
    case _ =>
  }

  lemma EarlyResumeStays(cfg: Config, h: Handler, reply: Reply, input: Input)
    requires h.pc.Claiming? || h.pc.Reserving? || h.pc.DroppingClaim? || h.pc.SavingEstimate? || h.pc.Opening?
      || h.pc.Attempting?
    ensures Stays(Resume(cfg, h, reply, input), h)
  {
    hide Catch, Duplicate, Opened, Started;
  }

  lemma OrderResumeStays(cfg: Config, h: Handler, reply: Reply, input: Input)
    requires h.pc.RefusingOrder? || h.pc.Refusing? || h.pc.Accepting? || h.pc.Doubting? || h.pc.Consuming?
    ensures Stays(Resume(cfg, h, reply, input), h)
  {
    hide Catch;
  }

  lemma LaterResumeStays(cfg: Config, h: Handler, reply: Reply, input: Input)
    requires h.pc.Fulfilling? || h.pc.TimingOut? || h.pc.Readying? || h.pc.CatchConsuming? || h.pc.CatchReleasing?
      || h.pc.CatchDropping?
    ensures Stays(Resume(cfg, h, reply, input), h)
  {
    hide Catch, CatchRest, CatchUnclaim;
  }

  lemma ResumeStays(cfg: Config, h: Handler, reply: Reply, input: Input)
    requires Intent(cfg, h, input).Some?
    ensures Stays(Resume(cfg, h, reply, input), h)
  {
    hide Catch, CatchRest, CatchUnclaim, CatchConclude, Opened, Started, Stays, AfterPrepare;
    if h.pc.Claiming? || h.pc.Reserving? || h.pc.DroppingClaim? || h.pc.SavingEstimate? || h.pc.Opening?
      || h.pc.Attempting? {
      EarlyResumeStays(cfg, h, reply, input);
    } else if h.pc.RefusingOrder? || h.pc.Refusing? || h.pc.Accepting? || h.pc.Doubting? || h.pc.Consuming? {
      OrderResumeStays(cfg, h, reply, input);
    } else if h.pc.Fulfilling? || h.pc.TimingOut? || h.pc.Readying? || h.pc.CatchConsuming?
      || h.pc.CatchReleasing? || h.pc.CatchDropping? {
      LaterResumeStays(cfg, h, reply, input);
    } else {
      EndingResume(cfg, h, reply, input);
      StopsHere(h);
    }
  }

  lemma EndingResume(cfg: Config, h: Handler, reply: Reply, input: Input)
    requires h.pc.Discarding? || h.pc.CachingReject? || h.pc.Recording? || h.pc.CatchReadying? || h.pc.CatchFailing?
    ensures Resume(cfg, h, reply, input).None?
  {
    hide Catch, CatchRest, CatchUnclaim;
  }

  lemma StopsHere(h: Handler)
    ensures Stays(None, h)
  {
  }

  lemma SenseInv(cfg: Config, s: State, id: nat, input: Input)
    requires Inv(cfg, s) && s.up && id in s.handlers && Intent(cfg, s.handlers[id], input).None?
    ensures Inv(cfg, SenseStep(cfg, s, id, s.handlers[id], input))
  {
    hide TxOk, Fit, Sense, WorkersOk, Alone, BindingsThere, Harmless, RowsOf;
    var h := s.handlers[id];
    var sensed := Sense(cfg, s.db, TraceOf(s, h.tx), h, input);
    assert HandlerWell(cfg, s, h);
    if sensed.Moved? {
      assert !h.late by { LateWrites(cfg, h, input); }
      var s' := SenseStep(cfg, s, id, h, input);
      assert TxOk(cfg, h.tx, TxView(s, h.tx));
      assert Seen(s.db, h.tx, TxView(s, h.tx));
      SenseOk(cfg, s.db, TxView(s, h.tx), h, input);
      TracedView(s, h.tx, sensed.trace);
      assert TxView(s', h.tx) == TxView(s, h.tx).(trace := sensed.trace);
      assert OnlyTx(s, s', h.tx);
      StepInv(cfg, s, s', id, sensed.next);
    }
  }

  lemma TracedView(s: State, t: TxId, trace: Trace)
    ensures TxView(WithTrace(s, t, trace), t) == TxView(s, t).(trace := trace)
  {
  }

  /** A late handler's next step is its last write. */
  lemma LateWrites(cfg: Config, h: Handler, input: Input)
    ensures h.late && h.pc.CatchFailing? ==> Intent(cfg, h, input) == Some(Complete(Failed)) && Fail(cfg, h).None?
    ensures h.late && h.pc.CatchFailing? ==> forall reply :: Resume(cfg, h, reply, input).None?
  {
  }

  /** A write that was not carried out, or was, as the state records it. */
  lemma CommittedViews(cfg: Config, s: State, t: TxId, w: Write, fault: Fault)
    ensures var c := Commit(cfg, s, t, w, fault);
      && OnlyTx(s, c, t)
      && TxView(c, t) == (if fault.NotApplied? then TxView(s, t) else After(cfg, s.db, TraceOf(s, t), t, w))
      && c.handlers == s.handlers && c.up == s.up && c.stale == s.stale && c.awaiting == s.awaiting
      && c.stripped == s.stripped && c.overwritten == s.overwritten
      && c.db == (if fault.NotApplied? then s.db else Apply(cfg, s.db, t, w).0)
  {
    hide Observe, Apply, After, ViewOf;
    if !fault.NotApplied? {
      assert Commit(cfg, s, t, w, fault) == Commit(cfg, s, t, w, Acked);
      forall u
        ensures TxView(Commit(cfg, s, t, w, fault), u) ==
          if u == t then After(cfg, s.db, TraceOf(s, t), t, w) else TxView(s, u)
      {
        CommitViews(cfg, s, t, w, u);
      }
    }
  }

  lemma WriteStepIs(cfg: Config, s: State, id: nat, h: Handler, w: Write, input: Input, fault: Fault)
    ensures var c, s' := Commit(cfg, s, h.tx, w, fault), WriteStep(cfg, s, id, h, w, input, fault);
      && s'.db == c.db && s'.history == c.history && s'.up == c.up && s'.stale == c.stale && s'.awaiting == c.awaiting
      && s'.peak == c.peak && s'.relayed == c.relayed && s'.stripped == c.stripped
      && s'.overwritten == s.overwritten + (if h.late && !fault.NotApplied? then {h.tx} else {})
      && s'.handlers == Place(c, id, AfterWrite(cfg, s.db, h, w, input, fault)).handlers
  {
    hide Commit, AfterWrite, UnderPreparation;
  }

  /** A live handler's discard that was carried out unseen makes it late; it will write its last state. */
  lemma DiscardTurnsLate(cfg: Config, v: View, h: Handler)
    requires HandlerOk(cfg, v, h) && h.pc.Discarding?
    ensures MarkLate(Fail(cfg, h)) == Some(h.(pc := CatchFailing, late := true))
    ensures !h.late ==> Fail(cfg, h) == Some(h.(pc := CatchFailing))
  {
  }

  lemma DiscardReplies(cfg: Config, db: Db, h: Handler, input: Input)
    requires h.pc.Discarding?
    ensures Intent(cfg, h, input) == Some(DiscardRow) && Apply(cfg, db, h.tx, DiscardRow).1 == Yes
  {
  }

  lemma LiveWriteFit(cfg: Config, s: State, id: nat, h: Handler, w: Write, input: Input, fault: Fault)
    requires TxOk(cfg, h.tx, TxView(s, h.tx)) && Fit(cfg, TxView(s, h.tx), h) && !h.late
    requires cfg.sponsorEnergy || !Guarded(cfg, h.tx)
    requires Intent(cfg, h, input) == Some(w) && BindingsThere(s.db)
    ensures var c, next := Commit(cfg, s, h.tx, w, fault), AfterWrite(cfg, s.db, h, w, input, fault);
      && TxOk(cfg, h.tx, TxView(c, h.tx))
      && (next.Some? ==> next.value.tx == h.tx && HandlerWell(cfg, c, next.value))
  {
    hide TxOk, HandlerOk, DetailOk, EnergyOk, Apply, Resume, Fail, TxView, Commit, After, Intent, Guarded;
    CommittedViews(cfg, s, h.tx, w, fault);
    WriteViewIs(s, h.tx);
    WriteFit(cfg, s.db, TraceOf(s, h.tx), h, w, input);
    ResumeStays(cfg, h, Apply(cfg, s.db, h.tx, w).1, input);
    FailStays(cfg, h);
    if h.pc.Discarding? {
      DiscardTurnsLate(cfg, TxView(s, h.tx), h);
      DiscardReplies(cfg, s.db, h, input);
    }
  }

  lemma WriteViewIs(s: State, t: TxId)
    ensures TxView(s, t) == ViewOf(s.db, TraceOf(s, t), t)
  {
  }

  lemma LiveWriteInv(cfg: Config, s: State, id: nat, w: Write, input: Input, fault: Fault)
    requires Inv(cfg, s) && s.up && id in s.handlers && !s.handlers[id].late
    requires Intent(cfg, s.handlers[id], input) == Some(w)
    ensures Inv(cfg, WriteStep(cfg, s, id, s.handlers[id], w, input, fault))
  {
    hide TxOk, Fit, Apply, AfterWrite, Commit, WriteStep, Intent, Guarded, RowsOf, WorkersOk, Alone, BindingsThere,
        Harmless;
    var h := s.handlers[id];
    assert HandlerWell(cfg, s, h);
    assert TxOk(cfg, h.tx, TxView(s, h.tx));
    CommittedViews(cfg, s, h.tx, w, fault);
    WriteStepIs(cfg, s, id, h, w, input, fault);
    LiveWriteFit(cfg, s, id, h, w, input, fault);
    WriteKeepsBindings(cfg, s.db, h.tx, w);
    StepInv(cfg, s, WriteStep(cfg, s, id, h, w, input, fault), id, AfterWrite(cfg, s.db, h, w, input, fault));
  }

  // ---- a late handler's write ------------------------------------------------------------------------

  /** Marking a request FAILED does not disturb a handler at work on it. */
  lemma FailedKeepsFit(cfg: Config, db: Db, trace: Trace, h: Handler)
    requires Fit(cfg, ViewOf(db, trace, h.tx), h) && TxOk(cfg, h.tx, ViewOf(db, trace, h.tx))
    requires Flagged(db, h.tx) ==> h.tx.owner in db.bindings
    ensures Fit(cfg, After(cfg, db, trace, h.tx, Complete(Failed)), h)
  {
    hide TxOk, HandlerOk, EnergyOk, After;
    var w := Complete(Failed);
    var v, v' := ViewOf(db, trace, h.tx), After(cfg, db, trace, h.tx, w);
    RequestThere(cfg, v, h);
    WriteMoves(cfg, db, trace, h.tx, w);
    QuietAlike(cfg, h.tx, v, v', w);
    AlikeOk(cfg, v, v', h);
  }

  lemma CompleteKeepsRow(cfg: Config, db: Db, t: TxId)
    ensures var after := Apply(cfg, db, t, Complete(Failed)).0;
      && (t in db.requests ==> t in after.requests) && (Flagged(after, t) ==> Flagged(db, t))
  {
  }

  lemma LateHarmless(cfg: Config, s: State, t: TxId, fault: Fault)
    requires Inv(cfg, s)
    ensures Harmless(cfg, s, Commit(cfg, s, t, Complete(Failed), fault), t)
    ensures TxOk(cfg, t, TxView(Commit(cfg, s, t, Complete(Failed), fault), t))
  {
    hide TxOk, Fit, Apply, Commit, WorkersOk, Alone, After, ViewOf;
    var w := Complete(Failed);
    var c := Commit(cfg, s, t, w, fault);
    CommittedViews(cfg, s, t, w, fault);
    WriteViewIs(s, t);
    CompleteKeepsRow(cfg, s.db, t);
    assert TxOk(cfg, t, TxView(s, t));
    WriteKeepsTx(cfg, s.db, TraceOf(s, t), t, w);
    forall j | j in s.handlers && s.handlers[j].tx == t && !s.handlers[j].late
      ensures Fit(cfg, TxView(c, t), s.handlers[j])
    {
      assert HandlerWell(cfg, s, s.handlers[j]);
      FailedKeepsFit(cfg, s.db, TraceOf(s, t), s.handlers[j]);
    }
  }

  lemma LateWriteInv(cfg: Config, s: State, id: nat, w: Write, input: Input, fault: Fault)
    requires Inv(cfg, s) && s.up && id in s.handlers && s.handlers[id].late
    requires Intent(cfg, s.handlers[id], input) == Some(w)
    ensures Inv(cfg, WriteStep(cfg, s, id, s.handlers[id], w, input, fault))
  {
    hide TxOk, Fit, Apply, Commit, WriteStep, Intent, Guarded, RowsOf, WorkersOk, Alone, BindingsThere, Resume, Fail;
    var h := s.handlers[id];
    assert HandlerWell(cfg, s, h);
    LateWrites(cfg, h, input);
    CommittedViews(cfg, s, h.tx, w, fault);
    WriteStepIs(cfg, s, id, h, w, input, fault);
    LateHarmless(cfg, s, h.tx, fault);
    WriteKeepsBindings(cfg, s.db, h.tx, w);
    assert AfterWrite(cfg, s.db, h, w, input, fault).None?;
    StepInv(cfg, s, WriteStep(cfg, s, id, h, w, input, fault), id, None);
  }

  lemma HandlerInv(cfg: Config, s: State, id: nat, input: Input, fault: Fault)
    requires Inv(cfg, s) && s.up
    ensures Inv(cfg, HandlerStep(cfg, s, id, input, fault))
  {
    hide Inv, WriteStep, SenseStep, Intent;
    if id in s.handlers {
      var intent := Intent(cfg, s.handlers[id], input);
      if intent.None? {
        SenseInv(cfg, s, id, input);
      } else if s.handlers[id].late {
        LateWriteInv(cfg, s, id, intent.value, input, fault);
      } else {
        LiveWriteInv(cfg, s, id, intent.value, input, fault);
      }
    }
  }

  // ---- arrival, workers and administrators ---------------------------------------------------------------

  /** A transaction whose request row is missing has left no trace. */
  lemma BlankView(cfg: Config, t: TxId, v: View)
    requires TxOk(cfg, t, v) && v.request.None?
    ensures v == View(None, None, map[], NO_TRACE)
  {
  }

  lemma ReceivedFits(cfg: Config, t: TxId)
    ensures var v := View(Some(Request(Received, false, None)), None, map[], NO_TRACE);
      TxOk(cfg, t, v) && Fit(cfg, v, NewHandler(t))
  {
  }

  lemma BeginView(s: State, t: TxId)
    requires t !in s.db.requests
    ensures var begun := s.(db := G.BeginRequest(s.db, t));
      && OnlyTx(s, begun, t)
      && TxView(begun, t) == TxView(s, t).(request := Some(Request(Received, false, None)))
  {
  }

  /** A handler appears on a transaction no live handler is at work on; the rest is untouched. */
  lemma ArriveInv(cfg: Config, s: State, id: nat, t: TxId, next: Option<Handler>)
    requires Inv(cfg, s) && s.up && id !in s.handlers && t !in s.db.requests
    requires cfg.sponsorEnergy || !Guarded(cfg, t)
    requires next.Some? ==> next.value == NewHandler(t)
    ensures Inv(cfg, Place(s.(db := G.BeginRequest(s.db, t)), id, next))
  {
    hide TxOk, Fit, Guarded, NewHandler, RowsOf;
    var s' := Place(s.(db := G.BeginRequest(s.db, t)), id, next);
    assert TxOk(cfg, t, TxView(s, t));
    BlankView(cfg, t, TxView(s, t));
    BeginView(s, t);
    ReceivedFits(cfg, t);
    NobodyHere(cfg, s, t);
    assert TxView(s', t) == View(Some(Request(Received, false, None)), None, map[], NO_TRACE);
    forall u
      ensures TxOk(cfg, u, TxView(s', u))
    {
      assert TxOk(cfg, u, TxView(s, u));
      assert u != t ==> TxView(s', u) == TxView(s, u);
    }
    assert next.Some? ==> next.value.tx == t && !next.value.late by { NewIs(t); }
    ArriveHandlers(cfg, s, s', id, t, next);
    ArriveWorkers(s, s', id, t, next);
  }

  lemma NewIs(t: TxId)
    ensures NewHandler(t).tx == t && !NewHandler(t).late
  {
  }

  lemma NobodyHere(cfg: Config, s: State, t: TxId)
    requires HandlersOk(cfg, s) && t !in s.db.requests
    ensures !Owned(s, t)
  {
    hide DetailOk, EnergyOk, PhaseOk;
    forall i | i in s.handlers && s.handlers[i].tx == t
      ensures s.handlers[i].late
    {
      assert HandlerWell(cfg, s, s.handlers[i]);
    }
  }

  ghost predicate Arrives(s: State, s': State, id: nat, t: TxId, next: Option<Handler>) {
    && id !in s.handlers && !Owned(s, t) && t !in s.db.requests
    && s'.handlers == (if next.Some? then s.handlers[id := next.value] else s.handlers)
    && (next.Some? ==> next.value.tx == t && !next.value.late)
    && s'.stale == s.stale && s'.awaiting == s.awaiting
    && (forall u :: u in s.db.requests ==> u in s'.db.requests)
    && (forall u :: u != t ==> (Flagged(s'.db, u) <==> Flagged(s.db, u)))
    && OnlyTx(s, s', t)
  }

  lemma ArriveHandlers(cfg: Config, s: State, s': State, id: nat, t: TxId, next: Option<Handler>)
    requires HandlersOk(cfg, s) && Alone(s) && Arrives(s, s', id, t, next)
    requires next.Some? ==> HandlerWell(cfg, s', next.value)
    ensures HandlersOk(cfg, s') && Alone(s')
  {
    hide Fit, TxView;
    forall j | j in s'.handlers
      ensures HandlerWell(cfg, s', s'.handlers[j])
    {
      if j in s.handlers {
        assert HandlerWell(cfg, s, s.handlers[j]);
      }
    }
  }

  lemma ArriveWorkers(s: State, s': State, id: nat, t: TxId, next: Option<Handler>)
    requires WorkersOk(s) && Arrives(s, s', id, t, next)
    ensures WorkersOk(s')
  {
    hide TxView;
    forall u | u in s.stale || u in s.awaiting
      ensures !Owned(s', u)
    {
      assert !Owned(s, u);
    }
  }

  /** A worker's write to a transaction no live handler is at work on. */
  ghost predicate WorkerMoves(s: State, s': State, t: TxId) {
    && s'.handlers == s.handlers && s'.up == s.up && !Owned(s, t) && OnlyTx(s, s', t)
    && s'.stale <= s.stale && s'.awaiting <= s.awaiting
    && t in s'.db.requests && (t in s'.awaiting ==> !Flagged(s'.db, t))
  }

  lemma WorkerInv(cfg: Config, s: State, s': State, t: TxId)
    requires Inv(cfg, s) && WorkerMoves(s, s', t) && TxOk(cfg, t, TxView(s', t)) && BindingsThere(s'.db)
    ensures Inv(cfg, s')
  {
    hide TxOk, Fit, TxView;
    forall i | i in s'.handlers
      ensures HandlerWell(cfg, s', s'.handlers[i])
    {
      assert HandlerWell(cfg, s, s.handlers[i]);
    }
    forall u | u in s'.stale || u in s'.awaiting
      ensures u in s'.db.requests && !Owned(s', u) && (u in s'.awaiting ==> !Flagged(s'.db, u))
    {
      assert !Owned(s, u);
      ViewRows(s, u);
      ViewRows(s', u);
    }
  }

  /** Shrinking the workers' lists changes nothing else. */
  lemma FewerTasks(cfg: Config, s: State, stale: set<TxId>, awaiting: set<TxId>)
    requires Inv(cfg, s) && stale <= s.stale && awaiting <= s.awaiting
    ensures Inv(cfg, s.(stale := stale, awaiting := awaiting))
  {
    hide TxOk, Fit;
    var s' := s.(stale := stale, awaiting := awaiting);
    assert forall t :: TxView(s', t) == TxView(s, t);
    forall i | i in s'.handlers
      ensures HandlerWell(cfg, s', s'.handlers[i])
    {
      assert HandlerWell(cfg, s, s.handlers[i]);
    }
    assert forall t :: Owned(s', t) ==> Owned(s, t);
  }

  lemma OutcomeUnflags(cfg: Config, db: Db, t: TxId, accepted: bool)
    requires t in db.requests
    ensures var after := Apply(cfg, db, t, RecordOutcome(accepted)).0; t in after.requests && !Flagged(after, t)
  {
  }

  lemma RecoverInv(cfg: Config, s: State, t: TxId, accepted: bool, fault: Fault)
    requires Inv(cfg, s) && s.up && t in s.stale
    ensures Inv(cfg, WorkerDone(Commit(cfg, s.(stale := s.stale - {t}), t, RecordOutcome(accepted), fault), fault))
  {
    hide TxOk, Fit, Apply, Commit, HandlersOk, Alone, BindingsThere, After, ViewOf;
    var s0 := s.(stale := s.stale - {t}, awaiting := s.awaiting);
    FewerTasks(cfg, s, s.stale - {t}, s.awaiting);
    var w := RecordOutcome(accepted);
    var c := Commit(cfg, s0, t, w, fault);
    if fault.NotApplied? {
      CommitNothing(cfg, s0, t, w);
      FewerTasks(cfg, c, {}, {});
    } else {
      CommittedViews(cfg, s0, t, w, fault);
      OutcomeUnflags(cfg, s.db, t, accepted);
      WriteKeepsBindings(cfg, s.db, t, w);
      WriteViewIs(s0, t);
      assert TxOk(cfg, t, TxView(s0, t));
      assert Flagged(s0.db, t) ==> t.owner in s0.db.bindings by { BindingOf(s0.db, t); }
      WriteKeepsTx(cfg, s0.db, TraceOf(s0, t), t, w);
      assert !Owned(s0, t) by { assert !Owned(s, t); OwnedSame(s, s0, t); }
      WorkerInv(cfg, s0, c, t);
      FewerTasks(cfg, c, {}, {});
    }
  }

  lemma BindingOf(db: Db, t: TxId)
    requires BindingsThere(db)
    ensures Flagged(db, t) ==> t.owner in db.bindings
  {
  }

  lemma OwnedSame(s: State, s': State, t: TxId)
    requires s'.handlers == s.handlers
    ensures Owned(s', t) <==> Owned(s, t)
  {
  }

  lemma CommitNothing(cfg: Config, s: State, t: TxId, w: Write)
    ensures Commit(cfg, s, t, w, NotApplied) == s
  {
  }

  lemma SettledKeepsTx(cfg: Config, t: TxId, v: View, state: RequestState)
    requires TxOk(cfg, t, v) && v.request.Some? && !FlagOf(v)
    ensures TxOk(cfg, t, v.(request := Some(v.request.value.(state := state))))
  {
  }

  lemma ConcludeInv(cfg: Config, s: State, t: TxId, state: RequestState)
    requires Inv(cfg, s) && t !in s.awaiting && t in s.db.requests && !Flagged(s.db, t) && !Owned(s, t)
    ensures Inv(cfg, s.(db := G.DropClaimOf(G.SetRequestState(s.db, t, state), t)))
  {
    hide TxOk, Fit, Owned;
    var s' := s.(db := G.DropClaimOf(G.SetRequestState(s.db, t, state), t));
    assert TxOk(cfg, t, TxView(s, t));
    SettledKeepsTx(cfg, t, TxView(s, t), state);
    assert TxView(s', t) == TxView(s, t).(request := Some(s.db.requests[t].(state := state)));
    assert OnlyTx(s, s', t);
    assert BindingsThere(s'.db);
    WorkerInv(cfg, s, s', t);
  }

  lemma FinalityInv(cfg: Config, s: State, t: TxId, state: RequestState, fault: Fault)
    requires Inv(cfg, s) && t in s.awaiting
    ensures var left := s.(awaiting := s.awaiting - {t});
      Inv(cfg, WorkerDone(if fault.NotApplied? then left
                          else left.(db := G.DropClaimOf(G.SetRequestState(s.db, t, state), t)), fault))
  {
    hide TxsOk, HandlersOk, Alone, BindingsThere, Owned;
    var left := s.(stale := s.stale, awaiting := s.awaiting - {t});
    FewerTasks(cfg, s, s.stale, s.awaiting - {t});
    if fault.NotApplied? {
      FewerTasks(cfg, left, {}, {});
    } else {
      OwnedSame(s, left, t);
      ConcludeInv(cfg, left, t, state);
      FewerTasks(cfg, left.(db := G.DropClaimOf(G.SetRequestState(s.db, t, state), t)), {}, {});
    }
  }

  // ---- writes to other tables ------------------------------------------------------------------------------

  ghost predicate SameRows(before: Db, after: Db) {
    && after.requests == before.requests && after.orders == before.orders && after.ledger == before.ledger
    && before.bindings.Keys <= after.bindings.Keys
  }

  lemma AdminInv(cfg: Config, s: State, s': State)
    requires Inv(cfg, s) && SameRows(s.db, s'.db)
    requires s'.handlers == s.handlers && s'.up == s.up && s'.history == s.history && s'.stale == s.stale
      && s'.awaiting == s.awaiting
    ensures Inv(cfg, s')
  {
    hide TxOk, Fit;
    assert forall t :: TxView(s', t) == TxView(s, t);
    forall i | i in s'.handlers
      ensures HandlerWell(cfg, s', s'.handlers[i])
    {
      assert HandlerWell(cfg, s, s.handlers[i]);
    }
    forall t
      ensures Owned(s', t) <==> Owned(s, t)
    {
      OwnedSame(s, s', t);
    }
  }

  lemma ListStaleInv(cfg: Config, s: State, found: set<TxId>)
    requires Inv(cfg, s) && s.up
    requires forall t :: t in found ==> t in s.db.requests && !Owned(s, t)
    ensures Inv(cfg, s.(stale := found))
  {
    hide TxOk, Fit;
    var s' := s.(stale := found);
    assert forall t :: TxView(s', t) == TxView(s, t);
    forall i | i in s'.handlers
      ensures HandlerWell(cfg, s', s'.handlers[i])
    {
      assert HandlerWell(cfg, s, s.handlers[i]);
    }
    forall t
      ensures Owned(s', t) <==> Owned(s, t)
    {
      OwnedSame(s, s', t);
    }
  }

  /** A request that was accepted upstream has no live handler, and its unit is settled. */
  lemma AcceptedIsFree(cfg: Config, s: State, t: TxId)
    requires Inv(cfg, s) && t in s.db.requests && s.db.requests[t].state.UpstreamAccepted?
    ensures !Owned(s, t) && !Flagged(s.db, t)
  {
    hide DetailOk, EnergyOk, PhaseOk, OrderAgreesWithLedger, CallsAgreeWithLedger;
    assert TxOk(cfg, t, TxView(s, t));
    forall i | i in s.handlers && s.handlers[i].tx == t
      ensures s.handlers[i].late
    {
      assert HandlerWell(cfg, s, s.handlers[i]);
    }
  }

  lemma ListAwaitingInv(cfg: Config, s: State, found: set<TxId>)
    requires Inv(cfg, s) && s.up
    requires forall t :: t in found ==> t in s.db.requests && s.db.requests[t].state.UpstreamAccepted?
    ensures Inv(cfg, s.(awaiting := found))
  {
    hide TxOk, Fit;
    var s' := s.(awaiting := found);
    assert forall t :: TxView(s', t) == TxView(s, t);
    forall i | i in s'.handlers
      ensures HandlerWell(cfg, s', s'.handlers[i])
    {
      assert HandlerWell(cfg, s, s.handlers[i]);
    }
    forall t
      ensures Owned(s', t) <==> Owned(s, t)
      ensures t in found ==> !Owned(s, t) && !Flagged(s.db, t)
    {
      OwnedSame(s, s', t);
      if t in found {
        AcceptedIsFree(cfg, s, t);
      }
    }
  }

  // ---- restarts ------------------------------------------------------------------------------------------------

  lemma CrashInv(cfg: Config, s: State)
    requires Inv(cfg, s)
    ensures Inv(cfg, s.(up := false, handlers := map[], stale := {}, awaiting := {}))
  {
    hide TxOk, Fit;
    var s' := s.(up := false, handlers := map[], stale := {}, awaiting := {});
    assert forall t :: TxView(s', t) == TxView(s, t);
  }

  /** What recovery makes of one transaction's order and rows. */
  ghost function RecoveredView(v: View): View {
    if v.order.Some? && v.order.value.state.Ordering? then
      v.(order := Some(P.InterruptedOrder(v.order.value)),
         rows := map p | p in v.rows ::
           if v.order.value.provider == Some(p)
             && v.rows[p].state.Reserved? then v.rows[p].(state := Charged) else v.rows[p])
    else v
  }

  lemma RecoverView(db: Db, trace: Trace, t: TxId)
    ensures ViewOf(P.RecoverInterruptedOrders(db), trace, t) == RecoveredView(ViewOf(db, trace, t))
  {
    var after := P.RecoverInterruptedOrders(db);
    var left, right := RowsOf(after.ledger, t), RecoveredView(ViewOf(db, trace, t)).rows;
    forall p
      ensures p in left <==> p in right
      ensures p in left ==> left[p] == right[p]
    {
      RowKeys(after.ledger, t, p);
      RowKeys(db.ledger, t, p);
    }
    assert left == right;
  }

  lemma RecoveredKeepsTx(cfg: Config, t: TxId, v: View)
    requires TxOk(cfg, t, v)
    ensures TxOk(cfg, t, RecoveredView(v))
  {
    if v.order.Some? && v.order.value.state.Ordering? {
      var o, o' := v.order.value, P.InterruptedOrder(v.order.value);
      AppendKeepsAttempts(o, o', OrderEvent(Unknown, o.provider));
      assert OrderAgreesWithLedger(Some(o'), RecoveredView(v).rows);
      assert CallsAgreeWithLedger(v.trace.calls, RecoveredView(v).rows);
    }
  }

  lemma StartInv(cfg: Config, s: State, up: bool)
    requires Inv(cfg, s) && !s.up
    ensures Inv(cfg, s.(db := P.RecoverInterruptedOrders(s.db), up := up))
  {
    hide TxOk, Fit, RowsOf;
    var s' := s.(db := P.RecoverInterruptedOrders(s.db), up := up);
    forall t
      ensures TxOk(cfg, t, TxView(s', t))
    {
      assert TxOk(cfg, t, TxView(s, t));
      RecoverView(s.db, TraceOf(s, t), t);
      RecoveredKeepsTx(cfg, t, TxView(s, t));
    }
  }

  // ---- all runs ------------------------------------------------------------------------------------------------

  lemma SettingsInv(cfg: Config, s: State, e: Event)
    requires Inv(cfg, s)
    ensures Inv(cfg, SweepStep(s))
    ensures e.PutBinding? ==> Inv(cfg, PutBindingStep(s, e.address, e.max, e.expiresAt, e.enabled))
    ensures e.ResetBinding? ==> Inv(cfg, ResetBindingStep(cfg, s, e.address, e.max))
    ensures e.PutProvider? ==> Inv(cfg, PutProviderStep(s, e.provider, e.row))
    ensures e.MoveLease? ==> Inv(cfg, MoveLeaseStep(cfg, s, e.tx, e.leased))
  {
    hide Inv, Raise, G.Releasable, G.HasOpenPaidProviderActivity;
    AdminInv(cfg, s, SweepStep(s));
    if e.PutBinding? {
      AdminInv(cfg, s, PutBindingStep(s, e.address, e.max, e.expiresAt, e.enabled));
    } else if e.ResetBinding? {
      AdminInv(cfg, s, ResetBindingStep(cfg, s, e.address, e.max));
    } else if e.PutProvider? {
      AdminInv(cfg, s, PutProviderStep(s, e.provider, e.row));
    } else if e.MoveLease? {
      AdminInv(cfg, s, MoveLeaseStep(cfg, s, e.tx, e.leased));
    }
  }

  lemma ArriveStepInv(cfg: Config, s: State, e: Event)
    requires Inv(cfg, s) && e.Arrive?
    ensures Inv(cfg, ArriveStep(cfg, s, e.id, e.tx, e.wellFormed, e.permitted, e.now, e.fault))
  {
    hide Inv;
    if s.up && e.id !in s.handlers && e.tx !in s.db.requests && (cfg.sponsorEnergy || !Guarded(cfg, e.tx)) {
      ArriveInv(cfg, s, e.id, e.tx, Some(NewHandler(e.tx)));
      ArriveInv(cfg, s, e.id, e.tx, None);
      assert Place(s.(db := G.BeginRequest(s.db, e.tx)), e.id, None) == s.(db := G.BeginRequest(s.db, e.tx));
    }
    AdminInv(cfg, s, s.(relayed := s.relayed + [e.tx]));
  }

  lemma ListsInv(cfg: Config, s: State, found: set<TxId>)
    requires Inv(cfg, s)
    ensures Inv(cfg, ListStaleStep(s, found)) && Inv(cfg, ListAwaitingStep(s, found))
  {
    hide Inv, Owned;
    if s.up && (forall t :: t in found ==> t in s.db.requests && Stale(s.db.requests[t]) && !Owned(s, t)) {
      ListStaleInv(cfg, s, found);
    }
    if s.up && (forall t :: t in found ==> t in s.db.requests && s.db.requests[t].state.UpstreamAccepted?) {
      ListAwaitingInv(cfg, s, found);
    }
  }

  lemma ConclusionInv(cfg: Config, s: State, t: TxId, state: RequestState, fault: Fault)
    requires Inv(cfg, s)
    ensures Inv(cfg, ConcludeStep(s, t, G.DropClaimOf(G.SetRequestState(s.db, t, state), t), fault))
  {
    hide Inv, WorkerDone;
    if s.up && t in s.awaiting {
      FinalityInv(cfg, s, t, state, fault);
    }
  }

  lemma NextInv(cfg: Config, s: State, e: Event)
    requires Inv(cfg, s)
    ensures Inv(cfg, Next(cfg, s, e))
  {
    hide Inv, HandlerStep, ArriveStep, SweepStep, ListStaleStep, ListAwaitingStep, ConcludeStep, PutBindingStep,
        ResetBindingStep,
      PutProviderStep, MoveLeaseStep, Commit, WorkerDone, G.DropClaimOf, G.SetRequestState;
    match e
    case Arrive(_, _, _, _, _, _) => ArriveStepInv(cfg, s, e);
    case Step(id, input, fault) =>
      if s.up {
        HandlerInv(cfg, s, id, input, fault);
      }
    case ListStale(found) => ListsInv(cfg, s, found);
    case ListAwaiting(found) => ListsInv(cfg, s, found);
    case Recover(t, accepted, fault) =>
      if s.up && t in s.stale {
        RecoverInv(cfg, s, t, accepted, fault);
      }
    case Finalize(t, success, fault) =>
      ConclusionInv(cfg, s, t, if success then SolidifiedSuccess else SolidifiedFailed, fault);
    case Expire(t, fault) => ConclusionInv(cfg, s, t, Expired, fault);
    case Crash => CrashInv(cfg, s);
    case Start(fault) =>
      if !s.up {
        StartInv(cfg, s, fault.Acked?);
      }
    case _ => SettingsInv(cfg, s, e);
  }

  lemma {:induction false} RunInv(cfg: Config, events: seq<Event>)
    ensures Inv(cfg, Run(cfg, events))
  {
    hide Inv, Next;
    if events == [] {
      InitInv(cfg);
    } else {
      RunInv(cfg, events[..|events| - 1]);
      NextInv(cfg, Run(cfg, events[..|events| - 1]), events[|events| - 1]);
    }
  }

  // ---- the records of a run ------------------------------------------------------------------------------------

  /** Nothing has been added to what the run records of transactions. */
  ghost predicate SameRecords(s: State, s': State) {
    s'.history == s.history && s'.relayed == s.relayed && s'.clobbered == s.clobbered && s'.stripped == s.stripped
    && s'.overwritten == s.overwritten
  }

  lemma ArrivalRecords(cfg: Config, s: State, e: Event)
    requires e.Arrive?
    ensures var s' := ArriveStep(cfg, s, e.id, e.tx, e.wellFormed, e.permitted, e.now, e.fault);
      s'.history == s.history && s'.clobbered == s.clobbered && s'.stripped == s.stripped
      && s'.overwritten == s.overwritten
  {
    hide Guarded, Usable, Sponsorable, NewHandler, G.BeginRequest;
  }

  lemma WorkerRecords(s: State, found: set<TxId>, t: TxId, after: Db, fault: Fault)
    ensures SameRecords(s, SweepStep(s).(stripped := s.stripped))
    ensures SameRecords(s, ListStaleStep(s, found)) && SameRecords(s, ListAwaitingStep(s, found))
    ensures SameRecords(s, ConcludeStep(s, t, after, fault)) && SameRecords(s, CrashStep(s)) && SameRecords(s,
      StartStep(s, fault))
  {
    hide Losses, Owned, Stale, G.ReleaseTerminalAddressClaims, P.RecoverInterruptedOrders;
  }

  lemma SettingRecords(cfg: Config, s: State, e: Event)
    ensures e.PutBinding? ==> SameRecords(s, PutBindingStep(s, e.address, e.max, e.expiresAt, e.enabled))
    ensures e.ResetBinding? ==> SameRecords(s, ResetBindingStep(cfg, s, e.address, e.max))
    ensures e.PutProvider? ==> SameRecords(s, PutProviderStep(s, e.provider, e.row))
    ensures e.MoveLease? ==> SameRecords(s, MoveLeaseStep(cfg, s, e.tx, e.leased))
  {
    hide Raise, G.HasOpenPaidProviderActivity;
  }

  /** Only handlers and recovery add to the history, and only arrivals pass transactions through. */
  lemma OthersRecordNothing(cfg: Config, s: State, e: Event)
    requires !e.Step? && !e.Recover?
    ensures Next(cfg, s, e).history == s.history && Next(cfg, s, e).clobbered == s.clobbered
    ensures Next(cfg, s, e).overwritten == s.overwritten
    ensures !e.Arrive? ==> Next(cfg, s, e).relayed == s.relayed
    ensures !e.SweepClaims? ==> Next(cfg, s, e).stripped == s.stripped
  {
    hide HandlerStep, ArriveStep, SweepStep, ListStaleStep, ListAwaitingStep, ConcludeStep, PutBindingStep,
        ResetBindingStep,
      PutProviderStep, MoveLeaseStep, CrashStep, StartStep, RecoverStep, G.MarkFinalized, G.ExpireRequest;
    match e
    case Arrive(_, _, _, _, _, _) => ArrivalRecords(cfg, s, e);
    case ListStale(found) => WorkerRecords(s, found, TxId(0, OtherContract, 0), s.db, Acked);
    case ListAwaiting(found) => WorkerRecords(s, found, TxId(0, OtherContract, 0), s.db, Acked);
    case Finalize(t, success, fault) => WorkerRecords(s, {}, t, G.MarkFinalized(s.db, t, success), fault);
    case Expire(t, fault) => WorkerRecords(s, {}, t, G.ExpireRequest(s.db, t), fault);
    case SweepClaims => WorkerRecords(s, {}, TxId(0, OtherContract, 0), s.db, Acked);
    case Crash => WorkerRecords(s, {}, TxId(0, OtherContract, 0), s.db, Acked);
    case Start(fault) => WorkerRecords(s, {}, TxId(0, OtherContract, 0), s.db, fault);
    case _ => SettingRecords(cfg, s, e);
  }
}
