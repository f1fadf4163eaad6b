/** A handler's step keeps the handler invariant, seen through its own transaction. */
module HandlerLemmas {
  import opened Options
  import opened Schema
  import opened EnergyPackages
  import opened Gateway
  import opened TxInvariant
  import opened WriteLemmas

  ghost predicate NextOk(cfg: Config, v: View, next: Option<Handler>) {
    next.Some? ==> HandlerOk(cfg, v, next.value)
  }

  /** Whatever a write does, the view moves in one of these ways. */
  ghost predicate Moves(cfg: Config, t: TxId, v: View, v': View, w: Write) {
    if RequestWrite(w) then RequestMove(cfg, v, v', w)
    else if w.StartAttempt? || w.FinishAttempt? then AttemptMove(v, v', w)
    else v' == v.(order := v'.order) && OrderMove(cfg, t, v, v'.order, w)
  }

  /** What an acknowledged reply tells about the move. */
  ghost predicate Tells(v: View, v': View, w: Write, reply: Reply) {
    match w
    case ReserveUnit(_) => if reply.Yes? then (v.request.Some? ==> FlagOf(v')) else v' == v
    case OpenOrder(_) =>
      (!reply.Thrown? ==> v'.order.Some?) && (reply.Found? ==> v'.order == Some(reply.order))
    case StartAttempt(p, amount, day) =>
      (reply.Yes? || reply.No?) &&
      if reply.Yes? then p !in v.rows && p in v'.rows && v'.rows[p] == LedgerRow(day, amount, Reserved)
        && v'.order.Some? else v' == v
    case _ => true
  }

  lemma WriteMoves(cfg: Config, db: Db, trace: Trace, t: TxId, w: Write)
    requires Flagged(db, t) ==> t.owner in db.bindings
    ensures Moves(cfg, t, ViewOf(db, trace, t), After(cfg, db, trace, t, w), w)
  {
    if RequestWrite(w) {
      RequestWriteMoves(cfg, db, trace, t, w);
    } else if w.StartAttempt? {
      StartMoves(cfg, db, trace, t, w);
    } else if w.FinishAttempt? {
      FinishMoves(cfg, db, trace, t, w);
    } else {
      OrderWriteTouches(cfg, db, t, w);
      OrderWriteMoves(cfg, db, trace, t, w);
    }
  }

  lemma ReserveTells(cfg: Config, db: Db, trace: Trace, t: TxId, w: Write)
    requires w.ReserveUnit?
    ensures Tells(ViewOf(db, trace, t), After(cfg, db, trace, t, w), w, Apply(cfg, db, t, w).1)
  {
    RequestWriteTouches(cfg, db, t, w);
    ReserveQuotaEffect(db, t, cfg.provider, w.now);
  }

  lemma StartTells(cfg: Config, db: Db, trace: Trace, t: TxId, w: Write)
    requires w.StartAttempt?
    ensures Tells(ViewOf(db, trace, t), After(cfg, db, trace, t, w), w, Apply(cfg, db, t, w).1)
  {
    StartFrame(db, cfg.limits, t, w.provider, w.amount, w.day, t);
    StartEffect(db, cfg.limits, t, w.provider, w.amount, w.day);
  }

  lemma WriteTells(cfg: Config, db: Db, trace: Trace, t: TxId, w: Write)
    ensures Tells(ViewOf(db, trace, t), After(cfg, db, trace, t, w), w, Apply(cfg, db, t, w).1)
  {
    match w
    case ReserveUnit(_) => ReserveTells(cfg, db, trace, t, w);
    case StartAttempt(_, _, _) => StartTells(cfg, db, trace, t, w);
    case _ =>
  }

  // ---- the catch block ---------------------------------------------------------------------

  /** What the catch block relies on when it is entered with an error. */
  ghost predicate Catchable(cfg: Config, v: View, h: Handler, err: Error) {
    && v.request.Some? && !v.request.value.state.UpstreamAccepted?
    && !h.forwarded && !h.charged && NotSent(v)
    && match err
       case Paid => v.trace.released == 0 && (FlagOf(v) ==> Cause(v))
       case Insufficient => Held(cfg, v, h) && !MayBeCharged(v.trace.calls)
       case Ordinary => h.quota ==> !MayBeCharged(v.trace.calls)
  }

  lemma CatchUnclaimOk(cfg: Config, v: View, h: Handler)
    requires v.request.Some? && !v.request.value.state.UpstreamAccepted? && !h.forwarded && !h.charged
    ensures NextOk(cfg, v, CatchUnclaim(h))
  {
    hide MayBeCharged;
  }

  lemma CatchRestOk(cfg: Config, v: View, h: Handler, err: Error)
    requires Catchable(cfg, v, h, err) && (err.Paid? ==> !h.quota)
    ensures NextOk(cfg, v, CatchRest(cfg, h, err))
  {
    hide CatchUnclaim;
    CatchUnclaimOk(cfg, v, h);
  }

  lemma CatchOk(cfg: Config, v: View, h: Handler, err: Error)
    requires Catchable(cfg, v, h, err)
    ensures NextOk(cfg, v, Catch(cfg, h, err))
  {
    hide CatchRest;
    if err.Paid? ==> !h.quota {
      CatchRestOk(cfg, v, h, err);
    }
  }

  /** Each write a handler issues is one it is allowed to issue. */
  lemma IntentAllowed(cfg: Config, v: View, h: Handler, input: Input)
    requires HandlerOk(cfg, v, h) && TxOk(cfg, h.tx, v)
    requires Intent(cfg, h, input).Some?
    ensures Allowed(v, Intent(cfg, h, input).value)
  {
  }

  /** The part of the transaction invariant the handler's own facts build on. */
  ghost predicate Basics(v: View) {
    && (v.order.None? ==> !MayBeCharged(v.trace.calls))
    && v.trace.consumed + v.trace.released + (if FlagOf(v) then 1 else 0) == v.trace.reserved
  }

  lemma BasicsOk(cfg: Config, t: TxId, v: View)
    requires TxOk(cfg, t, v)
    ensures Basics(v)
  {
  }

  // ---- writes that change nothing a handler's phase depends on -----------------------------

  ghost predicate Alike(v: View, v': View) {
    && v'.trace == v.trace && FlagOf(v') == FlagOf(v) && v'.order.Some? == v.order.Some?
    && v'.request.Some? && !v'.request.value.state.UpstreamAccepted?
  }

  /** A reason to consume the unit is not lost. */
  ghost predicate KeepsCause(v: View, v': View) {
    Cause(v) ==> Cause(v')
  }

  predicate QuietWrite(w: Write) {
    || w.AcquireClaim? || w.DropClaim? || w.SaveEstimate?
    || (w.SetState? && !w.state.UpstreamAccepted?) || (w.Complete? && !w.state.UpstreamAccepted?)
    || w.RefuseOrder? || w.StartAttempt? || w.FinishAttempt? || w.FinishConfirmation?
  }

  /** The write leaves a standing order standing. */
  predicate Standing(w: Write) {
    (w.FinishAttempt? ==> Billable(w.outcome)) && (w.FinishConfirmation? ==> Billable(w.result))
  }

  lemma QuietAlike(cfg: Config, t: TxId, v: View, v': View, w: Write)
    requires v.request.Some? && !v.request.value.state.UpstreamAccepted?
    requires QuietWrite(w) && Moves(cfg, t, v, v', w)
    ensures Alike(v, v')
    ensures Standing(w) ==> KeepsCause(v, v')
  {
  }

  lemma AlikeOk(cfg: Config, v: View, v': View, h: Handler)
    requires HandlerOk(cfg, v, h) && Alike(v, v')
    requires PhaseOf(h).Due? || PhaseOf(h).Consuming0? ==> KeepsCause(v, v')
    ensures HandlerOk(cfg, v', h)
  {
  }

  /** Up to the broadcast, whatever has not been charged may fail in the ordinary way. */
  lemma OrdinaryCatchable(cfg: Config, v: View, h: Handler)
    requires HandlerOk(cfg, v, h) && Basics(v) && !h.charged
    requires var phase := PhaseOf(h); phase.Fresh? || phase.Unordered? || phase.Buying? || phase.Clear?
    ensures Catchable(cfg, v, h, Ordinary)
  {
  }

  lemma OrdinaryFailOk(cfg: Config, v: View, h: Handler)
    requires HandlerOk(cfg, v, h) && Basics(v) && !h.charged
    requires var phase := PhaseOf(h); phase.Fresh? || phase.Unordered? || phase.Buying? || phase.Clear?
    ensures NextOk(cfg, v, Catch(cfg, h, Ordinary))
  {
    hide Catch, HandlerOk;
    OrdinaryCatchable(cfg, v, h);
    CatchOk(cfg, v, h, Ordinary);
  }

  lemma RefusedStepOk(cfg: Config, v: View, h: Handler, reply: Reply, input: Input)
    requires HandlerOk(cfg, v, h) && Basics(v) && (h.pc.DroppingClaim? || h.pc.CachingReject?)
    ensures NextOk(cfg, v, Resume(cfg, h, reply, input)) && NextOk(cfg, v, Fail(cfg, h))
  {
    hide Catch;
    OrdinaryFailOk(cfg, v, h);
  }

  lemma StayUnordered(cfg: Config, v: View, h: Handler, pc: Pc)
    requires HandlerOk(cfg, v, h) && h.pc.SavingEstimate? && (pc.Planning? || pc.Delegating?)
    ensures HandlerOk(cfg, v, h.(pc := pc))
  {
  }

  lemma SavingStepOk(cfg: Config, v: View, h: Handler, reply: Reply, input: Input)
    requires HandlerOk(cfg, v, h) && Basics(v) && h.pc.SavingEstimate?
    ensures NextOk(cfg, v, Resume(cfg, h, reply, input)) && NextOk(cfg, v, Fail(cfg, h))
  {
    hide Catch;
    OrdinaryFailOk(cfg, v, h);
    StayUnordered(cfg, v, h, Planning);
    StayUnordered(cfg, v, h, Delegating);
  }

  lemma ClaimingStepOk(cfg: Config, v: View, h: Handler, reply: Reply, input: Input)
    requires HandlerOk(cfg, v, h) && Basics(v)
    requires h.pc.Claiming? || h.pc.Discarding?
    ensures NextOk(cfg, v, Resume(cfg, h, reply, input)) && NextOk(cfg, v, Fail(cfg, h))
  {
    hide Catch;
    OrdinaryFailOk(cfg, v, h);
  }

  /** Once the unit is due or spent, only the paid failure is left. */
  lemma PaidFailOk(cfg: Config, v: View, h: Handler)
    requires HandlerOk(cfg, v, h) && Basics(v) && !h.charged && (PhaseOf(h).Due? || PhaseOf(h).Spent?)
    ensures NextOk(cfg, v, Catch(cfg, h, Paid))
  {
    hide Catch;
    CatchOk(cfg, v, h, Paid);
  }

  lemma RefusingOrderStepOk(cfg: Config, v: View, h: Handler, reply: Reply, input: Input)
    requires HandlerOk(cfg, v, h) && Basics(v) && h.pc.RefusingOrder?
    ensures NextOk(cfg, v, Resume(cfg, h, reply, input)) && NextOk(cfg, v, Fail(cfg, h))
  {
    hide Catch, HandlerOk;
    assert !h.charged by { NotCharged(cfg, v, h); }
    OrdinaryFailOk(cfg, v, h);
  }

  lemma NotCharged(cfg: Config, v: View, h: Handler)
    requires HandlerOk(cfg, v, h)
    ensures h.charged ==> h.pc.Readying? || h.pc.Forwarding? || h.pc.Recording?
  {
  }

  lemma AttemptingStepOk(cfg: Config, v: View, h: Handler, reply: Reply, input: Input)
    requires HandlerOk(cfg, v, h) && Basics(v) && h.pc.Attempting?
    ensures NextOk(cfg, v, Resume(cfg, h, reply, input)) && NextOk(cfg, v, Fail(cfg, h))
  {
    hide Catch;
    OrdinaryFailOk(cfg, v, h);
  }

  lemma RefusingStepOk(cfg: Config, v: View, h: Handler, reply: Reply, input: Input)
    requires HandlerOk(cfg, v, h) && Basics(v) && h.pc.Refusing?
    ensures NextOk(cfg, v, Resume(cfg, h, reply, input)) && NextOk(cfg, v, Fail(cfg, h))
  {
    hide Catch;
    OrdinaryFailOk(cfg, v, h);
  }

  lemma AcceptingStepOk(cfg: Config, v: View, h: Handler, reply: Reply, input: Input)
    requires HandlerOk(cfg, v, h) && (h.pc.Accepting? || h.pc.Doubting?)
    ensures NextOk(cfg, v, Resume(cfg, h, reply, input)) && NextOk(cfg, v, Fail(cfg, h))
  {
    hide Catch;
  }

  lemma AfterPrepareOk(cfg: Config, v: View, h: Handler)
    requires HandlerOk(cfg, v, h) && h.pc.Fulfilling?
    ensures HandlerOk(cfg, v, AfterPrepare(cfg, h, true))
  {
    hide Held, NotSent, MayBeCharged;
  }

  lemma FulfillingStepOk(cfg: Config, v: View, h: Handler, reply: Reply, input: Input)
    requires HandlerOk(cfg, v, h) && h.pc.Fulfilling?
    ensures NextOk(cfg, v, Resume(cfg, h, reply, input)) && NextOk(cfg, v, Fail(cfg, h))
  {
    hide Catch, HandlerOk, AfterPrepare;
    AfterPrepareOk(cfg, v, h);
  }

  lemma TimingOutStepOk(cfg: Config, v: View, h: Handler, reply: Reply, input: Input)
    requires HandlerOk(cfg, v, h) && Basics(v) && h.pc.TimingOut?
    ensures NextOk(cfg, v, Resume(cfg, h, reply, input)) && NextOk(cfg, v, Fail(cfg, h))
  {
    hide Catch, HandlerOk;
    NotCharged(cfg, v, h);
    PaidFailOk(cfg, v, h);
  }

  lemma ReadyingStepOk(cfg: Config, v: View, h: Handler, reply: Reply, input: Input)
    requires HandlerOk(cfg, v, h) && Basics(v) && h.pc.Readying?
    ensures NextOk(cfg, v, Resume(cfg, h, reply, input)) && NextOk(cfg, v, Fail(cfg, h))
  {
    hide Catch;
    if !h.charged {
      OrdinaryFailOk(cfg, v, h);
    }
  }

  lemma CleanupStepOk(cfg: Config, v: View, h: Handler, reply: Reply, input: Input)
    requires HandlerOk(cfg, v, h) && Basics(v)
    requires h.pc.CatchDropping? || h.pc.CatchReadying? || h.pc.CatchFailing?
    ensures NextOk(cfg, v, Resume(cfg, h, reply, input)) && NextOk(cfg, v, Fail(cfg, h))
  {
    hide Catch, CatchRest, CatchUnclaim;
  }

  // ---- the writes that do -------------------------------------------------------------------

  lemma ReservingStepOk(cfg: Config, v: View, v': View, h: Handler, w: Write, reply: Reply, input: Input)
    requires HandlerOk(cfg, v, h) && Basics(v) && h.pc.Reserving? && w.ReserveUnit?
    requires RequestMove(cfg, v, v', w) && Tells(v, v', w, reply)
    ensures NextOk(cfg, v', Resume(cfg, h, reply, input)) && NextOk(cfg, v', Fail(cfg, h))
  {
    hide Catch;
    assert Catchable(cfg, v', h, Ordinary);
    CatchOk(cfg, v', h, Ordinary);
  }

  lemma OpeningStepOk(cfg: Config, v: View, v': View, h: Handler, w: Write, reply: Reply, input: Input)
    requires HandlerOk(cfg, v, h) && Basics(v) && h.pc.Opening? && w.OpenOrder?
    requires v' == v.(order := v'.order) && (reply.Found? ==> v'.order == Some(reply.order))
    ensures v'.order.Some? ==> NextOk(cfg, v', Resume(cfg, h, reply, input))
    ensures NextOk(cfg, v', Fail(cfg, h))
  {
    hide Catch;
    assert Catchable(cfg, v', h, Ordinary);
    CatchOk(cfg, v', h, Ordinary);
  }

  /** After the settlement of a unit that is due, carried out or not, the unit can no longer be given back. */
  lemma ConsumedCatchable(cfg: Config, v: View, v': View, h: Handler)
    requires HandlerOk(cfg, v, h) && Basics(v) && h.pc.Consuming? && (v' == v || RequestMove(cfg, v, v', ConsumeUnit))
    ensures Catchable(cfg, v', h, Paid)
  {
  }

  lemma ConsumingStepOk(cfg: Config, v: View, v': View, h: Handler, reply: Reply, input: Input)
    requires HandlerOk(cfg, v, h) && Basics(v) && h.pc.Consuming?
    requires RequestMove(cfg, v, v', ConsumeUnit)
    ensures NextOk(cfg, v', Resume(cfg, h, reply, input)) && NextOk(cfg, v', Fail(cfg, h)) && NextOk(cfg, v,
      Fail(cfg, h))
  {
    hide Catch;
    ConsumedCatchable(cfg, v, v', h);
    ConsumedCatchable(cfg, v, v, h);
    CatchOk(cfg, v', h, Paid);
    CatchOk(cfg, v, h, Paid);
  }

  lemma CatchConsumingStepOk(cfg: Config, v: View, v': View, h: Handler, reply: Reply, input: Input)
    requires HandlerOk(cfg, v, h) && h.pc.CatchConsuming?
    requires RequestMove(cfg, v, v', ConsumeUnit)
    ensures NextOk(cfg, v', Resume(cfg, h, reply, input)) && NextOk(cfg, v', Fail(cfg, h)) && NextOk(cfg, v,
      Fail(cfg, h))
  {
    hide CatchRest;
    CatchRestOk(cfg, v', h.(quota := false), Paid);
    CatchRestOk(cfg, v, h.(quota := false), Paid);
  }

  lemma ReleasingStepOk(cfg: Config, v: View, v': View, h: Handler, reply: Reply, input: Input)
    requires HandlerOk(cfg, v, h) && h.pc.CatchReleasing?
    requires RequestMove(cfg, v, v', ReleaseUnit)
    ensures NextOk(cfg, v', Resume(cfg, h, reply, input)) && NextOk(cfg, v', Fail(cfg, h)) && NextOk(cfg, v,
      Fail(cfg, h))
  {
    hide CatchUnclaim;
    CatchUnclaimOk(cfg, v', h);
    CatchUnclaimOk(cfg, v, h);
  }

  lemma RecordingStepOk(cfg: Config, v: View, v': View, h: Handler, reply: Reply, input: Input)
    requires HandlerOk(cfg, v, h) && h.pc.Recording?
    ensures NextOk(cfg, v', Resume(cfg, h, reply, input)) && NextOk(cfg, v', Fail(cfg, h))
  {
  }

  // ---- all writes together --------------------------------------------------------------------

  predicate QuietPc(pc: Pc) {
    || pc.Claiming? || pc.DroppingClaim? || pc.CachingReject? || pc.SavingEstimate? || pc.RefusingOrder?
    || pc.Attempting? || pc.Refusing? || pc.Accepting? || pc.Doubting? || pc.Fulfilling? || pc.TimingOut?
    || pc.Readying? || pc.CatchDropping? || pc.CatchReadying? || pc.CatchFailing?
  }

  lemma QuietStepOk(cfg: Config, v: View, h: Handler, reply: Reply, input: Input)
    requires HandlerOk(cfg, v, h) && Basics(v) && QuietPc(h.pc)
    ensures NextOk(cfg, v, Resume(cfg, h, reply, input)) && NextOk(cfg, v, Fail(cfg, h))
  {
    hide HandlerOk, Basics, NextOk, Resume, Fail;
    match h.pc
    case Claiming => ClaimingStepOk(cfg, v, h, reply, input);
    case DroppingClaim => RefusedStepOk(cfg, v, h, reply, input);
    case CachingReject => RefusedStepOk(cfg, v, h, reply, input);
    case SavingEstimate => SavingStepOk(cfg, v, h, reply, input);
    case RefusingOrder => RefusingOrderStepOk(cfg, v, h, reply, input);
    case Attempting(_, _, _, _, _) => AttemptingStepOk(cfg, v, h, reply, input);
    case Refusing(_, _, _, _) => RefusingStepOk(cfg, v, h, reply, input);
    case Accepting(_) => AcceptingStepOk(cfg, v, h, reply, input);
    case Doubting(_) => AcceptingStepOk(cfg, v, h, reply, input);
    case Fulfilling => FulfillingStepOk(cfg, v, h, reply, input);
    case TimingOut => TimingOutStepOk(cfg, v, h, reply, input);
    case Readying => ReadyingStepOk(cfg, v, h, reply, input);
    case CatchDropping => CleanupStepOk(cfg, v, h, reply, input);
    case CatchReadying => CleanupStepOk(cfg, v, h, reply, input);
    case CatchFailing => CleanupStepOk(cfg, v, h, reply, input);
  }

  lemma QuietIntent(cfg: Config, h: Handler, input: Input)
    requires Intent(cfg, h, input).Some?
    ensures QuietPc(h.pc) <==> QuietWrite(Intent(cfg, h, input).value)
  {
  }

  /** The handler that a write leaves behind keeps its invariant, whatever became of the write. */
  ghost predicate WriteStepOk(cfg: Config, v: View, v': View, h: Handler, reply: Reply, input: Input) {
    && (!reply.Thrown? ==> NextOk(cfg, v', Resume(cfg, h, reply, input)))
    && (!h.pc.Discarding? ==> NextOk(cfg, v', Fail(cfg, h)))
    && NextOk(cfg, v, Fail(cfg, h))
  }

  lemma DueIsStanding(cfg: Config, h: Handler, w: Write, input: Input)
    requires Intent(cfg, h, input) == Some(w) && QuietPc(h.pc) && (PhaseOf(h).Due? || PhaseOf(h).Consuming0?)
    ensures Standing(w)
  {
  }

  lemma QuietWriteStepOk(cfg: Config, v: View, v': View, h: Handler, w: Write, reply: Reply, input: Input)
    requires HandlerOk(cfg, v, h) && Basics(v) && Basics(v')
    requires Intent(cfg, h, input) == Some(w) && QuietPc(h.pc) && Moves(cfg, h.tx, v, v', w)
    ensures WriteStepOk(cfg, v, v', h, reply, input)
  {
    hide HandlerOk, Basics, NextOk, Resume, Fail, Intent, QuietPc, QuietWrite, Moves, Alike;
    QuietIntent(cfg, h, input);
    assert v.request.Some? && !v.request.value.state.UpstreamAccepted? by { RequestThere(cfg, v, h); }
    QuietAlike(cfg, h.tx, v, v', w);
    if PhaseOf(h).Due? || PhaseOf(h).Consuming0? {
      DueIsStanding(cfg, h, w, input);
    }
    AlikeOk(cfg, v, v', h);
    QuietStepOk(cfg, v, h, reply, input);
    QuietStepOk(cfg, v', h, reply, input);
  }

  lemma RequestThere(cfg: Config, v: View, h: Handler)
    requires HandlerOk(cfg, v, h)
    ensures v.request.Some? && !v.request.value.state.UpstreamAccepted?
  {
    hide PhaseOk;
  }

  lemma LoudWriteStepOk(cfg: Config, v: View, v': View, h: Handler, w: Write, reply: Reply, input: Input)
    requires HandlerOk(cfg, v, h) && Basics(v) && Basics(v')
    requires Intent(cfg, h, input) == Some(w) && !QuietPc(h.pc) && Moves(cfg, h.tx, v, v', w) && Tells(v, v', w, reply)
    ensures WriteStepOk(cfg, v, v', h, reply, input)
  {
    hide HandlerOk, Basics, Catch, CatchRest, CatchUnclaim, RequestMove;
    match h.pc
    case Discarding => ClaimingStepOk(cfg, v, h, reply, input);
    case Reserving =>
      ReservingStepOk(cfg, v, v', h, w, reply, input);
      NotCharged(cfg, v, h);
      OrdinaryFailOk(cfg, v, h);
    case Opening(_) =>
      OpeningStepOk(cfg, v, v', h, w, reply, input);
      OpeningStepOk(cfg, v, v, h, w, Reply.No, input);
    case Consuming(_) => ConsumingStepOk(cfg, v, v', h, reply, input);
    case CatchConsuming => CatchConsumingStepOk(cfg, v, v', h, reply, input);
    case CatchReleasing => ReleasingStepOk(cfg, v, v', h, reply, input);
    case Recording(_) =>
      RecordingStepOk(cfg, v, v', h, reply, input);
      RecordingStepOk(cfg, v, v, h, reply, input);
    case _ =>
  }
}
