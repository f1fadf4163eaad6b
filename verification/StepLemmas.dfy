/** Every step of a handler keeps the invariant of its transaction and its own. */
module StepLemmas {
  import opened Options
  import opened Schema
  import opened Gateway
  import opened TxInvariant
  import opened WriteLemmas
  import opened HandlerLemmas
  import opened SenseLemmas

  // ---- what a handler knows after a write ----------------------------------------------------

  lemma CatchIsPlain(cfg: Config, h: Handler, err: Error)
    ensures var next := Catch(cfg, h, err); next.Some? ==> Plain(next.value.pc)
    ensures var next := CatchRest(cfg, h, err); next.Some? ==> Plain(next.value.pc)
    ensures var next := CatchUnclaim(h); next.Some? ==> Plain(next.value.pc)
  {
  }

  lemma CatchEnergy(cfg: Config, h: Handler, err: Error)
    ensures var next := Catch(cfg, h, err); next.Some? ==> EnergyOk(cfg, next.value)
    ensures var next := CatchRest(cfg, h, err); next.Some? ==> EnergyOk(cfg, next.value)
    ensures var next := CatchUnclaim(h); next.Some? ==> EnergyOk(cfg, next.value)
  {
    UnclaimEnergy(cfg, h);
    RestEnergy(cfg, h, err);
    hide CatchRest, CatchUnclaim;
    if err.Paid? && h.quota {
    } else {
    }
  }

  lemma UnclaimEnergy(cfg: Config, h: Handler)
    ensures var next := CatchUnclaim(h); next.Some? ==> EnergyOk(cfg, next.value)
  {
    if h.claimed && !h.retain {
    } else if h.retain {
    } else {
    }
  }

  lemma RestEnergy(cfg: Config, h: Handler, err: Error)
    ensures var next := CatchRest(cfg, h, err); next.Some? ==> EnergyOk(cfg, next.value)
  {
    hide CatchUnclaim;
    var kept := if h.charged then h.(retain := true, quota := false) else h;
    UnclaimEnergy(cfg, kept);
    if cfg.forwardInsufficient && err.Insufficient? && !Guarded(cfg, h.tx) {
    } else if kept.forwarded {
    } else if kept.quota {
    } else {
    }
  }

  lemma AfterPrepareIsPlain(cfg: Config, h: Handler, paid: bool)
    ensures Plain(AfterPrepare(cfg, h, paid).pc)
  {
    if !cfg.ownerEnergyBurn && h.need.Some? {
      assert AfterPrepare(cfg, h, paid).pc == Rechecking(paid);
    } else {
      assert AfterPrepare(cfg, h, paid).pc == Readying;
    }
  }

  lemma AfterPrepareEnergy(cfg: Config, h: Handler, paid: bool)
    requires NeedKnown(cfg, h)
    ensures EnergyOk(cfg, AfterPrepare(cfg, h, paid))
  {
    if !cfg.ownerEnergyBurn && h.need.Some? {
      assert AfterPrepare(cfg, h, paid).pc == Rechecking(paid);
    } else {
      assert AfterPrepare(cfg, h, paid).pc == Readying;
    }
  }

  /** Most failed writes go to the catch block. */
  lemma FailIsCaught(cfg: Config, h: Handler)
    requires !Persists(h.pc) && (!Ending(h.pc) || h.pc.Recording?)
    ensures Fail(cfg, h) == Catch(cfg, h, Ordinary)
  {
    hide Catch;
  }

  /** Places past the call, where a failed write is not the end. */
  predicate Persists(pc: Pc) {
    pc.Accepting? || pc.Doubting? || pc.Consuming? || pc.Fulfilling? || pc.TimingOut? || pc.Readying?
  }

  lemma PersistingFails(cfg: Config, h: Handler)
    ensures h.pc.Accepting? ==> Fail(cfg, h) == Some(h.(pc := Doubting(h.pc.provider)))
    ensures h.pc.Doubting? ==> Fail(cfg, h) == Some(h.(pc := Consuming(false)))
    ensures h.pc.Consuming? || h.pc.TimingOut? ==> Fail(cfg, h) == Catch(cfg, h, Paid)
    ensures h.pc.Fulfilling? ==> Fail(cfg, h) == Some(AfterPrepare(cfg, h, true))
    ensures h.pc.Readying? ==>
      Fail(cfg, h) == if h.charged then Some(h.(pc := Forwarding)) else Catch(cfg, h, Ordinary)
  {
    hide Catch, AfterPrepare;
  }

  lemma CatchingFails(cfg: Config, h: Handler)
    ensures h.pc.CatchConsuming? ==> Fail(cfg, h) == CatchRest(cfg, h.(quota := false), Paid)
    ensures h.pc.CatchReleasing? ==> Fail(cfg, h) == CatchUnclaim(h)
    ensures h.pc.CatchDropping? ==> Fail(cfg, h) == CatchConclude(h.(claimed := false))
    ensures h.pc.CatchReadying? || h.pc.CatchFailing? ==> Fail(cfg, h) == None
  {
    hide CatchRest, CatchUnclaim, CatchConclude;
  }

  lemma ConcludeIsPlain(cfg: Config, h: Handler)
    ensures CatchConclude(h).Some? && Plain(CatchConclude(h).value.pc) && EnergyOk(cfg, CatchConclude(h).value)
  {
    if h.retain {
    } else {
    }
  }

  lemma PlainPlaces(p: ProviderId)
    ensures Plain(Doubting(p)) && Plain(Consuming(false)) && Plain(Forwarding)
  {
  }

  lemma PersistingIsPlain(cfg: Config, h: Handler)
    requires Persists(h.pc)
    ensures var next := Fail(cfg, h); next.Some? ==> Plain(next.value.pc)
  {
    hide Catch, AfterPrepare, Fail, Plain;
    PersistingFails(cfg, h);
    CatchIsPlain(cfg, h, Paid);
    CatchIsPlain(cfg, h, Ordinary);
    AfterPrepareIsPlain(cfg, h, true);
    PlainPlaces(if h.pc.Accepting? then h.pc.provider else 0);
  }

  lemma CatchingIsPlain(cfg: Config, h: Handler)
    requires Ending(h.pc) && !h.pc.Recording?
    ensures var next := Fail(cfg, h); next.Some? ==> Plain(next.value.pc)
  {
    hide CatchRest, CatchUnclaim, CatchConclude, Fail, Plain;
    CatchingFails(cfg, h);
    CatchIsPlain(cfg, h.(quota := false), Paid);
    CatchIsPlain(cfg, h, Paid);
    ConcludeIsPlain(cfg, h.(claimed := false));
  }

  /** No plan outlives a failed write. */
  lemma FailIsPlain(cfg: Config, h: Handler)
    ensures var next := Fail(cfg, h); next.Some? ==> Plain(next.value.pc)
  {
    hide Fail, Catch, Plain;
    if Persists(h.pc) {
      PersistingIsPlain(cfg, h);
    } else if Ending(h.pc) && !h.pc.Recording? {
      CatchingIsPlain(cfg, h);
    } else {
      FailIsCaught(cfg, h);
      CatchIsPlain(cfg, h, Ordinary);
    }
  }

  lemma FailDetail(cfg: Config, v: View, h: Handler)
    ensures var next := Fail(cfg, h); next.Some? ==> DetailOk(cfg, v, next.value)
  {
    hide Fail, Plain;
    FailIsPlain(cfg, h);
    if Fail(cfg, h).Some? {
      PlainDetail(cfg, v, Fail(cfg, h).value);
    }
  }

  lemma PersistingEnergy(cfg: Config, h: Handler)
    requires EnergyOk(cfg, h) && Persists(h.pc)
    ensures var next := Fail(cfg, h); next.Some? ==> EnergyOk(cfg, next.value)
  {
    hide Catch, AfterPrepare, Fail;
    PersistingFails(cfg, h);
    CatchEnergy(cfg, h, Paid);
    CatchEnergy(cfg, h, Ordinary);
    if h.pc.Fulfilling? {
      AfterPrepareEnergy(cfg, h, true);
    }
  }

  lemma CatchingEnergy(cfg: Config, h: Handler)
    requires Ending(h.pc) && !h.pc.Recording?
    ensures var next := Fail(cfg, h); next.Some? ==> EnergyOk(cfg, next.value)
  {
    hide CatchRest, CatchUnclaim, CatchConclude, Fail, EnergyOk;
    CatchingFails(cfg, h);
    CatchEnergy(cfg, h.(quota := false), Paid);
    CatchEnergy(cfg, h, Paid);
    ConcludeIsPlain(cfg, h.(claimed := false));
  }

  lemma FailEnergy(cfg: Config, h: Handler)
    requires EnergyOk(cfg, h)
    ensures var next := Fail(cfg, h); next.Some? ==> EnergyOk(cfg, next.value)
  {
    hide Fail, Catch, EnergyOk;
    if Persists(h.pc) {
      PersistingEnergy(cfg, h);
    } else if Ending(h.pc) && !h.pc.Recording? {
      CatchingEnergy(cfg, h);
    } else {
      FailIsCaught(cfg, h);
      CatchEnergy(cfg, h, Ordinary);
    }
  }

  // Only opening an order and being granted an attempt give the handler something new to keep.

  lemma OpenedFit(cfg: Config, v: View, h: Handler, reply: Reply)
    requires DetailOk(cfg, v, h) && EnergyOk(cfg, h) && h.pc.Opening?
    ensures var next := Resume(cfg, h, reply, NoInput); next.Some? ==> DetailOk(cfg, v, next.value) && EnergyOk(cfg,
      next.value)
  {
    hide Catch, PlanOk;
    NeedIsKnown(cfg, h);
    NeedSuffices(cfg, h, Listing(h.pc.plan));
    if reply.Found? && (reply.order.receiver != h.tx.owner || reply.order.requested != h.pc.plan.requested) {
      CatchIsPlain(cfg, h, Ordinary);
      CatchEnergy(cfg, h, Ordinary);
    } else if reply.Found? && !reply.order.state.Pending? {
      NeedSuffices(cfg, h, Consuming(true));
      NeedSuffices(cfg, h, Consuming(false));
      CatchIsPlain(cfg, h, Ordinary);
      CatchEnergy(cfg, h, Ordinary);
      if reply.order.state.Accepted? || reply.order.state.Fulfilled? {
      } else if reply.order.state.Ordering? || reply.order.state.Unknown? {
      } else {
      }
    } else {
    }
  }

  lemma GrantedFit(cfg: Config, v: View, v': View, h: Handler, w: Write, reply: Reply, input: Input)
    requires DetailOk(cfg, v, h) && EnergyOk(cfg, h) && CallsAgreeWithLedger(v.trace.calls, v.rows)
    requires h.pc.Attempting? && Intent(cfg, h, input) == Some(w) && v'.trace == v.trace && Tells(v, v', w, reply)
    ensures var next := Resume(cfg, h, reply, input); next.Some? ==> DetailOk(cfg, v', next.value) && EnergyOk(cfg,
      next.value)
  {
    hide ListOk;
    var pc := h.pc;
    NeedIsKnown(cfg, h);
    if reply.No? {
      NeedSuffices(cfg, h, Rereading(pc.plan, pc.rest, pc.rejected));
    } else if input.decrypts {
      NeedSuffices(cfg, h, Ready(pc.plan, pc.provider, pc.amount, input.day, pc.rest));
    } else {
      NeedSuffices(cfg, h, Refusing(pc.plan, pc.provider, pc.rest, false));
    }
  }

  lemma RefusedFit(cfg: Config, v: View, h: Handler, reply: Reply, input: Input)
    requires DetailOk(cfg, v, h) && EnergyOk(cfg, h) && h.pc.Refusing?
    ensures var next := Resume(cfg, h, reply, input); next.Some? ==> DetailOk(cfg, v, next.value) && EnergyOk(cfg,
      next.value)
  {
    hide Catch, ListOk;
    NeedIsKnown(cfg, h);
    if h.pc.final {
      CatchIsPlain(cfg, h, Ordinary);
      CatchEnergy(cfg, h, Ordinary);
    } else {
      NeedSuffices(cfg, h, Choosing(h.pc.plan, h.pc.rest, true));
    }
  }

  lemma PaidResume(cfg: Config, h: Handler, reply: Reply, input: Input)
    requires EnergyOk(cfg, h) && (h.pc.RefusingOrder? || h.pc.Consuming? || h.pc.Fulfilling? || h.pc.TimingOut?)
    ensures var next := Resume(cfg, h, reply, input); next.Some? ==> Plain(next.value.pc) && EnergyOk(cfg, next.value)
  {
    hide Catch, AfterPrepare;
    NeedIsKnown(cfg, h);
    match h.pc
    case RefusingOrder =>
      CatchIsPlain(cfg, h, Ordinary);
      CatchEnergy(cfg, h, Ordinary);
    case Fulfilling =>
      AfterPrepareIsPlain(cfg, h, true);
      AfterPrepareEnergy(cfg, h, true);
    case _ =>
      NeedSuffices(cfg, h, Confirming);
      CatchIsPlain(cfg, h, Paid);
      CatchEnergy(cfg, h, Paid);
      if h.pc == Consuming(true) {
      } else {
      }
  }

  lemma CatchResume(cfg: Config, h: Handler, reply: Reply, input: Input)
    requires Ending(h.pc)
    ensures var next := Resume(cfg, h, reply, input); next.Some? ==> Plain(next.value.pc) && EnergyOk(cfg, next.value)
  {
    hide CatchRest, CatchUnclaim;
    if h.pc.CatchConsuming? {
      CatchIsPlain(cfg, h.(quota := false), Paid);
      CatchEnergy(cfg, h.(quota := false), Paid);
    } else if h.pc.CatchReleasing? {
      CatchIsPlain(cfg, h, Paid);
      CatchEnergy(cfg, h, Paid);
    } else if h.pc.CatchDropping? {
      if h.retain {
      } else {
      }
    } else {
      assert Resume(cfg, h, reply, input) == None;
    }
  }

  lemma ClaimingResume(cfg: Config, h: Handler, reply: Reply, input: Input)
    requires h.pc.Claiming?
    ensures var next := Resume(cfg, h, reply, input); next.Some? ==> Plain(next.value.pc) && EnergyOk(cfg, next.value)
  {
    if reply.No? {
    } else if cfg.boundAddress {
    } else {
    }
  }

  lemma EarlyResume(cfg: Config, h: Handler, reply: Reply, input: Input)
    requires h.pc.Discarding? || h.pc.Reserving? || h.pc.DroppingClaim? || h.pc.CachingReject?
    ensures var next := Resume(cfg, h, reply, input); next.Some? ==> Plain(next.value.pc) && EnergyOk(cfg, next.value)
  {
    if h.pc.Reserving? && reply.Yes? {
    } else if h.pc.Reserving? {
    } else {
    }
  }

  lemma SavedResumes(cfg: Config, h: Handler, reply: Reply, input: Input)
    requires h.pc.SavingEstimate?
    ensures Resume(cfg, h, reply, input) ==
      if cfg.provider && h.need.Some? then Some(h.(pc := Planning)) else Some(h.(pc := Delegating))
  {
  }

  lemma SavedResume(cfg: Config, h: Handler, reply: Reply, input: Input)
    requires EnergyOk(cfg, h) && h.pc.SavingEstimate?
    ensures var next := Resume(cfg, h, reply, input); next.Some? ==> Plain(next.value.pc) && EnergyOk(cfg, next.value)
  {
    hide EnergyOk, Resume;
    SavedResumes(cfg, h, reply, input);
    NeedIsKnown(cfg, h);
    NeedSuffices(cfg, h, Planning);
    NeedSuffices(cfg, h, Delegating);
  }

  lemma AnsweredResume(cfg: Config, h: Handler, reply: Reply, input: Input)
    requires EnergyOk(cfg, h) && (h.pc.Accepting? || h.pc.Doubting?)
    ensures var next := Resume(cfg, h, reply, input); next.Some? ==> Plain(next.value.pc) && EnergyOk(cfg, next.value)
  {
    hide EnergyOk, Catch, CatchRest, CatchUnclaim, CatchConclude, AfterPrepare, Duplicate;
    NeedIsKnown(cfg, h);
    NeedSuffices(cfg, h, Consuming(h.pc.Accepting?));
  }

  lemma ReadiedResume(cfg: Config, h: Handler, reply: Reply, input: Input)
    requires EnergyOk(cfg, h) && h.pc.Readying?
    ensures var next := Resume(cfg, h, reply, input); next.Some? ==> Plain(next.value.pc) && EnergyOk(cfg, next.value)
  {
  }

  lemma PlainResume(cfg: Config, h: Handler, reply: Reply, input: Input)
    requires EnergyOk(cfg, h) && Intent(cfg, h, input).Some?
    requires !h.pc.Opening? && !h.pc.Attempting? && !h.pc.Refusing?
    ensures var next := Resume(cfg, h, reply, input); next.Some? ==> Plain(next.value.pc) && EnergyOk(cfg, next.value)
  {
    hide Resume, EnergyOk, Plain;
    if Ending(h.pc) {
      CatchResume(cfg, h, reply, input);
    } else if h.pc.Claiming? {
      ClaimingResume(cfg, h, reply, input);
    } else if PhaseOf(h).Fresh? {
      EarlyResume(cfg, h, reply, input);
    } else if h.pc.RefusingOrder? || h.pc.Consuming? || h.pc.Fulfilling? || h.pc.TimingOut? {
      PaidResume(cfg, h, reply, input);
    } else if h.pc.SavingEstimate? {
      SavedResume(cfg, h, reply, input);
    } else if h.pc.Readying? {
      ReadiedResume(cfg, h, reply, input);
    } else {
      AnsweredResume(cfg, h, reply, input);
    }
  }

  lemma ResumeDetail(cfg: Config, v: View, v': View, h: Handler, w: Write, reply: Reply, input: Input)
    requires DetailOk(cfg, v, h) && EnergyOk(cfg, h) && CallsAgreeWithLedger(v.trace.calls, v.rows)
    requires Intent(cfg, h, input) == Some(w) && Moves(cfg, h.tx, v, v', w) && Tells(v, v', w, reply)
    ensures var next := Resume(cfg, h, reply, input); next.Some? ==> DetailOk(cfg, v', next.value) && EnergyOk(cfg,
      next.value)
  {
    if h.pc.Opening? {
      hide DetailOk, EnergyOk, Moves, Tells, Catch, Duplicate;
      assert DetailOk(cfg, v', h) by { OpeningDetail(cfg, v, v', h); }
      OpenedFit(cfg, v', h, reply);
    } else if h.pc.Attempting? {
      hide DetailOk, EnergyOk, Tells, Resume;
      GrantedFit(cfg, v, v', h, w, reply, input);
    } else if h.pc.Refusing? {
      hide DetailOk, EnergyOk, Moves, Tells, Resume;
      assert DetailOk(cfg, v', h) by { OpeningDetail(cfg, v, v', h); }
      RefusedFit(cfg, v', h, reply, input);
    } else {
      hide DetailOk, EnergyOk, Moves, Tells, Resume;
      PlainResume(cfg, h, reply, input);
      var next := Resume(cfg, h, reply, input);
      if next.Some? {
        PlainDetail(cfg, v', next.value);
      }
    }
  }

  lemma OpeningDetail(cfg: Config, v: View, v': View, h: Handler)
    requires DetailOk(cfg, v, h) && (h.pc.Opening? || h.pc.Refusing?)
    ensures DetailOk(cfg, v', h)
  {
  }

  // ---- a whole step -----------------------------------------------------------------------------

  lemma LedgerFacts(cfg: Config, t: TxId, v: View)
    requires TxOk(cfg, t, v)
    ensures CallsAgreeWithLedger(v.trace.calls, v.rows) && Basics(v)
  {
  }

  lemma WriteSteps(cfg: Config, v: View, v': View, h: Handler, w: Write, reply: Reply, input: Input)
    requires HandlerOk(cfg, v, h) && Basics(v) && Basics(v')
    requires Intent(cfg, h, input) == Some(w) && Moves(cfg, h.tx, v, v', w) && Tells(v, v', w, reply)
    ensures WriteStepOk(cfg, v, v', h, reply, input)
  {
    hide HandlerOk, Basics, Moves, Tells, WriteStepOk, Intent;
    if QuietPc(h.pc) {
      QuietWriteStepOk(cfg, v, v', h, w, reply, input);
    } else {
      LoudWriteStepOk(cfg, v, v', h, w, reply, input);
    }
  }

  /** A handler's write leaves its transaction and the handler well, acknowledged or not. */
  lemma WriteFit(cfg: Config, db: Db, trace: Trace, h: Handler, w: Write, input: Input)
    requires TxOk(cfg, h.tx, ViewOf(db, trace, h.tx)) && Fit(cfg, ViewOf(db, trace, h.tx), h)
    requires Intent(cfg, h, input) == Some(w)
    requires Flagged(db, h.tx) ==> h.tx.owner in db.bindings
    ensures var v, v', reply := ViewOf(db, trace, h.tx), After(cfg, db, trace, h.tx, w), Apply(cfg, db, h.tx, w).1;
      && TxOk(cfg, h.tx, v')
      && (!reply.Thrown? ==> NextFit(cfg, v', Resume(cfg, h, reply, input)))
      && (!h.pc.Discarding? ==> NextFit(cfg, v', Fail(cfg, h)))
      && NextFit(cfg, v, Fail(cfg, h))
  {
    hide TxOk, HandlerOk, DetailOk, EnergyOk, ViewOf, After, Apply, Intent, Resume, Fail, Allowed, Moves, Tells,
        Basics, Flagged, CallsAgreeWithLedger;
    var t := h.tx;
    var v, v', reply := ViewOf(db, trace, t), After(cfg, db, trace, t, w), Apply(cfg, db, t, w).1;
    IntentAllowed(cfg, v, h, input);
    WriteKeepsTx(cfg, db, trace, t, w);
    WriteMoves(cfg, db, trace, t, w);
    WriteTells(cfg, db, trace, t, w);
    LedgerFacts(cfg, t, v);
    LedgerFacts(cfg, t, v');
    WriteSteps(cfg, v, v', h, w, reply, input);
    ResumeDetail(cfg, v, v', h, w, reply, input);
    FailDetail(cfg, v, h);
    FailDetail(cfg, v', h);
    FailEnergy(cfg, h);
  }
}
