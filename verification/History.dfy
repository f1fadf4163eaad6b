/** What has happened stays happened: calls, answers, broadcasts and settlements are never undone. */
module History {
  import opened Options
  import opened Schema
  import opened EnergyPackages
  import opened Gateway
  import opened TxInvariant
  import opened Invariant
  import opened Safety
  import opened Prepare
  import P = ProviderRepository

  /** A call is final once it was answered. */
  predicate CallGrows(before: Call, after: Call) {
    after == if before.answer.InFlight? then before.(answer := after.answer) else before
  }

  ghost predicate Grows(before: Trace, after: Trace) {
    && before.reserved <= after.reserved && before.consumed <= after.consumed && before.released <= after.released
    && before.outcomes <= after.outcomes && before.accepted <= after.accepted && before.forwards <= after.forwards
    && before.arrivals <= after.arrivals
    && |before.calls| <= |after.calls|
    && (forall i :: 0 <= i < |before.calls| ==> CallGrows(before.calls[i], after.calls[i]))
  }

  lemma GrowsFurther(a: Trace, b: Trace, c: Trace)
    requires Grows(a, b) && Grows(b, c)
    ensures Grows(a, c)
  {
    forall i | 0 <= i < |a.calls|
      ensures CallGrows(a.calls[i], c.calls[i])
    {
      assert CallGrows(a.calls[i], b.calls[i]) && CallGrows(b.calls[i], c.calls[i]);
    }
  }

  lemma ObservationGrows(trace: Trace, before: Db, after: Db, t: TxId, w: Write)
    ensures Grows(trace, Observe(trace, before, after, t, w))
  {
  }

  lemma CommitGrows(cfg: Config, s: State, t: TxId, w: Write, fault: Fault, u: TxId)
    ensures Grows(TraceOf(s, u), TraceOf(Commit(cfg, s, t, w, fault), u))
  {
    hide Apply, Observe;
    ObservationGrows(TraceOf(s, t), s.db, Apply(cfg, s.db, t, w).0, t, w);
  }

  lemma SenseGrows(cfg: Config, db: Db, v: View, h: Handler, input: Input)
    requires DetailOk(cfg, v, h)
    ensures var sensed := Sense(cfg, db, v.trace, h, input); sensed.Moved? ==> Grows(v.trace, sensed.trace)
  {
    if h.pc.Calling? {
      hide Catch, ListOk;
    } else if h.pc.Ready? || h.pc.Forwarding? || h.pc.Confirming? {
      hide Catch, ListOk;
    } else {
      hide DetailOk, Catch;
      OtherwiseSilent(cfg, db, v.trace, h, input);
    }
  }

  /** Only a call, its answer, a delivery reading and a broadcast enter the history. */
  lemma OtherwiseSilent(cfg: Config, db: Db, trace: Trace, h: Handler, input: Input)
    requires !h.pc.Ready? && !h.pc.Calling? && !h.pc.Forwarding? && !h.pc.Confirming?
    ensures var sensed := Sense(cfg, db, trace, h, input); sensed.Moved? ==> sensed.trace == trace
  {
    hide Catch, AfterPrepare, Duplicate, Prepared, ListsEnabled, IsQuote, Offers;
  }

  lemma HandlerGrows(cfg: Config, s: State, id: nat, input: Input, fault: Fault, u: TxId)
    requires Inv(cfg, s)
    ensures Grows(TraceOf(s, u), TraceOf(HandlerStep(cfg, s, id, input, fault), u))
  {
    hide TxOk, HandlerOk, EnergyOk, DetailOk, Commit, Sense, AfterWrite, Intent, Grows, WriteStep, RowsOf;
    GrowsAtAll(TraceOf(s, u));
    if id in s.handlers {
      var h := s.handlers[id];
      var intent := Intent(cfg, h, input);
      assert HandlerWell(cfg, s, h);
      if intent.Some? {
        CommitGrows(cfg, s, h.tx, intent.value, fault, u);
        WriteStepIs(cfg, s, id, h, intent.value, input, fault);
      } else {
        if h.late {
          LateWrites(cfg, h, input);
        }
        SenseGrows(cfg, s.db, TxView(s, h.tx), h, input);
      }
    }
  }

  lemma GrowsAtAll(trace: Trace)
    ensures Grows(trace, trace)
  {
  }

  lemma NextGrows(cfg: Config, s: State, e: Event, u: TxId)
    requires Inv(cfg, s)
    ensures Grows(TraceOf(s, u), TraceOf(Next(cfg, s, e), u))
  {
    if e.Step? {
      hide Inv, HandlerStep, Grows;
      GrowsAtAll(TraceOf(s, u));
      HandlerGrows(cfg, s, e.id, e.input, e.fault, u);
    } else if e.Recover? {
      hide Inv, Commit, Grows;
      GrowsAtAll(TraceOf(s, u));
      CommitGrows(cfg, s.(stale := s.stale - {e.tx}), e.tx, RecordOutcome(e.accepted), e.fault, u);
    } else {
      hide Inv, Next, Grows;
      GrowsAtAll(TraceOf(s, u));
      OthersRecordNothing(cfg, s, e);
    }
  }

  /** Where a further sequence of events leads from a state. */
  ghost function From(cfg: Config, s: State, events: seq<Event>): State {
    if events == [] then s else Next(cfg, From(cfg, s, events[..|events| - 1]), events[|events| - 1])
  }

  lemma {:induction false} FromContinues(cfg: Config, before: seq<Event>, events: seq<Event>)
    ensures From(cfg, Run(cfg, before), events) == Run(cfg, before + events)
  {
    hide Next;
    if events == [] {
      assert before + events == before;
    } else {
      var init := events[..|events| - 1];
      FromContinues(cfg, before, init);
      assert (before + events)[..|before + events| - 1] == before + init;
    }
  }

  lemma StaysReachable(cfg: Config, s: State, events: seq<Event>)
    requires Reachable(cfg, s)
    ensures Reachable(cfg, From(cfg, s, events))
  {
    hide Run, From;
    var before :| s == Run(cfg, before);
    FromContinues(cfg, before, events);
  }

  lemma {:induction false} RunGrows(cfg: Config, s: State, events: seq<Event>, t: TxId)
    requires Reachable(cfg, s)
    ensures Grows(TraceOf(s, t), TraceOf(From(cfg, s, events), t))
  {
    hide Inv, Next, Grows, TraceOf, Reachable;
    if events == [] {
      GrowsAtAll(TraceOf(s, t));
    } else {
      var less := events[..|events| - 1];
      RunGrows(cfg, s, less, t);
      StaysReachable(cfg, s, less);
      InvHolds(cfg, From(cfg, s, less));
      NextGrows(cfg, From(cfg, s, less), events[|events| - 1], t);
      GrowsFurther(TraceOf(s, t), TraceOf(From(cfg, s, less), t), TraceOf(From(cfg, s, events), t));
    }
  }

  // ---- from here on ---------------------------------------------------------------------------------

  /** After a call was accepted or left unclear, no run makes another call for the transaction. */
  lemma NoCallAfterAcceptance(cfg: Config, s: State, events: seq<Event>, t: TxId, i: nat)
    requires Reachable(cfg, s) && i < |TraceOf(s, t).calls|
    requires var answer := TraceOf(s, t).calls[i].answer; answer.SaidYes? || answer.Unclear?
    ensures TraceOf(From(cfg, s, events), t).calls == TraceOf(s, t).calls
  {
    hide Reachable, From;
    var before, after := TraceOf(s, t).calls, TraceOf(From(cfg, s, events), t).calls;
    RunGrows(cfg, s, events, t);
    StaysReachable(cfg, s, events);
    EachProviderIsCalledOnce(cfg, s, t);
    EachProviderIsCalledOnce(cfg, From(cfg, s, events), t);
    assert forall k :: 0 <= k < |before| ==> CallGrows(before[k], after[k]);
    assert after[i] == before[i];
    assert |after| == i + 1;
    forall k | 0 <= k < |before|
      ensures after[k] == before[k]
    {
      assert CallGrows(before[k], after[k]);
    }
  }

  predicate NobodyWaits(s: State, t: TxId) {
    forall i :: i in s.handlers && s.handlers[i].tx == t ==> !s.handlers[i].pc.Calling?
  }

  /** Calls enter the history, and get their answers, only at the two places of a call. */
  lemma CallsAreMadeThere(cfg: Config, db: Db, trace: Trace, h: Handler, input: Input)
    requires !h.pc.Ready? && !h.pc.Calling?
    ensures var sensed := Sense(cfg, db, trace, h, input); sensed.Moved? ==> sensed.trace.calls == trace.calls
  {
    hide Catch;
    if !h.pc.Forwarding? && !h.pc.Confirming? {
      OtherwiseSilent(cfg, db, trace, h, input);
    }
  }

  lemma ReadyIsUncharged(cfg: Config, s: State, id: nat)
    requires Inv(cfg, s) && id in s.handlers && !s.handlers[id].late && s.handlers[id].pc.Ready?
    ensures !MayBeCharged(TraceOf(s, s.handlers[id].tx).calls)
  {
    hide TxOk, DetailOk, EnergyOk, MayBeCharged, RowsOf;
    assert HandlerWell(cfg, s, s.handlers[id]);
  }

  /** A handler that neither waits for an answer nor is about to call leaves the calls alone. */
  lemma OwnStepCallsNobody(cfg: Config, s: State, id: nat, input: Input, fault: Fault)
    requires Reachable(cfg, s) && s.up && id in s.handlers && !Waits(s, id)
    requires !s.handlers[id].pc.Calling? && MayBeCharged(TraceOf(s, s.handlers[id].tx).calls)
    ensures var s', t := Next(cfg, s, Step(id, input, fault)), s.handlers[id].tx;
      && TraceOf(s', t).calls == TraceOf(s, t).calls && OnlyTx(s, s', t)
      && (forall j :: j in s'.handlers && j != id ==> j in s.handlers && s'.handlers[j] == s.handlers[j])
      && (id in s'.handlers && s'.handlers[id].tx == t ==> !s'.handlers[id].pc.Calling?)
  {
    hide Reachable, TxsOk, Fit, Next, Sense, Intent, AfterWrite, Commit, WriteStep, SenseStep, Waits, KnowsOrder,
      KnowsCharge, MayBeCharged, RowsOf, OneInside;
    var h := s.handlers[id];
    InvHolds(cfg, s);
    PrepareHolds(cfg, s);
    StepIs(cfg, s, id, input, fault);
    assert HandlerWell(cfg, s, h);
    LateWrites(cfg, h, input);
    assert !h.late ==> Knows(TxView(s, h.tx), h);
    ViewOrder(s, h.tx);
    var intent := Intent(cfg, h, input);
    if intent.Some? {
      CommittedViews(cfg, s, h.tx, intent.value, fault);
      WritesMakeNoCalls(cfg, s, h.tx, intent.value, fault);
      WriteStepIs(cfg, s, id, h, intent.value, input, fault);
      if h.late {
        LateIsOver(cfg, s.db, h, input, fault);
      } else {
        if h.pc.Opening? {
          OpeningHasNone(cfg, s, id);
        }
        NextKnows(cfg, s, h, intent.value, input, fault);
        LateNextWaitsNot(cfg, s.db, h, intent.value, input, fault);
      }
    } else {
      assert !h.pc.Ready? by {
        if h.pc.Ready? {
          ReadyIsUncharged(cfg, s, id);
          assert false;
        }
      }
      SenseStepIs(cfg, s, id, h, input);
      CallsAreMadeThere(cfg, s.db, TraceOf(s, h.tx), h, input);
      SenseKnows(cfg, s.db, TraceOf(s, h.tx), h, input);
      UnchargedWaitsNot(Sense(cfg, s.db, TraceOf(s, h.tx), h, input));
    }
  }

  lemma LateIsOver(cfg: Config, db: Db, h: Handler, input: Input, fault: Fault)
    requires h.late && h.pc.CatchFailing?
    ensures AfterWrite(cfg, db, h, Complete(Failed), input, fault).None?
  {
    hide Apply, Resume, Fail;
    LateWrites(cfg, h, input);
  }

  lemma LateNextWaitsNot(cfg: Config, db: Db, h: Handler, w: Write, input: Input, fault: Fault)
    requires !h.late && Intent(cfg, h, input) == Some(w)
    ensures var next := AfterWrite(cfg, db, h, w, input, fault);
      next.Some? && next.value.late ==> !next.value.pc.Calling?
  {
    hide Apply, Resume, Fail, Intent;
    ResumeStays(cfg, h, Apply(cfg, db, h.tx, w).1, input);
    FailStays(cfg, h);
    FailLeaves(cfg, h);
  }

  lemma UnchargedWaitsNot(sensed: Sensed)
    ensures sensed.Moved? && Uncharged(sensed.next) && sensed.next.Some? ==> !sensed.next.value.pc.Calling?
  {
  }

  lemma StepCallsNobody(cfg: Config, s: State, e: Event, t: TxId)
    requires Reachable(cfg, s) && NobodyWaits(s, t) && MayBeCharged(TraceOf(s, t).calls)
    ensures TraceOf(Next(cfg, s, e), t).calls == TraceOf(s, t).calls && NobodyWaits(Next(cfg, s, e), t)
  {
    hide Reachable, MayBeCharged;
    if e.Step? {
      hide HandlerStep, Waits, TxView;
      if s.up && !Waits(s, e.id) && e.id in s.handlers {
        if s.handlers[e.id].tx == t {
          OwnStepCallsNobody(cfg, s, e.id, e.input, e.fault);
        } else {
          OtherStepCallsNobody(cfg, s, e, t);
        }
      }
    } else if e.Recover? {
      hide Commit;
      RecoveryCallsNobody(cfg, s, e.tx, e.accepted, e.fault, t);
    } else {
      hide Next;
      OthersRecordNothing(cfg, s, e);
      if e.Arrive? {
        ArrivalsEnterNot(cfg, s, e);
        ArrivalIs(cfg, s, e);
      } else if !e.Crash? && !e.Start? {
        OthersKeepOrders(cfg, s, e);
      } else {
        RestartHandlers(cfg, s, e);
      }
    }
  }

  lemma ArrivalIs(cfg: Config, s: State, e: Event)
    requires e.Arrive?
    ensures Next(cfg, s, e) == ArriveStep(cfg, s, e.id, e.tx, e.wellFormed, e.permitted, e.now, e.fault)
    ensures !NewHandler(e.tx).pc.Calling?
  {
    hide ArriveStep;
  }

  lemma RestartHandlers(cfg: Config, s: State, e: Event)
    requires e.Crash? || e.Start?
    ensures var s' := Next(cfg, s, e);
      forall i :: i in s'.handlers ==> i in s.handlers && s'.handlers[i] == s.handlers[i]
  {
    hide P.RecoverInterruptedOrders;
  }

  lemma OtherStepCallsNobody(cfg: Config, s: State, e: Event, t: TxId)
    requires Reachable(cfg, s) && NobodyWaits(s, t)
    requires e.Step? && s.up && !Waits(s, e.id) && e.id in s.handlers && s.handlers[e.id].tx != t
    ensures TraceOf(Next(cfg, s, e), t) == TraceOf(s, t) && NobodyWaits(Next(cfg, s, e), t)
  {
    hide Reachable, Next, Sense, Intent, AfterWrite, Commit, WriteStep, SenseStep, Waits, TxView;
    var h := s.handlers[e.id];
    StepIs(cfg, s, e.id, e.input, e.fault);
    var intent := Intent(cfg, h, e.input);
    if intent.Some? {
      CommittedViews(cfg, s, h.tx, intent.value, e.fault);
      WriteStepIs(cfg, s, e.id, h, intent.value, e.input, e.fault);
      NextStaysLate(cfg, s.db, h, intent.value, e.input, e.fault);
      ViewTraces(s, Commit(cfg, s, h.tx, intent.value, e.fault), t);
    } else {
      SenseStepIs(cfg, s, e.id, h, e.input);
    }
  }

  lemma ViewTraces(s: State, s': State, t: TxId)
    requires TxView(s', t) == TxView(s, t)
    ensures TraceOf(s', t) == TraceOf(s, t)
  {
  }

  lemma RecoveryCallsNobody(cfg: Config, s: State, u: TxId, accepted: bool, fault: Fault, t: TxId)
    ensures var s' := RecoverStep(cfg, s, u, accepted, fault);
      TraceOf(s', t).calls == TraceOf(s, t).calls && s'.handlers == s.handlers
  {
    hide Apply;
  }

  /**
   * A call that was accepted or left unclear, or that nobody waits for any more (its handler went down with the
   * process), ends all calling: no run from there makes another call for the transaction, or learns an answer.
   */
  lemma {:induction false} NoCallAfterInterruption(cfg: Config, s: State, events: seq<Event>, t: TxId)
    requires Reachable(cfg, s) && NobodyWaits(s, t) && MayBeCharged(TraceOf(s, t).calls)
    ensures TraceOf(From(cfg, s, events), t).calls == TraceOf(s, t).calls
    ensures NobodyWaits(From(cfg, s, events), t)
  {
    hide Reachable, Next, MayBeCharged, NobodyWaits, TraceOf;
    if events != [] {
      var less := events[..|events| - 1];
      NoCallAfterInterruption(cfg, s, less, t);
      StaysReachable(cfg, s, less);
      StepCallsNobody(cfg, From(cfg, s, less), events[|events| - 1], t);
    }
  }

  /** A unit that was consumed stays consumed, whatever happens next. */
  lemma ConsumedStaysConsumed(cfg: Config, s: State, events: seq<Event>, t: TxId)
    requires Reachable(cfg, s) && TraceOf(s, t).consumed == 1
    ensures var s' := From(cfg, s, events);
      TraceOf(s', t).consumed == 1 && TraceOf(s', t).released == 0 && !Flagged(s'.db, t)
  {
    hide Reachable, From, Grows;
    RunGrows(cfg, s, events, t);
    StaysReachable(cfg, s, events);
    SettlementsGrow(TraceOf(s, t), TraceOf(From(cfg, s, events), t));
    UnitsAreConserved(cfg, From(cfg, s, events), t);
  }

  lemma SettlementsGrow(before: Trace, after: Trace)
    requires Grows(before, after)
    ensures before.consumed <= after.consumed && before.forwards <= after.forwards
  {
  }

  /** Once a transaction was sent upstream, the gateway never sends it again. */
  lemma NeverSentAgain(cfg: Config, s: State, events: seq<Event>, t: TxId)
    requires Reachable(cfg, s) && TraceOf(s, t).forwards != []
    ensures TraceOf(From(cfg, s, events), t).forwards == TraceOf(s, t).forwards
  {
    hide Reachable, From, Grows;
    RunGrows(cfg, s, events, t);
    StaysReachable(cfg, s, events);
    SettlementsGrow(TraceOf(s, t), TraceOf(From(cfg, s, events), t));
    SentAtMostOnce(cfg, s, t);
    SentAtMostOnce(cfg, From(cfg, s, events), t);
  }
}
