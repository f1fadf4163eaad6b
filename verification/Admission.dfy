/** Who gets in, takes the claim, is given a unit, and is granted an attempt. */
module Admission {
  import opened Options
  import opened Schema
  import opened EnergyPackages
  import opened Gateway
  import opened TxInvariant
  import opened WriteLemmas
  import opened HandlerLemmas
  import opened Invariant
  import opened Budget
  import opened Safety
  import opened Claims
  import opened Prepare
  import opened Refunds
  import opened Conduct
  import opened Records
  import opened Outcomes
  import G = GatewayRepository
  import P = ProviderRepository

  // ---- events that are not a handler's --------------------------------------------------------------

  lemma RecoveryTakesNothing(cfg: Config, s: State, u: TxId, accepted: bool, fault: Fault, t: TxId)
    ensures TraceOf(RecoverStep(cfg, s, u, accepted, fault), t).reserved == TraceOf(s, t).reserved
    ensures var db := RecoverStep(cfg, s, u, accepted, fault).db;
      db.ledger == s.db.ledger && db.orders == s.db.orders && (t in db.requests ==> t in s.db.requests)
  {
    hide G.RecordBroadcastOutcome, Flagged;
    if s.up && u in s.stale {
      RecordingTakesNothing(s.db, u, accepted, t);
    }
  }

  lemma RecordingTakesNothing(db: Db, u: TxId, accepted: bool, t: TxId)
    ensures var after := G.RecordBroadcastOutcome(db, u.owner, u, accepted);
      && (Flagged(after, u) ==> Flagged(db, u)) && (t in after.requests ==> t in db.requests)
      && after.ledger == db.ledger && after.orders == db.orders
  {
    hide G.MoveQuota, G.Releasable;
    var settled := G.MoveQuota(db, u.owner, u, accepted || G.ProviderBillable(db, u));
    MoveQuotaTakesNothing(db, u, accepted || G.ProviderBillable(db, u), t);
  }

  lemma MoveQuotaTakesNothing(db: Db, u: TxId, consume: bool, t: TxId)
    ensures var after := G.MoveQuota(db, u.owner, u, consume);
      && (Flagged(after, u) ==> Flagged(db, u)) && (t in after.requests ==> t in db.requests)
      && after.ledger == db.ledger && after.orders == db.orders && after.openLeases == db.openLeases
  {
  }

  // ---- units ------------------------------------------------------------------------------------------

  /** An address may be given a unit when it is enabled, not expired and within its limit, finite in provider mode. */
  predicate MayHaveUnit(cfg: Config, db: Db, a: Address, now: int) {
    && a in db.bindings && db.bindings[a].enabled
    && (db.bindings[a].expiresAt.Some? ==> now < db.bindings[a].expiresAt.value)
    && (cfg.provider ==> db.bindings[a].max.Some?)
    && (db.bindings[a].max.Some? ==> db.bindings[a].used + db.bindings[a].reserved < db.bindings[a].max.value)
  }

  lemma ReservationDecides(cfg: Config, db: Db, t: TxId, now: int)
    requires t in db.requests
    ensures var (after, reply) := Apply(cfg, db, t, ReserveUnit(now));
      if MayHaveUnit(cfg, db, t.owner, now) then
        && reply.Yes? && t in after.requests
        && after.requests[t] == db.requests[t].(state := QuotaReserved, quotaReserved := true)
        && after.bindings ==
             db.bindings[t.owner := db.bindings[t.owner].(reserved := db.bindings[t.owner].reserved + 1)]
        && after.orders == db.orders && after.claims == db.claims
      else reply.No? && after == db
  {
  }

  /** No other write of a handler sets a reservation. */
  lemma OthersReserveNothing(cfg: Config, v: View, v': View, t: TxId, w: Write)
    requires Moves(cfg, t, v, v', w) && !w.ReserveUnit?
    ensures v'.trace.reserved == v.trace.reserved
  {
  }

  /** A unit is only ever taken by a handler at its reservation, for an address that may have one at that moment. */
  lemma UnitsAreForUsable(cfg: Config, s: State, e: Event, t: TxId)
    requires Reachable(cfg, s) && TraceOf(Next(cfg, s, e), t).reserved > TraceOf(s, t).reserved
    ensures e.Step? && e.id in s.handlers && s.handlers[e.id].tx == t && s.handlers[e.id].pc.Reserving?
    ensures e.input.Clock? && MayHaveUnit(cfg, s.db, t.owner, e.input.now)
  {
    hide Reachable, MayHaveUnit;
    if e.Step? {
      hide Next;
      StepReserves(cfg, s, e.id, e.input, e.fault, t);
    } else if e.Recover? {
      RecoveryTakesNothing(cfg, s, e.tx, e.accepted, e.fault, t);
    } else {
      hide Next;
      OthersRecordNothing(cfg, s, e);
    }
  }

  lemma StepReserves(cfg: Config, s: State, id: nat, input: Input, fault: Fault, t: TxId)
    requires Reachable(cfg, s)
    requires TraceOf(Next(cfg, s, Step(id, input, fault)), t).reserved > TraceOf(s, t).reserved
    ensures id in s.handlers && s.handlers[id].tx == t && s.handlers[id].pc.Reserving?
    ensures input.Clock? && MayHaveUnit(cfg, s.db, t.owner, input.now)
  {
    hide Reachable, Next, MayHaveUnit, Intent, Apply, Sense, SenseStep, Commit, WriteStep, Waits, TxView, ViewOf,
      After, Moves;
    StepOrNothing(cfg, s, id, input, fault);
    if s.up && id in s.handlers && !Waits(s, id) {
      var h := s.handlers[id];
      StepIs(cfg, s, id, input, fault);
      var intent := Intent(cfg, h, input);
      var s' := Next(cfg, s, Step(id, input, fault));
      if intent.Some? {
        var c := Commit(cfg, s, h.tx, intent.value, fault);
        CommittedViews(cfg, s, h.tx, intent.value, fault);
        WriteStepIs(cfg, s, id, h, intent.value, input, fault);
        Records.SameViews(s', c);
        ViewParts(s, t);
        ViewParts(s', t);
        assert h.tx == t && !fault.NotApplied?;
        WriteReserves(cfg, s, h, intent.value, input, t);
      } else {
        SenseReservesNothing(cfg, s, id, input);
        SenseStepIs(cfg, s, id, h, input);
      }
    }
  }

  lemma StepOrNothing(cfg: Config, s: State, id: nat, input: Input, fault: Fault)
    ensures !s.up || id !in s.handlers || Waits(s, id) ==> Next(cfg, s, Step(id, input, fault)) == s
  {
    hide Waits;
  }

  lemma SenseReservesNothing(cfg: Config, s: State, id: nat, input: Input)
    requires id in s.handlers
    ensures var sensed := Sense(cfg, s.db, TraceOf(s, s.handlers[id].tx), s.handlers[id], input);
      sensed.Moved? ==> sensed.trace.reserved == TraceOf(s, s.handlers[id].tx).reserved
  {
    hide Catch, AfterPrepare, Duplicate, Prepared, ListsEnabled, IsQuote, Offers;
  }

  lemma WriteReserves(cfg: Config, s: State, h: Handler, w: Write, input: Input, t: TxId)
    requires Reachable(cfg, s) && Intent(cfg, h, input) == Some(w) && h.tx == t
    requires After(cfg, s.db, TraceOf(s, t), t, w).trace.reserved > TxView(s, t).trace.reserved
    ensures h.pc.Reserving? && input.Clock? && MayHaveUnit(cfg, s.db, t.owner, input.now)
  {
    hide Reachable, MayHaveUnit, Inv, Moves, TxView, ViewOf;
    InvHolds(cfg, s);
    BindingAt(cfg, s, t);
    WriteViewIs(s, t);
    WriteMoves(cfg, s.db, TraceOf(s, t), t, w);
    if !w.ReserveUnit? {
      OthersReserveNothing(cfg, TxView(s, t), After(cfg, s.db, TraceOf(s, t), t, w), t, w);
      assert false;
    }
    ReservingWrites(cfg, h, input);
    if t in s.db.requests {
      ReservationDecides(cfg, s.db, t, w.now);
      if !MayHaveUnit(cfg, s.db, t.owner, w.now) {
        NothingObserved(cfg, s, t, w);
        assert false;
      }
    } else {
      UnknownReserves(cfg, s, t, w);
      assert false;
    }
  }

  lemma BindingAt(cfg: Config, s: State, t: TxId)
    requires Inv(cfg, s)
    ensures Flagged(s.db, t) ==> t.owner in s.db.bindings
  {
    hide TxsOk, HandlersOk, WorkersOk, Alone;
  }

  lemma ReservingWrites(cfg: Config, h: Handler, input: Input)
    requires Intent(cfg, h, input).Some? && Intent(cfg, h, input).value.ReserveUnit?
    ensures h.pc.Reserving? && input.Clock? && Intent(cfg, h, input) == Some(ReserveUnit(input.now))
  {
  }

  lemma NothingObserved(cfg: Config, s: State, t: TxId, w: Write)
    requires Apply(cfg, s.db, t, w).0 == s.db
    ensures After(cfg, s.db, TraceOf(s, t), t, w).trace.reserved == TxView(s, t).trace.reserved
  {
    hide Apply, RowsOf;
  }

  lemma UnknownReserves(cfg: Config, s: State, t: TxId, w: Write)
    requires t !in s.db.requests && w.ReserveUnit?
    ensures After(cfg, s.db, TraceOf(s, t), t, w).trace.reserved == TxView(s, t).trace.reserved
  {
    hide RowsOf;
    ReserveQuotaEffect(s.db, t, cfg.provider, w.now);
  }

  /**
   * The other way round, a handler at its reservation is given the unit whenever its address may have one, and
   * goes on to the estimate with it; otherwise nothing changes, and it gives up its claim.
   */
  lemma UnitIsGivenIff(cfg: Config, s: State, id: nat, now: int)
    requires Reachable(cfg, s) && s.up && id in s.handlers && !s.handlers[id].late && s.handlers[id].pc.Reserving?
    ensures var s', t, a := Next(cfg, s, Step(id, Clock(now), Acked)), s.handlers[id].tx, s.handlers[id].tx.owner;
      && id in s'.handlers
      && (if MayHaveUnit(cfg, s.db, a, now) then
            && a in s'.db.bindings && s'.db.bindings[a].reserved == s.db.bindings[a].reserved + 1
            && s'.db.bindings[a].used == s.db.bindings[a].used
            && t in s'.db.requests && s'.db.requests[t].quotaReserved && s'.db.requests[t].state.QuotaReserved?
            && s'.handlers[id].pc.Estimating? && s'.handlers[id].quota
          else s'.db == s.db && s'.handlers[id].pc.DroppingClaim? && !s'.handlers[id].quota)
  {
    hide Reachable, Next, Apply, Resume, Fail, MayHaveUnit, OnlyTx, TxOk, Conducts, Accounts, TxView, KnowsOrder,
      MayBeCharged;
    var h := s.handlers[id];
    LiveRecord(cfg, s, id);
    WriteTurn(cfg, s, id, ReserveUnit(now), Clock(now), Acked);
    ReservationDecides(cfg, s.db, h.tx, now);
    EarlyResumes(cfg, h, Apply(cfg, s.db, h.tx, ReserveUnit(now)).1, Clock(now));
  }

  // ---- claims -------------------------------------------------------------------------------------------

  ghost predicate AddressIsFree(db: Db, a: Address) {
    a !in db.claims && forall u: TxId :: u.owner == a ==> !OrderIsOpen(db, u)
  }

  lemma FreeMeansFree(cfg: Config, s: State, a: Address)
    requires Reachable(cfg, s)
    ensures AddressIsFree(s.db, a) <==> a !in s.db.claims && !G.HasOpenOrder(s.db, a)
  {
    hide Reachable, OrderAgreesWithLedger, CallsAgreeWithLedger, QuotaAgrees;
    forall u | u in s.db.orders
      ensures s.db.orders[u].receiver == u.owner
    {
      TxHolds(cfg, s, u);
    }
  }

  lemma ClaimDecides(cfg: Config, s: State, t: TxId)
    requires Reachable(cfg, s) && t in s.db.requests
    ensures var (after, reply) := Apply(cfg, s.db, t, AcquireClaim);
      if AddressIsFree(s.db, t.owner) then reply.Yes? && after == s.db.(claims := s.db.claims[t.owner := t])
      else reply.No? && after == s.db
  {
    hide Run, PreparersOk, OpenIsClaimed, AddressIsFree, G.HasOpenOrder;
    FreeMeansFree(cfg, s, t.owner);
    var events :| s == Run(cfg, events);
    RunClaims(cfg, events);
  }

  /**
   * A handler takes the claim of its address exactly when nobody holds it and no order of the address is open;
   * otherwise nothing changes, and it goes on to discard its request.
   */
  lemma ClaimIsGrantedIff(cfg: Config, s: State, id: nat)
    requires Reachable(cfg, s) && s.up && id in s.handlers && !s.handlers[id].late && s.handlers[id].pc.Claiming?
    ensures var s', t := Next(cfg, s, Step(id, NoInput, Acked)), s.handlers[id].tx;
      && id in s'.handlers
      && (if AddressIsFree(s.db, t.owner) then
            && s'.db == s.db.(claims := s.db.claims[t.owner := t]) && s'.handlers[id].claimed
            && s'.handlers[id].pc == (if cfg.boundAddress then Reserving else Estimating)
          else s'.db == s.db && s'.handlers[id].pc.Discarding?)
  {
    hide Reachable, Next, Apply, Resume, Fail, AddressIsFree, OnlyTx, TxOk, HandlerOk, Conducts, Accounts, TxView,
      KnowsOrder;
    var h := s.handlers[id];
    LiveRecord(cfg, s, id);
    WriteTurn(cfg, s, id, AcquireClaim, NoInput, Acked);
    ClaimDecides(cfg, s, h.tx);
    EarlyResumes(cfg, h, Apply(cfg, s.db, h.tx, AcquireClaim).1, NoInput);
  }

  lemma DiscardDecides(cfg: Config, db: Db, t: TxId)
    requires t in db.requests
    ensures var after := Apply(cfg, db, t, DiscardRow).0;
      && (t in after.requests <==>
            || !db.requests[t].state.Received? || db.requests[t].quotaReserved || t in db.openLeases || t in db.orders
            || exists a :: a in db.claims && db.claims[a] == t)
      && after == db.(requests := if t in after.requests then db.requests else db.requests - {t})
  {
  }

  /** A refused request leaves no trace: carried out, the discard removes its row, so that it can be submitted again. */
  lemma RefusedIsForgotten(cfg: Config, s: State, id: nat, input: Input, fault: Fault)
    requires Reachable(cfg, s) && s.up && id in s.handlers && !s.handlers[id].late && s.handlers[id].pc.Discarding?
    requires var t := s.handlers[id].tx; t !in s.overwritten && t !in s.db.openLeases && !Holds(s.db, t)
    requires !fault.NotApplied?
    ensures var s', t := Next(cfg, s, Step(id, input, fault)), s.handlers[id].tx;
      t !in s'.db.requests && s'.db == s.db.(requests := s.db.requests - {t})
  {
    hide Run, Next, Apply, AfterWrite, OnlyTx, TxOk, AnswerKnown, FlagsFit, NeedFits, Accounts, TxView, KnowsOrder,
      MayBeCharged, PreparersOk, OpenIsClaimed;
    var h := s.handlers[id];
    LiveRecord(cfg, s, id);
    WriteTurn(cfg, s, id, DiscardRow, input, fault);
    DiscardDecides(cfg, s.db, h.tx);
    var events :| s == Run(cfg, events);
    RunClaims(cfg, events);
  }

  /** Refused a unit, a handler gives up its claim and answers with a cached refusal. */
  lemma UnitRefusalEnds(cfg: Config, s: State, id: nat, input: Input)
    requires Reachable(cfg, s) && s.up && id in s.handlers && !s.handlers[id].late
    ensures var s', h := Next(cfg, s, Step(id, input, Acked)), s.handlers[id];
      && (h.pc.DroppingClaim? ==>
            && (Holds(s'.db, h.tx) <==> Holds(s.db, h.tx) && h.tx in s.db.openLeases)
            && id in s'.handlers && s'.handlers[id].pc.CachingReject?)
      && (h.pc.CachingReject? ==>
            && h.tx in s'.db.requests && s'.db.requests[h.tx].state.Rejected?
            && s'.db.requests[h.tx].response == Some(false) && id !in s'.handlers)
  {
    hide Reachable, Next, Apply, Resume, Fail, OnlyTx, TxOk, Conducts, Accounts, TxView, KnowsOrder, Holds,
      MayBeCharged;
    var h := s.handlers[id];
    LiveRecord(cfg, s, id);
    if h.pc.DroppingClaim? {
      WriteTurn(cfg, s, id, DropClaim, input, Acked);
      EarlyResumes(cfg, h, Apply(cfg, s.db, h.tx, DropClaim).1, input);
      PlainReplies(cfg, s.db, h.tx);
      DroppedClaim(cfg, s.db, h.tx);
    } else if h.pc.CachingReject? {
      WriteTurn(cfg, s, id, Complete(RequestState.Rejected), input, Acked);
      EarlyResumes(cfg, h, Apply(cfg, s.db, h.tx, Complete(RequestState.Rejected)).1, input);
      PlainReplies(cfg, s.db, h.tx);
      RejectedRequest(cfg, s.db, h.tx);
    }
  }

  lemma PlainReplies(cfg: Config, db: Db, t: TxId)
    ensures Apply(cfg, db, t, DropClaim).1.Yes? && Apply(cfg, db, t, Complete(RequestState.Rejected)).1.Yes?
  {
  }

  lemma RejectedRequest(cfg: Config, db: Db, t: TxId)
    requires t in db.requests
    ensures var after := Apply(cfg, db, t, Complete(RequestState.Rejected)).0;
      && t in after.requests
      && after.requests[t] == db.requests[t].(state := RequestState.Rejected, response := Some(false))
  {
  }

  // ---- arrivals ----------------------------------------------------------------------------------------

  /** What lets a transaction in: it is well formed, permitted and sponsored, of an address bound where it must be. */
  predicate MayEnter(cfg: Config, db: Db, e: Event)
    requires e.Arrive?
  {
    && e.wellFormed && e.permitted && IsSponsored(cfg, e.tx) && (cfg.boundAddress ==> IsBound(db, e.tx.owner, e.now))
  }

  /** What the gateway sponsors of a call, and of a plain transfer; it sponsors nothing else. */
  predicate IsSponsored(cfg: Config, t: TxId) {
    match t.contract
    case TriggerSmartContract => cfg.sponsorEnergy || cfg.sponsorBandwidth
    case TransferContract => cfg.sponsorBandwidth
    case OtherContract => false
  }

  predicate IsBound(db: Db, a: Address, now: int) {
    && a in db.bindings && db.bindings[a].enabled
    && (db.bindings[a].expiresAt.Some? ==> now < db.bindings[a].expiresAt.value)
  }

  lemma HandlersBringNone(cfg: Config, s: State, id: nat, input: Input, fault: Fault, t: TxId)
    requires Reachable(cfg, s) && t !in s.db.requests
    ensures t !in Next(cfg, s, Step(id, input, fault)).db.requests
  {
    hide Reachable, Next, Intent, Apply, Sense, SenseStep, Commit, WriteStep, Waits, TxView;
    StepOrNothing(cfg, s, id, input, fault);
    if s.up && id in s.handlers && !Waits(s, id) {
      var h := s.handlers[id];
      StepIs(cfg, s, id, input, fault);
      var intent := Intent(cfg, h, input);
      if intent.Some? {
        CommittedViews(cfg, s, h.tx, intent.value, fault);
        WriteStepIs(cfg, s, id, h, intent.value, input, fault);
        WritesBringNone(cfg, s.db, h.tx, intent.value, t);
      } else {
        SenseStepIs(cfg, s, id, h, input);
      }
    }
  }

  lemma WritesBringNone(cfg: Config, db: Db, u: TxId, w: Write, t: TxId)
    requires t !in db.requests
    ensures t !in Apply(cfg, db, u, w).0.requests
  {
    if RequestWrite(w) {
      hide G.TryAcquireAddressClaim, G.ReleaseAddressClaim;
      RequestWriteTouches(cfg, db, u, w);
      if u == t && w.RecordOutcome? {
        RecordingTakesNothing(db, t, w.accepted, t);
      } else if u == t && w.ReserveUnit? {
        ReserveQuotaEffect(db, t, cfg.provider, w.now);
      } else if u == t && (w.AcquireClaim? || w.DropClaim?) {
        ClaimEffect(db, t.owner, t);
      }
    } else {
      OrderKeepsBindings(cfg, db, u, w);
    }
  }

  lemma WorkersBringNone(s: State, e: Event, t: TxId)
    requires t !in s.db.requests
    ensures t !in SweepStep(s).db.requests && t !in CrashStep(s).db.requests
    ensures e.ListStale? ==> t !in ListStaleStep(s, e.found).db.requests
    ensures e.ListAwaiting? ==> t !in ListAwaitingStep(s, e.found).db.requests
    ensures e.Start? ==> t !in StartStep(s, e.fault).db.requests
  {
    hide Owned, Stale, Losses, G.Releasable;
  }

  lemma FinalityBringsNone(db: Db, t: TxId, success: bool)
    ensures G.MarkFinalized(db, t, success).requests.Keys == db.requests.Keys
  {
    hide G.Releasable;
  }

  lemma ExpiryBringsNone(db: Db, t: TxId)
    ensures G.ExpireRequest(db, t).requests.Keys == db.requests.Keys
  {
    hide G.Releasable;
  }

  lemma ConclusionsBringNone(s: State, e: Event, t: TxId)
    requires t !in s.db.requests
    ensures e.Finalize? ==> t !in ConcludeStep(s, e.tx, G.MarkFinalized(s.db, e.tx, e.success), e.fault).db.requests
    ensures e.Expire? ==> t !in ConcludeStep(s, e.tx, G.ExpireRequest(s.db, e.tx), e.fault).db.requests
  {
    hide G.MarkFinalized, G.ExpireRequest;
    if e.Finalize? {
      FinalityBringsNone(s.db, e.tx, e.success);
    } else if e.Expire? {
      ExpiryBringsNone(s.db, e.tx);
    }
  }

  lemma UsableIs(db: Db, a: Address, now: int)
    ensures Usable(db, a, now) <==> IsBound(db, a, now)
  {
  }

  lemma SponsorableIs(cfg: Config, t: TxId)
    ensures Sponsorable(cfg, t) <==> IsSponsored(cfg, t)
    ensures IsSponsored(cfg, t) ==> !t.contract.OtherContract?
  {
  }

  lemma OthersAreTurnedAway(cfg: Config, s: State, e: Event)
    requires e.Arrive? && !MayEnter(cfg, s.db, e)
    ensures ArriveStep(cfg, s, e.id, e.tx, e.wellFormed, e.permitted, e.now, e.fault).db == s.db
  {
    hide Guarded, NewHandler, Sponsorable, Usable, IsSponsored, IsBound, G.BeginRequest;
    UsableIs(s.db, e.tx.owner, e.now);
    SponsorableIs(cfg, e.tx);
  }

  lemma ArrivalInserts(cfg: Config, s: State, e: Event)
    requires e.Arrive?
    ensures var db := ArriveStep(cfg, s, e.id, e.tx, e.wellFormed, e.permitted, e.now, e.fault).db;
      db == s.db || db == G.BeginRequest(s.db, e.tx)
  {
    hide Guarded, NewHandler, Sponsorable, Usable, G.BeginRequest;
  }

  lemma ArrivalBringsItself(cfg: Config, s: State, e: Event, t: TxId)
    requires e.Arrive? && t !in s.db.requests && t != e.tx
    ensures t !in ArriveStep(cfg, s, e.id, e.tx, e.wellFormed, e.permitted, e.now, e.fault).db.requests
  {
    hide ArriveStep;
    ArrivalInserts(cfg, s, e);
  }

  lemma ArrivalsBring(cfg: Config, s: State, e: Event, t: TxId)
    requires e.Arrive? && t !in s.db.requests
    ensures var s' := ArriveStep(cfg, s, e.id, e.tx, e.wellFormed, e.permitted, e.now, e.fault);
      t in s'.db.requests ==> e.tx == t && MayEnter(cfg, s.db, e)
  {
    hide ArriveStep, MayEnter;
    if t != e.tx {
      ArrivalBringsItself(cfg, s, e, t);
    } else if !MayEnter(cfg, s.db, e) {
      OthersAreTurnedAway(cfg, s, e);
    }
  }

  /** Only what may enter gets a request row. */
  lemma OnlyAdmittedEnter(cfg: Config, s: State, e: Event, t: TxId)
    requires Reachable(cfg, s) && t !in s.db.requests && t in Next(cfg, s, e).db.requests
    ensures e.Arrive? && e.tx == t && MayEnter(cfg, s.db, e)
  {
    hide Reachable, MayEnter, HandlerStep, ArriveStep, SweepStep, ListStaleStep, ListAwaitingStep, ConcludeStep,
      PutBindingStep, ResetBindingStep, PutProviderStep, MoveLeaseStep, StartStep, CrashStep, RecoverStep,
      G.MarkFinalized, G.ExpireRequest, Waits;
    WorkersBringNone(s, e, t);
    ConclusionsBringNone(s, e, t);
    match e
    case Arrive(_, _, _, _, _, _) => ArrivalsBring(cfg, s, e, t);
    case Step(id, input, fault) => HandlersBringNone(cfg, s, id, input, fault, t);
    case Recover(u, accepted, fault) => RecoveryTakesNothing(cfg, s, u, accepted, fault, t);
    case _ => SettingsRecordNothing(cfg, s, e);
  }

  /** And it does, with a handler at work on it, when the gateway is up and the insertion is acknowledged. */
  lemma AdmittedEnters(cfg: Config, s: State, e: Event)
    requires e.Arrive? && e.fault.Acked? && s.up && e.id !in s.handlers && e.tx !in s.db.requests
    requires MayEnter(cfg, s.db, e)
    requires e.tx.contract.TriggerSmartContract? && !cfg.ownerEnergyBurn ==> cfg.sponsorEnergy
    ensures var s' := Next(cfg, s, e);
      && s'.db == s.db.(requests := s.db.requests[e.tx := Request(Received, false, None)])
      && s'.handlers == s.handlers[e.id := NewHandler(e.tx)] && s'.relayed == s.relayed
  {
  }

  /** What is not sponsored, or not permitted where the policy lets it pass, is passed through, and nothing else is. */
  lemma PassedThroughIff(cfg: Config, s: State, e: Event)
    requires e.Arrive?
    ensures var s' := Next(cfg, s, e);
      var allowed := e.permitted && !e.tx.contract.OtherContract?;
      && (s'.relayed == s.relayed || (s'.relayed == s.relayed + [e.tx] && s'.db == s.db && s'.handlers == s.handlers))
      && (s'.relayed != s.relayed <==>
            && s.up && e.id !in s.handlers && e.wellFormed
            && (cfg.boundAddress ==> IsBound(s.db, e.tx.owner, e.now))
            && (if allowed then !IsSponsored(cfg, e.tx) else cfg.forwardUnsupported)
            && (e.tx.contract.TriggerSmartContract? && !cfg.ownerEnergyBurn ==> allowed && cfg.sponsorEnergy))
  {
    hide NewHandler, Sponsorable, Usable, IsSponsored, IsBound, G.BeginRequest;
    UsableIs(s.db, e.tx.owner, e.now);
    SponsorableIs(cfg, e.tx);
    assert |s.relayed + [e.tx]| > |s.relayed|;
  }

  /** Setting a binding changes what was given and keeps the rest, the counters above all; a new one starts at zero. */
  lemma BindingSettings(cfg: Config, s: State, a: Address, max: Option<Option<nat>>, expiresAt: Option<Option<int>>,
      enabled: Option<bool>)
    ensures var s' := Next(cfg, s, PutBinding(a, max, expiresAt, enabled));
      && s'.db == s.db.(bindings := s'.db.bindings) && s'.db.bindings.Keys == s.db.bindings.Keys + {a}
      && (forall b :: b in s.db.bindings && b != a ==> s'.db.bindings[b] == s.db.bindings[b])
      && var row := s'.db.bindings[a];
      && (max.Some? ==> row.max == max.value) && (expiresAt.Some? ==> row.expiresAt == expiresAt.value)
      && (enabled.Some? ==> row.enabled == enabled.value)
      && (a in s.db.bindings ==>
            var was := s.db.bindings[a];
            && row.used == was.used && row.reserved == was.reserved
            && (max.None? ==> row.max == was.max) && (expiresAt.None? ==> row.expiresAt == was.expiresAt)
            && (enabled.None? ==> row.enabled == was.enabled))
      && (a !in s.db.bindings ==>
            && row.used == 0 && row.reserved == 0 && (max.None? ==> row.max.None?)
            && (expiresAt.None? ==> row.expiresAt.None?) && (enabled.None? ==> row.enabled))
  {
    hide Raise;
  }

  /** A reset that is allowed clears the used counter, sets the limit if one is given, and changes nothing else. */
  lemma ResetSettings(cfg: Config, s: State, a: Address, max: Option<Option<nat>>)
    ensures var s' := Next(cfg, s, ResetBinding(a, max));
      s'.db == s.db || (
        && a in s.db.bindings
        && s'.db == s.db.(bindings := s.db.bindings[a := s.db.bindings[a].(
             used := 0, max := if max.Some? then max.value else s.db.bindings[a].max)]))
  {
    hide Raise, G.HasOpenPaidProviderActivity;
  }

  // ---- attempts ------------------------------------------------------------------------------------------

  lemma WritesStart(cfg: Config, db: Db, u: TxId, w: Write, t: TxId, p: ProviderId)
    requires (t, p) !in db.ledger && (t, p) in Apply(cfg, db, u, w).0.ledger
    ensures w.StartAttempt? && u == t && w.provider == p && P.Eligible(db, t, p)
    ensures P.Affordable(db, cfg.limits, p, w.amount, w.day)
  {
    hide P.Affordable;
    if w.FinishAttempt? {
      TransitionKeys(db, u, w.provider, w.outcome);
      assert false;
    } else if !w.StartAttempt? {
      OtherWritesKeepLedger(cfg, db, u, w);
      assert false;
    }
  }

  lemma TransitionKeys(db: Db, t: TxId, p: ProviderId, outcome: OrderState)
    ensures P.TransitionAttempt(db, t, p, outcome).0.ledger.Keys == db.ledger.Keys
  {
  }

  lemma AttemptWrites(cfg: Config, h: Handler, input: Input)
    requires Intent(cfg, h, input).Some? && Intent(cfg, h, input).value.StartAttempt?
    ensures h.pc.Attempting? && input.Budgeted? && P.ValidEnergyAmount(h.pc.amount)
    ensures Intent(cfg, h, input) == Some(StartAttempt(h.pc.provider, h.pc.amount, input.day))
  {
  }

  lemma OthersStartNone(cfg: Config, s: State, e: Event)
    requires !e.Step?
    ensures Next(cfg, s, e).db.ledger.Keys == s.db.ledger.Keys
  {
    if e.Recover? {
      RecoveryTakesNothing(cfg, s, e.tx, e.accepted, e.fault, e.tx);
    } else if e.Start? {
    } else {
      hide Next;
      SameLedger(cfg, s, e);
    }
  }

  /**
   * A budget row is only ever opened by a handler at its attempt, with a provider that is enabled at that moment
   * and has not been tried for the order, for an unsold order, and within the caps and budgets of both.
   */
  lemma AttemptsAreAllowed(cfg: Config, s: State, e: Event, t: TxId, p: ProviderId)
    requires (t, p) !in s.db.ledger && (t, p) in Next(cfg, s, e).db.ledger
    ensures e.Step? && e.id in s.handlers && s.handlers[e.id].tx == t && s.handlers[e.id].pc.Attempting?
    ensures s.handlers[e.id].pc.provider == p && s.handlers[e.id].pc.amount >= 1 && e.input.Budgeted?
    ensures p in s.db.providers && s.db.providers[p].enabled
    ensures t in s.db.orders && !Attempted(s.db.orders[t], p)
    ensures P.Affordable(s.db, cfg.limits, p, s.handlers[e.id].pc.amount, e.input.day)
  {
    hide Next, Intent, Apply, Sense, SenseStep, Commit, WriteStep, Waits, TxView, P.Affordable;
    if e.Step? {
      StepOrNothing(cfg, s, e.id, e.input, e.fault);
      assert s.up && e.id in s.handlers && !Waits(s, e.id);
      var h := s.handlers[e.id];
      StepIs(cfg, s, e.id, e.input, e.fault);
      var intent := Intent(cfg, h, e.input);
      SenseStepIs(cfg, s, e.id, h, e.input);
      assert intent.Some?;
      CommittedViews(cfg, s, h.tx, intent.value, e.fault);
      WriteStepIs(cfg, s, e.id, h, intent.value, e.input, e.fault);
      WritesStart(cfg, s.db, h.tx, intent.value, t, p);
      AttemptWrites(cfg, h, e.input);
    } else {
      OthersStartNone(cfg, s, e);
      assert false;
    }
  }

  lemma OffersSensed(cfg: Config, db: Db, trace: Trace, h: Handler, listing: seq<ProviderId>)
    requires h.pc.Listing? && ListsEnabled(db.providers, listing) && listing != []
    ensures Intent(cfg, h, Listed(listing)).None? && forall i :: 0 <= i < |listing| ==> listing[i] in db.providers
    ensures Sense(cfg, db, trace, h, Listed(listing)) ==
      Moved(trace, Some(h.(pc := Choosing(h.pc.plan, Offers(cfg, db.providers, listing, h.pc.plan), false))))
  {
    hide Offers;
  }

  /**
   * The providers are tried as they are listed: enabled ones only, in the order of their priorities, each for the
   * package its own adapter resolves for the estimate and the quoted minimum.
   */
  lemma ProvidersAreOfferedInOrder(cfg: Config, s: State, id: nat, listing: seq<ProviderId>)
    requires s.up && id in s.handlers && s.handlers[id].pc.Listing?
    requires ListsEnabled(s.db.providers, listing) && listing != []
    ensures forall i :: 0 <= i < |listing| ==> listing[i] in s.db.providers && s.db.providers[listing[i]].enabled
    ensures forall i, j :: 0 <= i < j < |listing| ==>
      s.db.providers[listing[i]].priority <= s.db.providers[listing[j]].priority
    ensures var s', plan := Next(cfg, s, Step(id, Listed(listing), Acked)), s.handlers[id].pc.plan;
      && id in s'.handlers && s'.handlers[id].pc.Choosing? && s'.handlers[id].pc.plan == plan
      && |s'.handlers[id].pc.rest| == |listing|
      && forall i :: 0 <= i < |listing| ==>
           s'.handlers[id].pc.rest[i] == Offer(listing[i],
             Offered(cfg.registry, s.db.providers[listing[i]].adapter, plan.requested, Some(plan.minimum)))
  {
    hide Next, Sense, Intent, Waits;
    InsideWaitsNot(s, id);
    OffersSensed(cfg, s.db, TraceOf(s, s.handlers[id].tx), s.handlers[id], listing);
    SenseTurn(cfg, s, id, Listed(listing), TraceOf(s, s.handlers[id].tx),
      s.handlers[id].(pc := Choosing(s.handlers[id].pc.plan,
        Offers(cfg, s.db.providers, listing, s.handlers[id].pc.plan), false)));
  }

  lemma HeadSensed(cfg: Config, db: Db, trace: Trace, h: Handler)
    requires h.pc.Choosing? && h.pc.rest != []
    ensures Intent(cfg, h, NoInput).None?
    ensures var (head, rest) := (h.pc.rest[0], h.pc.rest[1..]);
      Sense(cfg, db, trace, h, NoInput) == Moved(trace, Some(h.(pc :=
        if head.amount.None? then Choosing(h.pc.plan, rest, h.pc.rejected)
        else Attempting(h.pc.plan, head.provider, head.amount.value, rest, h.pc.rejected))))
  {
  }

  /** The first provider with a package is the next one tried, for that package. */
  lemma FirstOfferIsTried(cfg: Config, s: State, id: nat)
    requires s.up && id in s.handlers && s.handlers[id].pc.Choosing? && s.handlers[id].pc.rest != []
    ensures var s', pc := Next(cfg, s, Step(id, NoInput, Acked)), s.handlers[id].pc;
      && id in s'.handlers
      && (pc.rest[0].amount.Some? ==>
            s'.handlers[id].pc == Attempting(pc.plan, pc.rest[0].provider, pc.rest[0].amount.value, pc.rest[1..],
              pc.rejected))
      && (pc.rest[0].amount.None? ==> s'.handlers[id].pc == Choosing(pc.plan, pc.rest[1..], pc.rejected))
  {
    hide Next, Sense, Intent, Waits;
    var h := s.handlers[id];
    InsideWaitsNot(s, id);
    HeadSensed(cfg, s.db, TraceOf(s, h.tx), h);
    SenseTurn(cfg, s, id, NoInput, TraceOf(s, h.tx), h.(pc :=
      if h.pc.rest[0].amount.None? then Choosing(h.pc.plan, h.pc.rest[1..], h.pc.rejected)
      else Attempting(h.pc.plan, h.pc.rest[0].provider, h.pc.rest[0].amount.value, h.pc.rest[1..], h.pc.rejected)));
  }

  /** A new order is for the estimate, goes to the owner, and is with no provider yet. */
  lemma OrderIsOpened(cfg: Config, s: State, id: nat, input: Input)
    requires Reachable(cfg, s) && s.up && id in s.handlers && !s.handlers[id].late && s.handlers[id].pc.Opening?
    requires s.handlers[id].pc.plan.requested >= 0
    ensures var s', t, plan := Next(cfg, s, Step(id, input, Acked)), s.handlers[id].tx, s.handlers[id].pc.plan;
      && t !in s.db.orders && t in s'.db.orders && s'.db.ledger == s.db.ledger
      && s'.db.orders[t].receiver == t.owner && s'.db.orders[t].requested == plan.requested == s.handlers[id].estimate
      && s'.db.orders[t].provider.None? && s'.db.orders[t].state.Pending?
      && id in s'.handlers && s'.handlers[id].pc == Listing(plan)
  {
    hide Reachable, Next, OnlyTx, TxOk, HandlerOk, Accounts, AnswerKnown, FlagsFit, FailureFits, ProgressFits, TxView,
      KnowsOrder, Catch, Duplicate;
    var h := s.handlers[id];
    LiveRecord(cfg, s, id);
    OrderStandsAsKnown(cfg, s, id);
    WriteTurn(cfg, s, id, Write.OpenOrder(h.pc.plan.requested), input, Acked);
  }

  // ---- the next provider ------------------------------------------------------------------------------------

  /** After an explicit rejection the handler goes on with the providers that are left. */
  lemma RejectionTriesNext(cfg: Config, s: State, id: nat)
    requires Reachable(cfg, s) && s.up && id in s.handlers && !s.handlers[id].late && s.handlers[id].pc.Calling?
    ensures var s1 := Next(cfg, s, Step(id, Answered(SaidNo), Acked));
      var s2, pc := Next(cfg, s1, Step(id, NoInput, Acked)), s.handlers[id].pc;
      id in s2.handlers && s2.handlers[id].pc == Choosing(pc.plan, pc.rest, true)
  {
    hide Reachable, Next, Apply, Resume, Placed, P.ReservationOpen, Waits, OnlyTx, Intent, Sense;
    var h := s.handlers[id];
    var t, p := h.tx, h.pc.provider;
    CallingFacts(cfg, s, id);
    var trace := TraceOf(s, t);
    var last := |trace.calls| - 1;
    var h' := h.(pc := AfterAnswer(h.pc.plan, p, h.pc.rest, SaidNo));
    AnswerSensed(cfg, s.db, trace, h, SaidNo);
    SenseTurn(cfg, s, id, Answered(SaidNo),
      trace.(calls := trace.calls[last := trace.calls[last].(answer := SaidNo)]), h');
    var s1 := Next(cfg, s, Step(id, Answered(SaidNo), Acked));
    OutcomeIntent(cfg, h, SaidNo);
    WriteTurn(cfg, s1, id, FinishAttempt(p, OrderState.Rejected), NoInput, Acked);
    RejectionApplies(cfg, s.db, t, p);
    RefusedLeads(cfg, h', Yes, NoInput);
  }

  /** So it does after a provider that has no room or is not there any more: the attempt is skipped. */
  lemma RefusedAttemptTriesNext(cfg: Config, s: State, id: nat, day: Day)
    requires Reachable(cfg, s) && s.up && id in s.handlers && !s.handlers[id].late && s.handlers[id].pc.Attempting?
    requires P.ValidEnergyAmount(s.handlers[id].pc.amount)
    requires var h := s.handlers[id];
      !P.StartAttempt(s.db, cfg.limits, h.tx, h.pc.provider, h.pc.amount, day).1
    ensures var s1 := Next(cfg, s, Step(id, Budgeted(day, true), Acked));
      var s2, pc := Next(cfg, s1, Step(id, NoInput, Acked)), s.handlers[id].pc;
      s2.db == s.db && id in s2.handlers && s2.handlers[id].pc == Choosing(pc.plan, pc.rest, pc.rejected)
  {
    hide Reachable, Next, Resume, Waits, OnlyTx, Sense, P.StartAttempt, Unsold;
    var h := s.handlers[id];
    var input := Budgeted(day, true);
    OrderStandsAsKnown(cfg, s, id);
    AttemptPlaces(cfg, s.db, h.tx, h.pc.provider, h.pc.amount, day);
    WriteTurn(cfg, s, id, StartAttempt(h.pc.provider, h.pc.amount, day), input, Acked);
    AttemptLeads(cfg, h, No, input);
    var s1 := Next(cfg, s, Step(id, input, Acked));
    assert s1.up by { StepsKeepUp(cfg, s, id, input, Acked); }
    var h1 := h.(pc := Rereading(h.pc.plan, h.pc.rest, h.pc.rejected));
    RereadOn(cfg, s1.db, TraceOf(s1, h.tx), h1);
    InsideWaitsNot(s1, id);
    SenseTurn(cfg, s1, id, NoInput, TraceOf(s1, h.tx), h1.(pc := Choosing(h.pc.plan, h.pc.rest, h.pc.rejected)));
  }

  lemma StepsKeepUp(cfg: Config, s: State, id: nat, input: Input, fault: Fault)
    ensures Next(cfg, s, Step(id, input, fault)).up == s.up
  {
    hide Apply, Observe, Sense, AfterWrite, Intent, UnderPreparation, Waits;
  }

  lemma RereadOn(cfg: Config, db: Db, trace: Trace, h: Handler)
    requires h.pc.Rereading? && Unsold(OrderIn(db, h.tx))
    ensures Intent(cfg, h, NoInput).None?
    ensures Sense(cfg, db, trace, h, NoInput) ==
      Moved(trace, Some(h.(pc := Choosing(h.pc.plan, h.pc.rest, h.pc.rejected))))
  {
    hide Catch, Duplicate;
    assert h.tx in db.orders && (db.orders[h.tx].state.Pending? || db.orders[h.tx].state.Rejected?);
  }

  /** And after a provider whose key does not decrypt: its attempt is rejected without a call. */
  lemma UnreadableKeyTriesNext(cfg: Config, s: State, id: nat, day: Day)
    requires Reachable(cfg, s) && s.up && id in s.handlers && !s.handlers[id].late && s.handlers[id].pc.Attempting?
    requires P.ValidEnergyAmount(s.handlers[id].pc.amount)
    requires var h := s.handlers[id];
      P.StartAttempt(s.db, cfg.limits, h.tx, h.pc.provider, h.pc.amount, day).1
    ensures var s1 := Next(cfg, s, Step(id, Budgeted(day, false), Acked));
      var s2, pc, t := Next(cfg, s1, Step(id, NoInput, Acked)), s.handlers[id].pc, s.handlers[id].tx;
      && id in s2.handlers && s2.handlers[id].pc == Choosing(pc.plan, pc.rest, true)
      && TraceOf(s2, t).calls == TraceOf(s, t).calls
      && t in s2.db.orders && s2.db.orders[t].state == OrderState.Rejected
  {
    hide Reachable, Next, P.StartAttempt, P.ReservationOpen, Placed;
    var h := s.handlers[id];
    var s1 := Next(cfg, s, Step(id, Budgeted(day, false), Acked));
    UnreadableKeyRefuses(cfg, s, id, day);
    InvHolds(cfg, s1);
    RefusedIsReserved(cfg, s1, h.tx, h.pc.provider) by { hide Inv; }
    RefusalTriesNext(cfg, s1, id);
  }

  lemma UnreadableKeyRefuses(cfg: Config, s: State, id: nat, day: Day)
    requires Reachable(cfg, s) && s.up && id in s.handlers && !s.handlers[id].late && s.handlers[id].pc.Attempting?
    requires P.ValidEnergyAmount(s.handlers[id].pc.amount)
    requires var h := s.handlers[id];
      P.StartAttempt(s.db, cfg.limits, h.tx, h.pc.provider, h.pc.amount, day).1
    ensures var s', h := Next(cfg, s, Step(id, Budgeted(day, false), Acked)), s.handlers[id];
      && Reachable(cfg, s') && s'.up && id in s'.handlers
      && s'.handlers[id] == h.(pc := Refusing(h.pc.plan, h.pc.provider, h.pc.rest, false))
      && TraceOf(s', h.tx).calls == TraceOf(s, h.tx).calls && Placed(OrderIn(s'.db, h.tx), h.pc.provider)
  {
    hide Reachable, Next, Resume, OnlyTx, P.StartAttempt, Unsold, Placed, Apply, Observe, Intent;
    var h := s.handlers[id];
    var input := Budgeted(day, false);
    var w := StartAttempt(h.pc.provider, h.pc.amount, day);
    assert Intent(cfg, h, input) == Some(w) by { AttemptIntends(cfg, h, day); }
    OrderStandsAsKnown(cfg, s, id);
    AttemptPlaces(cfg, s.db, h.tx, h.pc.provider, h.pc.amount, day);
    AttemptReply(cfg, s.db, h.tx, h.pc.provider, h.pc.amount, day);
    WriteTurn(cfg, s, id, w, input, Acked);
    AttemptLeads(cfg, h, Yes, input);
    StepsKeepUp(cfg, s, id, input, Acked);
    CallsStay(s, Next(cfg, s, Step(id, input, Acked)), h.tx, w, Acked);
    NextReachable(cfg, s, Step(id, input, Acked));
  }

  lemma AttemptIntends(cfg: Config, h: Handler, day: Day)
    requires h.pc.Attempting? && P.ValidEnergyAmount(h.pc.amount)
    ensures Intent(cfg, h, Budgeted(day, false)) == Some(StartAttempt(h.pc.provider, h.pc.amount, day))
  {
  }

  lemma RefusalTriesNext(cfg: Config, s: State, id: nat)
    requires s.up && id in s.handlers && !s.handlers[id].late && s.handlers[id].pc.Refusing? && !s.handlers[id].pc.final
    requires var h := s.handlers[id];
      Placed(OrderIn(s.db, h.tx), h.pc.provider) && P.ReservationOpen(s.db, h.tx, h.pc.provider)
    ensures var s', h := Next(cfg, s, Step(id, NoInput, Acked)), s.handlers[id];
      && id in s'.handlers && s'.handlers[id].pc == Choosing(h.pc.plan, h.pc.rest, true)
      && TraceOf(s', h.tx).calls == TraceOf(s, h.tx).calls
      && h.tx in s'.db.orders && s'.db.orders[h.tx].state == OrderState.Rejected
  {
    hide Next, Resume, OnlyTx, Placed, P.ReservationOpen, Apply, Observe;
    var h := s.handlers[id];
    var w := FinishAttempt(h.pc.provider, OrderState.Rejected);
    WriteTurn(cfg, s, id, w, NoInput, Acked);
    RejectionApplies(cfg, s.db, h.tx, h.pc.provider);
    AttemptRecorded(cfg, s.db, h.tx, h.pc.provider, OrderState.Rejected);
    RefusedLeads(cfg, h, Yes, NoInput);
    CallsStay(s, Next(cfg, s, Step(id, NoInput, Acked)), h.tx, w, Acked);
  }

  lemma AttemptReply(cfg: Config, db: Db, t: TxId, p: ProviderId, amount: nat, day: Day)
    ensures Apply(cfg, db, t, StartAttempt(p, amount, day)).1 ==
      if P.StartAttempt(db, cfg.limits, t, p, amount, day).1 then Yes else No
  {
    hide P.StartAttempt;
  }
}
