/**
 * Two runs that the documentation rules out. In the first, two transactions of one address are ordered for at
 * the same time: a handler is refused the claim, and its discard is carried out although the handler sees it
 * fail; it then marks as failed the request row that a retry of the same transaction has just made, and the
 * clean-up of finished requests takes the retry's claim away. In the second, a unit is given back although no
 * provider has rejected: the attempt was started, but the handler saw that write fail.
 */
module Counterexamples {
  import opened Options
  import opened Schema
  import opened EnergyPackages
  import opened Gateway
  import opened TxInvariant
  import opened Claims
  import opened StepLemmas
  import opened Invariant
  import opened Safety
  import opened History
  import opened Prepare
  import opened Refunds
  import opened Continuations
  import opened LostClaim
  import G = GatewayRepository
  import P = ProviderRepository
  import ResourceMath

  const HOME: Address := 1
  const HOLDER := TxId(HOME, TriggerSmartContract, 0)
  const RETRIED := TxId(HOME, TriggerSmartContract, 1)

  const LIMITS := Limits(1000, 10, 1000)
  const ROW := Provider(true, 0, 0, Limits(P.MAX_ENERGY_ORDER_AMOUNT, 10, 1000))
  const SELLER := Adapter(_ => Some(100), None)
  const CFG := Config(true, true, true, false, false, false, false, 10_000, LIMITS, map[0 := SELLER])

  const STORY: seq<Event> := [
    Start(Acked),
    PutProvider(0, ROW),
    PutBinding(HOME, Some(Some(10)), None, Some(true)),
    // the holder takes the claim
    Arrive(0, HOLDER, true, true, 0, Acked),
    Step(0, NoInput, Acked),
    // the first try of the other transaction is refused, and its discard goes unacknowledged
    Arrive(1, RETRIED, true, true, 0, Acked),
    Step(1, NoInput, Acked),
    Step(1, NoInput, Unacked),
    // the holder fails to reserve a unit and gives the claim up
    Step(0, Clock(0), NotApplied),
    Step(0, NoInput, Acked),
    // the retry takes the claim and a unit
    Arrive(2, RETRIED, true, true, 0, Acked),
    Step(2, NoInput, Acked),
    Step(2, Clock(0), Acked)
  ]

  ghost function At(n: nat): State
    requires n <= |STORY|
  {
    Run(CFG, STORY[..n])
  }

  lemma Turn(n: nat)
    requires n < |STORY|
    ensures At(n + 1) == Next(CFG, At(n), STORY[n])
  {
    var events := STORY[..n + 1];
    assert events[..|events| - 1] == STORY[..n] && events[|events| - 1] == STORY[n];
  }

  // ---- what is on stage -----------------------------------------------------------------------

  function Tables(reserved: nat, requests: map<TxId, Request>, claims: map<Address, TxId>, orders: map<TxId, Order>,
      ledger: Ledger): Db {
    Db(map[HOME := Binding(true, None, Some(10), 0, reserved)], requests, claims, orders, ledger, map[0 := ROW], {})
  }

  ghost predicate Scene(n: nat, db: Db, handlers: map<nat, Handler>)
    requires n <= |STORY|
  {
    At(n).up && At(n).db == db && At(n).handlers == handlers
  }

  function Put(handlers: map<nat, Handler>, id: nat, next: Option<Handler>): map<nat, Handler> {
    if next.Some? then handlers[id := next.value] else handlers - {id}
  }

  /** A handler's write that goes as it should. */
  lemma Plays(n: nat, db: Db, hs: map<nat, Handler>, id: nat, input: Input, w: Write)
    requires n < |STORY| && STORY[n] == Step(id, input, Acked) && Scene(n, db, hs)
    requires id in hs && !hs[id].late && Intent(CFG, hs[id], input) == Some(w)
    requires !Apply(CFG, db, hs[id].tx, w).1.Thrown?
    ensures var (after, reply) := Apply(CFG, db, hs[id].tx, w);
      Scene(n + 1, after, Put(hs, id, Resume(CFG, hs[id], reply, input)))
  {
    hide Apply, Resume, Fail, Intent, Run, Observe, Waits;
    Turn(n);
    WriterWaitsNot(CFG, At(n), id, input);
  }

  /** A discard that is carried out although it throws. */
  lemma Unseen(n: nat, db: Db, hs: map<nat, Handler>, id: nat)
    requires n < |STORY| && STORY[n] == Step(id, NoInput, Unacked) && Scene(n, db, hs)
    requires id in hs && !hs[id].late && hs[id].pc.Discarding?
    ensures Scene(n + 1, Apply(CFG, db, hs[id].tx, DiscardRow).0, hs[id := Early(hs[id].tx, CatchFailing, false,
      false).(late := true)])
      <== hs[id] == Early(hs[id].tx, Discarding, false, false)
  {
    hide Apply, Resume, Run, Observe;
    Turn(n);
  }

  lemma Enters(n: nat, db: Db, hs: map<nat, Handler>, id: nat, t: TxId)
    requires n < |STORY| && STORY[n] == Arrive(id, t, true, true, 0, Acked) && Scene(n, db, hs)
    requires id !in hs && t !in db.requests && t.owner == HOME && t.contract.TriggerSmartContract?
    requires HOME in db.bindings && db.bindings[HOME].enabled && db.bindings[HOME].expiresAt.None?
    ensures Scene(n + 1, db.(requests := db.requests[t := Request(Received, false, None)]), hs[id := NewHandler(t)])
  {
    hide Run;
    Turn(n);
  }

  // The number in a lemma's name is how many events have happened by then.

  // ---- up to the retry's estimate ---------------------------------------------------------------------

  const FRESH := Request(Received, false, None)
  const HELD := Request(QuotaReserved, true, None)

  /** A handler before its estimate. */
  function Early(t: TxId, pc: Pc, claimed: bool, quota: bool): Handler {
    Handler(t, pc, claimed, false, quota, false, false, 0, None, 0, false)
  }

  const LATE := Handler(RETRIED, CatchFailing, false, false, false, false, false, 0, None, 0, true)

  lemma Begins1()
    ensures |STORY| == 13 && Scene(1, Init().db, map[])
  {
    hide HandlerStep, ArriveStep;
    assert STORY[..0] == [];
    assert At(0) == Init();
    Turn(0);
    assert P.RecoverInterruptedOrders(Init().db) == Init().db;
  }

  lemma Settings3()
    ensures Scene(3, Tables(0, map[], map[], map[], map[]), map[])
  {
    hide Run, HandlerStep, ArriveStep;
    Begins1();
    Turn(1);
    Turn(2);
  }

  /** A handler takes the free claim of the address. */
  lemma Takes(n: nat, db: Db, hs: map<nat, Handler>, id: nat, t: TxId)
    requires n < |STORY| && STORY[n] == Step(id, NoInput, Acked) && Scene(n, db, hs)
    requires id in hs && hs[id] == Early(t, Claiming, false, false) && t.owner == HOME && t in db.requests
    requires db.claims == map[] && !G.HasOpenOrder(db, HOME)
    ensures Scene(n + 1, db.(claims := map[HOME := t]), hs[id := Early(t, Reserving, true, false)])
  {
    Plays(n, db, hs, id, NoInput, AcquireClaim);
    hide Run;
    assert db.claims[HOME := t] == map[HOME := t];
  }

  lemma ReserveGives(db: Db, t: TxId, used: nat)
    requires t.owner == HOME && t in db.requests
    requires db.bindings == map[HOME := Binding(true, None, Some(10), 0, used)] && used < 10
    ensures Apply(CFG, db, t, ReserveUnit(0)) ==
      (db.(bindings := map[HOME := Binding(true, None, Some(10), 0, used + 1)],
           requests := db.requests[t := db.requests[t].(state := QuotaReserved, quotaReserved := true)]), Yes)
  {
    assert db.bindings[HOME := Binding(true, None, Some(10), 0, used + 1)] == map[HOME := Binding(true, None,
      Some(10), 0, used + 1)];
  }

  /** A handler reserves a unit of the address. */
  lemma Reserves(n: nat, db: Db, hs: map<nat, Handler>, id: nat, t: TxId, used: nat)
    requires n < |STORY| && STORY[n] == Step(id, Clock(0), Acked) && Scene(n, db, hs)
    requires id in hs && hs[id] == Early(t, Reserving, true, false) && t.owner == HOME && t in db.requests
    requires db.bindings == map[HOME := Binding(true, None, Some(10), 0, used)] && used < 10
    ensures Scene(n + 1,
      db.(bindings := map[HOME := Binding(true, None, Some(10), 0, used + 1)],
          requests := db.requests[t := db.requests[t].(state := QuotaReserved, quotaReserved := true)]),
      hs[id := Early(t, Estimating, true, true)])
  {
    hide Run;
    var bindings := map[HOME := Binding(true, None, Some(10), 0, used + 1)];
    assert db.bindings[HOME := Binding(true, None, Some(10), 0, used + 1)] == bindings;
    ReserveGives(db, t, used);
    hide Apply;
    Plays(n, db, hs, id, Clock(0), ReserveUnit(0));
  }

  lemma HolderClaims5()
    ensures Scene(5, Tables(0, map[HOLDER := FRESH], map[HOME := HOLDER], map[], map[]), map[0 := Early(HOLDER,
      Reserving, true, false)])
  {
    hide Run, HandlerStep, ArriveStep;
    Begins1();
    Settings3();
    Enters(3, Tables(0, map[], map[], map[], map[]), map[], 0, HOLDER);
    var db := Tables(0, map[HOLDER := FRESH], map[], map[], map[]);
    assert map[][HOLDER := FRESH] == map[HOLDER := FRESH];
    assert map[][0 := NewHandler(HOLDER)] == map[0 := NewHandler(HOLDER)];
    Takes(4, db, map[0 := NewHandler(HOLDER)], 0, HOLDER);
    assert map[0 := NewHandler(HOLDER)][0 := Early(HOLDER, Reserving, true, false)] == map[0 := Early(HOLDER,
      Reserving, true, false)];
  }

  lemma FirstTryRefused7()
    ensures Scene(7, Tables(0, map[HOLDER := FRESH, RETRIED := FRESH], map[HOME := HOLDER], map[], map[]),
      map[0 := Early(HOLDER, Reserving, true, false), 1 := Early(RETRIED, Discarding, false, false)])
  {
    hide Run;
    HolderClaims5();
    var db := Tables(0, map[HOLDER := FRESH], map[HOME := HOLDER], map[], map[]);
    Enters(5, db, map[0 := Early(HOLDER, Reserving, true, false)], 1, RETRIED);
    var both := db.(requests := map[HOLDER := FRESH, RETRIED := FRESH]);
    var hs := map[0 := Early(HOLDER, Reserving, true, false), 1 := Early(RETRIED, Claiming, false, false)];
    assert db.requests[RETRIED := FRESH] == both.requests;
    assert map[0 := Early(HOLDER, Reserving, true, false)][1 := NewHandler(RETRIED)] == hs;
    Plays(6, both, hs, 1, NoInput, AcquireClaim);
  }

  lemma DiscardUnseen8()
    ensures Scene(8, Tables(0, map[HOLDER := FRESH], map[HOME := HOLDER], map[], map[]),
      map[0 := Early(HOLDER, Reserving, true, false), 1 := LATE])
  {
    hide Run;
    FirstTryRefused7();
    var db := Tables(0, map[HOLDER := FRESH, RETRIED := FRESH], map[HOME := HOLDER], map[], map[]);
    var hs := map[0 := Early(HOLDER, Reserving, true, false), 1 := Early(RETRIED, Discarding, false, false)];
    Unseen(7, db, hs, 1);
    assert db.requests - {RETRIED} == map[HOLDER := FRESH];
    assert hs[1 := LATE] == map[0 := Early(HOLDER, Reserving, true, false), 1 := LATE];
  }

  lemma HolderFails9()
    ensures Scene(9, Tables(0, map[HOLDER := FRESH], map[HOME := HOLDER], map[], map[]),
      map[0 := Early(HOLDER, CatchDropping, true, false), 1 := LATE])
  {
    hide Run;
    DiscardUnseen8();
    Turn(8);
    assert At(9).handlers == map[0 := Early(HOLDER, CatchDropping, true, false), 1 := LATE];
  }

  lemma ClaimIsFree10()
    ensures Scene(10, Tables(0, map[HOLDER := FRESH], map[], map[], map[]),
      map[0 := Early(HOLDER, CatchFailing, false, false), 1 := LATE])
  {
    hide Run;
    HolderFails9();
    var db := Tables(0, map[HOLDER := FRESH], map[HOME := HOLDER], map[], map[]);
    var hs := map[0 := Early(HOLDER, CatchDropping, true, false), 1 := LATE];
    Plays(9, db, hs, 0, NoInput, DropClaim);
    assert db.claims - {HOME} == map[];
    assert hs[0 := Early(HOLDER, CatchFailing, false, false)] == map[0 := Early(HOLDER, CatchFailing, false, false),
      1 := LATE];
  }

  const WAITING := map[0 := Early(HOLDER, CatchFailing, false, false), 1 := LATE]

  lemma RetryComes11()
    ensures Scene(11, Tables(0, map[HOLDER := FRESH, RETRIED := FRESH], map[], map[], map[]),
      WAITING[2 := Early(RETRIED, Claiming, false, false)])
  {
    hide Run;
    ClaimIsFree10();
    var db := Tables(0, map[HOLDER := FRESH], map[], map[], map[]);
    Enters(10, db, WAITING, 2, RETRIED);
    assert db.requests[RETRIED := FRESH] == map[HOLDER := FRESH, RETRIED := FRESH];
  }

  lemma RetryClaims12()
    ensures Scene(12, Tables(0, map[HOLDER := FRESH, RETRIED := FRESH], map[HOME := RETRIED], map[], map[]),
      WAITING[2 := Early(RETRIED, Reserving, true, false)])
  {
    hide Run;
    RetryComes11();
    var db := Tables(0, map[HOLDER := FRESH, RETRIED := FRESH], map[], map[], map[]);
    var hs := WAITING[2 := Early(RETRIED, Claiming, false, false)];
    Takes(11, db, hs, 2, RETRIED);
    assert hs[2 := Early(RETRIED, Reserving, true, false)] == WAITING[2 := Early(RETRIED, Reserving, true, false)];
  }

  lemma RetryHolds13()
    ensures Scene(13, Tables(1, map[HOLDER := FRESH, RETRIED := HELD], map[HOME := RETRIED], map[], map[]),
      WAITING[2 := Early(RETRIED, Estimating, true, true)])
  {
    hide Run;
    RetryClaims12();
    var db := Tables(0, map[HOLDER := FRESH, RETRIED := FRESH], map[HOME := RETRIED], map[], map[]);
    var hs := WAITING[2 := Early(RETRIED, Reserving, true, false)];
    Reserves(12, db, hs, 2, RETRIED, 0);
    assert db.requests[RETRIED := HELD] == map[HOLDER := FRESH, RETRIED := HELD];
    assert hs[2 := Early(RETRIED, Estimating, true, true)] == WAITING[2 := Early(RETRIED, Estimating, true, true)];
  }

  // ---- two orders at once -----------------------------------------------------------------------

  const MARKET := Market(0, 0, 0)
  const SALE := Sale(100, 0, 100, 100)

  lemma SaleIsOn()
    ensures P.ValidEnergyAmount(SALE.amount)
    ensures Quotes(CFG, MARKET, SALE, ResourceMath.ApplySafetyBasisPoints(SALE.estimate, CFG.safetyBps))
    ensures Prospect(CFG, MARKET, SALE, Early(RETRIED, Estimating, true, true))
  {
    assert ResourceMath.ApplySafetyBasisPoints(100, 10_000) == 100;
  }

  lemma EmptyLedger()
    ensures P.OrdersOn(map[], 0) == 0 && P.EnergyOn(map[], 0) == 0 && P.RowsOfProvider(map[], 0) == map[]
  {
    assert P.OrderWeights(map[], 0) == map[] && P.EnergyWeights(map[], 0) == map[];
  }

  /** What the stage looks like before the late write. */
  lemma RetryIsExposed()
    ensures var s := Run(CFG, STORY);
      && Reachable(CFG, s) && Exposed(CFG, s, 2, MARKET, SALE, SALE) && Shops(CFG, s, 2, MARKET, SALE)
      && 1 in s.handlers && s.handlers[1] == LATE && s.handlers[2].tx == RETRIED && RETRIED.owner !in s.stripped
      && RETRIED !in s.db.openLeases
  {
    hide Run, Quotes, Prospect, P.OrdersOn, P.EnergyOn, P.RowsOfProvider;
    RetryHolds13();
    assert STORY[..13] == STORY;
    SaleIsOn();
    EmptyLedger();
    NothingSwept();
    NobodyInside();
  }

  lemma NobodyInside()
    ensures !InPrepare(CatchFailing) && !InPrepare(Estimating)
  {
  }

  lemma NothingSwept()
    ensures Run(CFG, STORY).stripped == {}
  {
    hide Next;
    assert STORY[..0] == [];
    assert At(0) == Init();
    var n := 0;
    while n < |STORY|
      invariant n <= |STORY| && At(n).stripped == {}
    {
      Turn(n);
      OthersStripNothing(CFG, At(n), STORY[n]);
      n := n + 1;
    }
    assert STORY[..|STORY|] == STORY;
  }

  /** Both transactions have an open order, and the provider may have charged for both. */
  ghost predicate BothOrdered(s: State, t: TxId, u: TxId) {
    && t != u && t.owner == u.owner && OrderIsOpen(s.db, t) && OrderIsOpen(s.db, u)
    && MayBeCharged(TraceOf(s, t).calls) && MayBeCharged(TraceOf(s, u).calls)
  }

  /**
   * The first try marks the retry's row as failed, the clean-up drops the claim, a second transaction takes
   * it, and both are ordered for.
   */
  lemma TwoOrdersAtOnce()
    ensures CFG.provider && Validated(CFG)
    ensures exists more, u :: BothOrdered(Run(CFG, STORY + [Step(1, NoInput, Acked), SweepClaims] + more), RETRIED, u)
  {
    hide Run, From, BothOrdered, Exposed, Shops, Quotes, Prospect;
    var s := Run(CFG, STORY);
    RetryIsExposed();
    var s', u := LateWriteDoubles(CFG, s, 1, 2, NoInput, Acked, MARKET, SALE, SALE);
    assert BothOrdered(s', RETRIED, u) by { BothAre(s', RETRIED, u); }
    var more :| s' == From(CFG, WriteThenSweep(CFG, s, 1, NoInput, Acked), more);
    var hit := [Step(1, NoInput, Acked), SweepClaims];
    HitThenSwept(s);
    FromContinues(CFG, STORY, hit);
    FromContinues(CFG, STORY + hit, more);
  }

  lemma BothAre(s: State, t: TxId, u: TxId)
    requires t != u && t.owner == u.owner && OrderIsOpen(s.db, t) && OrderIsOpen(s.db, u)
    requires MayBeCharged(TraceOf(s, t).calls) && MayBeCharged(TraceOf(s, u).calls)
    ensures BothOrdered(s, t, u)
  {
  }

  lemma HitThenSwept(s: State)
    ensures From(CFG, s, [Step(1, NoInput, Acked), SweepClaims]) == WriteThenSweep(CFG, s, 1, NoInput, Acked)
  {
    hide Next;
    var hit := [Step(1, NoInput, Acked), SweepClaims];
    assert hit[..1] == [Step(1, NoInput, Acked)] && hit[..1][..0] == [];
    assert From(CFG, s, hit[..1]) == Next(CFG, From(CFG, s, []), Step(1, NoInput, Acked));
  }

  // ---- a unit given back while the order stands open -----------------------------------------------

  lemma ReleaseReplies(cfg: Config, db: Db, t: TxId)
    requires Flagged(db, t)
    ensures var (after, reply) := Apply(cfg, db, t, ReleaseUnit);
      reply.Yes? && !Flagged(after, t) && UsedOf(after, t.owner) == UsedOf(db, t.owner) && after.orders == db.orders
  {
  }

  /** What the release of a held unit adds to the history. */
  lemma ReleaseIsCounted(cfg: Config, s: State, t: TxId)
    requires Flagged(s.db, t) && TxOk(cfg, t, TxView(s, t))
    ensures TraceOf(Commit(cfg, s, t, ReleaseUnit, Acked), t).released == 1
  {
    hide Apply, OrderAgreesWithLedger, CallsAgreeWithLedger, MayBeCharged, RowsOf, Cause;
    ReleaseReplies(cfg, s.db, t);
  }

  lemma AttemptThrows(cfg: Config, s: State, i: nat, m: Market, sale: Sale)
    requires Shops(cfg, s, i, m, sale) && s.handlers[i].pc.Attempting?
    ensures var s', t := Next(cfg, s, Step(i, Budgeted(m.day, true), Unacked)), s.handlers[i].tx;
      && Reachable(cfg, s') && s'.up && OrderIsOpen(s'.db, t) && Flagged(s'.db, t)
      && i in s'.handlers && s'.handlers[i] == s.handlers[i].(pc := CatchReleasing)
  {
    hide Reachable, Inv, Next, Apply, Intent, Commit, WriteStep, Waits, Prospect, P.Affordable, OnlySeller, InPrepare,
      RowsOf, Orders, Catch, Fail, OrderIsOpen;
    var h, e := s.handlers[i], Step(i, Budgeted(m.day, true), Unacked);
    InvHolds(cfg, s);
    NextReachable(cfg, s, e);
    MayBuy(cfg, s, i, m, sale);
    AttemptProspect(cfg, m, sale, h);
    var w := StartAttempt(m.provider, sale.amount, m.day);
    OrderingHolds(cfg, s, i);
    WriterWaitsNot(cfg, s, i, Budgeted(m.day, true));
    StepIs(cfg, s, i, Budgeted(m.day, true), Unacked);
    CommittedViews(cfg, s, h.tx, w, Unacked);
    WriteStepIs(cfg, s, i, h, w, Budgeted(m.day, true), Unacked);
    OrderKeepsBindings(cfg, s.db, h.tx, w);
    FailIsCaught(cfg, h);
    CatchReleases(cfg, h);
  }

  /**
   * From every state in which a handler can get to an attempt, some run starts that attempt, sees the write
   * fail, and gives the unit back: no provider has been called, and the order stands as being placed.
   */
  lemma MayReturnUnitWhileOrdering(cfg: Config, s: State, i: nat, m: Market, sale: Sale) returns (s': State)
    requires Shops(cfg, s, i, m, sale)
    ensures var t := s.handlers[i].tx;
      && Leads(cfg, s, s') && TraceOf(s', t).released == 1 && OrderIsOpen(s'.db, t)
      && !MayBeCharged(TraceOf(s', t).calls)
  {
    hide Reachable, Next, Leads, Prospect, P.Affordable, OnlySeller, InPrepare, Apply, Intent, Commit, WriteStep,
      TxView, OrderIsOpen, MayBeCharged, Only, Waits;
    var t := s.handlers[i].tx;
    var s1 := GetsToAttempt(cfg, s, i, m, sale);
    var e := Step(i, Budgeted(m.day, true), Unacked);
    AttemptThrows(cfg, s1, i, m, sale);
    var s2 := Next(cfg, s1, e);
    LeadsOn(cfg, s, s1, e);
    s' := Next(cfg, s2, Step(i, NoInput, Acked));
    LeadsOn(cfg, s, s2, Step(i, NoInput, Acked));
    Releases(cfg, s2, i);
    NextReachable(cfg, s2, Step(i, NoInput, Acked));
    if MayBeCharged(TraceOf(s', t).calls) {
      TxHolds(cfg, s', t);
      ViewTrace(s', t);
      ChargedIsNotReleased(cfg, t, TxView(s', t));
      assert false;
    }
  }

  lemma ViewTrace(s: State, t: TxId)
    ensures TxView(s, t).trace == TraceOf(s, t)
  {
  }

  lemma ChargedIsNotReleased(cfg: Config, t: TxId, v: View)
    requires TxOk(cfg, t, v) && MayBeCharged(v.trace.calls)
    ensures v.trace.released == 0
  {
    hide OrderAgreesWithLedger, CallsAgreeWithLedger, MayBeCharged;
  }

  lemma Releases(cfg: Config, s: State, i: nat)
    requires Reachable(cfg, s) && s.up && i in s.handlers && s.handlers[i].pc.CatchReleasing?
    requires Flagged(s.db, s.handlers[i].tx)
    ensures var s', t := Next(cfg, s, Step(i, NoInput, Acked)), s.handlers[i].tx;
      TraceOf(s', t).released == 1 && (OrderIsOpen(s'.db, t) <==> OrderIsOpen(s.db, t))
  {
    hide Reachable, TxOk, Next, Apply, AfterWrite, Commit, WriteStep, Waits, TxView, OrderIsOpen, Intent;
    var h := s.handlers[i];
    TxHolds(cfg, s, h.tx);
    assert Intent(cfg, h, NoInput) == Some(ReleaseUnit) by { ReleasingWrites(cfg, h); }
    InsideWaitsNot(s, i);
    StepIs(cfg, s, i, NoInput, Acked);
    CommittedViews(cfg, s, h.tx, ReleaseUnit, Acked);
    WriteStepIs(cfg, s, i, h, ReleaseUnit, NoInput, Acked);
    ReleaseIsCounted(cfg, s, h.tx);
    ReleaseReplies(cfg, s.db, h.tx);
    SameTablesOpen(s.db, Apply(cfg, s.db, h.tx, ReleaseUnit).0);
  }

  lemma ReleasingWrites(cfg: Config, h: Handler)
    requires h.pc.CatchReleasing?
    ensures Intent(cfg, h, NoInput) == Some(ReleaseUnit)
  {
  }

  /** The same from the stage above: the documented promise about returned units fails. */
  lemma UnitReturnedWhileOrdering()
    ensures exists more ::
      var s := Run(CFG, STORY + more); TraceOf(s, RETRIED).released == 1 && OrderIsOpen(s.db, RETRIED)
  {
    hide Run, From, Exposed, Shops;
    var s := Run(CFG, STORY);
    RetryIsExposed();
    var s' := MayReturnUnitWhileOrdering(CFG, s, 2, MARKET, SALE);
    var more :| s' == From(CFG, s, more);
    FromContinues(CFG, STORY, more);
  }
}
