/** Exactly when a claim is lost, and what that leads to: two orders of one address, both possibly charged. */
module LostClaim {
  import opened Options
  import opened Schema
  import opened Gateway
  import opened TxInvariant
  import opened Invariant
  import opened Safety
  import opened History
  import opened Budget
  import opened Claims
  import opened Prepare
  import opened Refunds
  import opened Continuations
  import G = GatewayRepository
  import P = ProviderRepository
  import ResourceMath

  // ---- when the claim is lost ---------------------------------------------------------------------

  /** The late handler's write, and the clean-up after it. */
  ghost function WriteThenSweep(cfg: Config, s: State, id: nat, input: Input, fault: Fault): State {
    Next(cfg, Next(cfg, s, Step(id, input, fault)), SweepClaims)
  }

  /** The request reads as finished once the write is over. */
  predicate Finished(db: Db, t: TxId, fault: Fault) {
    !fault.NotApplied? || (t in db.requests && Terminal(db.requests[t].state))
  }

  lemma LateStep(cfg: Config, s: State, id: nat, input: Input, fault: Fault)
    requires Reachable(cfg, s) && s.up && id in s.handlers && s.handlers[id].late
    ensures var s', t := Next(cfg, s, Step(id, input, fault)), s.handlers[id].tx;
      && s'.up && s'.stripped == s.stripped && s'.handlers == s.handlers - {id}
      && s'.db == (if fault.NotApplied? then s.db else G.CompleteRequest(s.db, t, Failed))
  {
    hide Reachable, TxsOk, Fit, Commit, Intent, WriteStep, Next, Resume, Fail, Waits;
    var h := s.handlers[id];
    InvHolds(cfg, s);
    LateIsDone(cfg, s, id, input);
    assert HandlerWell(cfg, s, h);
    LateWrites(cfg, h, input);
    InsideWaitsNot(s, id);
    StepIs(cfg, s, id, input, fault);
    CommittedViews(cfg, s, h.tx, Complete(Failed), fault);
    WriteStepIs(cfg, s, id, h, Complete(Failed), input, fault);
  }

  lemma SweptUnlessGuarded(db: Db, t: TxId)
    requires Holds(db, t) && t in db.requests
    ensures Holds(G.ReleaseTerminalAddressClaims(db), t) <==>
      !Terminal(db.requests[t].state) || OrderIsOpen(db, t) || t in db.openLeases
    ensures !Holds(G.ReleaseTerminalAddressClaims(db), t) ==> t.owner !in G.ReleaseTerminalAddressClaims(db).claims
  {
  }

  lemma LostIsStripped(s: State, j: nat)
    requires s.up && j in s.handlers && Preparing(s.handlers[j]) && Holds(s.db, s.handlers[j].tx)
    requires s.handlers[j].tx.owner !in s.stripped
    ensures var t := s.handlers[j].tx; t.owner in SweepStep(s).stripped <==> !Holds(SweepStep(s).db, t)
  {
    hide Preparing;
    var t := s.handlers[j].tx;
    var after := G.ReleaseTerminalAddressClaims(s.db);
    if t.owner in Losses(s, after) {
      var i :| i in s.handlers && Preparing(s.handlers[i]) && Holds(s.db, s.handlers[i].tx)
        && !Holds(after, s.handlers[i].tx) && s.handlers[i].tx.owner == t.owner;
      assert s.handlers[i].tx == t;
    }
  }

  /**
   * A handler that prepares t past its claim, and a late handler of t: after the late write and a clean-up
   * the claim is still there if and only if the request does not read as finished, or the order of t is open,
   * or t has an open lease. When nothing has hit t before, only the write itself can finish the request.
   */
  lemma LateWriteLosesClaimIff(cfg: Config, s: State, id: nat, j: nat, input: Input, fault: Fault)
    requires Reachable(cfg, s) && s.up && id in s.handlers && s.handlers[id].late
    requires j in s.handlers && s.handlers[j].tx == s.handlers[id].tx
    requires Preparing(s.handlers[j]) && !s.handlers[j].pc.Claiming? && s.handlers[j].tx.owner !in s.stripped
    ensures var s', t := WriteThenSweep(cfg, s, id, input, fault), s.handlers[j].tx;
      && (Holds(s'.db, t) <==> !Finished(s.db, t, fault) || OrderIsOpen(s.db, t) || t in s.db.openLeases)
      && (t !in s.clobbered ==> (Finished(s.db, t, fault) <==> !fault.NotApplied?))
      && (t.owner in s'.stripped <==> !Holds(s'.db, t))
      && (!Holds(s'.db, t) ==> t.owner !in s'.db.claims)
      && j in s'.handlers && s'.handlers[j] == s.handlers[j]
  {
    hide Reachable, Next, Preparing, Losses;
    var t := s.handlers[j].tx;
    var s1 := Next(cfg, s, Step(id, input, fault));
    LateStep(cfg, s, id, input, fault);
    PreparingIsLive(s.handlers[j]);
    RequestThereFor(cfg, s, j);
    PreparerHolds(cfg, s, j);
    SweptUnlessGuarded(s1.db, t);
    SweepIs(cfg, s1);
    LostIsStripped(s1, j);
    if t !in s.clobbered {
      UntouchedIsUnderway(cfg, s, j);
    }
  }

  lemma PreparerHolds(cfg: Config, s: State, j: nat)
    requires Reachable(cfg, s) && j in s.handlers && s.handlers[j].tx.owner !in s.stripped
    requires Preparing(s.handlers[j]) && !s.handlers[j].pc.Claiming?
    ensures Holds(s.db, s.handlers[j].tx)
  {
    hide Run, ClaimsOk, OpenIsClaimed, Preparing, Holds;
    var events :| s == Run(cfg, events);
    RunClaims(cfg, events);
    assert PreparerOk(s.db, s.handlers[j]);
  }

  lemma UntouchedIsUnderway(cfg: Config, s: State, j: nat)
    requires Reachable(cfg, s) && j in s.handlers && Preparing(s.handlers[j]) && s.handlers[j].tx !in s.clobbered
    ensures Underway(s.db, s.handlers[j].tx)
  {
    hide Run, Preparing, Underway;
    var events :| s == Run(cfg, events);
    RunUnderway(cfg, events);
  }

  // ---- what a lost claim leads to ---------------------------------------------------------------------

  ghost predicate TwoOrdersAt(db: Db, a: Address) {
    exists t: TxId, u: TxId :: t != u && t.owner == a && u.owner == a && OrderIsOpen(db, t) && OrderIsOpen(db, u)
  }

  /** The day has room for two more orders. */
  ghost predicate HasRoom(limits: Limits, ledger: Ledger, d: Day, a: nat, b: nat) {
    && a <= limits.maxEnergyPerOrder && b <= limits.maxEnergyPerOrder
    && P.OrdersOn(ledger, d) + 2 <= limits.dailyOrders && P.EnergyOn(ledger, d) + a + b <= limits.dailyEnergy
  }

  /** A provider row with room for both. */
  ghost function Seller(ledger: Ledger, m: Market, a: nat, b: nat): Provider {
    var own := P.RowsOfProvider(ledger, m.provider);
    Provider(true, m.kind, 0, Limits(P.MAX_ENERGY_ORDER_AMOUNT, P.OrdersOn(own, m.day) + 2,
      P.EnergyOn(own, m.day) + a + b))
  }

  lemma FirstFits(limits: Limits, db: Db, m: Market, a: nat, b: nat)
    requires HasRoom(limits, db.ledger, m.day, a, b) && P.ValidEnergyAmount(a)
    requires m.provider in db.providers && db.providers[m.provider] == Seller(db.ledger, m, a, b)
    ensures P.Affordable(db, limits, m.provider, a, m.day)
  {
    hide P.OrdersOn, P.EnergyOn, P.RowsOfProvider;
  }

  lemma SecondFits(limits: Limits, ledger: Ledger, db: Db, t: TxId, m: Market, a: nat, b: nat)
    requires HasRoom(limits, ledger, m.day, a, b) && P.ValidEnergyAmount(b) && (t, m.provider) !in ledger
    requires m.provider in db.providers && db.providers[m.provider] == Seller(ledger, m, a, b)
    requires db.ledger == ledger[(t, m.provider) := LedgerRow(m.day, a, Reserved)]
    ensures P.Affordable(db, limits, m.provider, b, m.day)
  {
    hide P.OrdersOn, P.EnergyOn;
    var k, row := (t, m.provider), LedgerRow(m.day, a, Reserved);
    var own := P.RowsOfProvider(ledger, m.provider);
    ReservedOrders(ledger, k, row, m.day);
    ReservedEnergy(ledger, k, row, m.day);
    ReservedOrders(own, k, row, m.day);
    ReservedEnergy(own, k, row, m.day);
    assert P.RowsOfProvider(db.ledger, m.provider) == own[k := row];
  }

  lemma SellerIsOnly(ledger: Ledger, providers: map<ProviderId, Provider>, m: Market, a: nat, b: nat)
    requires m.provider in providers && providers[m.provider] == Seller(ledger, m, a, b)
    requires forall q :: q in providers && providers[q].enabled ==> q == m.provider
    ensures OnlySeller(providers, m)
  {
    hide P.OrdersOn, P.EnergyOn, P.RowsOfProvider;
  }

  lemma NewHasNoRow(cfg: Config, s: State, u: TxId, p: ProviderId)
    requires Reachable(cfg, s) && u !in s.db.requests
    ensures (u, p) !in s.db.ledger && !OrderIsOpen(s.db, u)
  {
    hide Reachable, CallsAgreeWithLedger, QuotaAgrees;
    TxHolds(cfg, s, u);
    RowKeys(s.db.ledger, u, p);
  }

  lemma SameView(s: State, s': State, t: TxId)
    requires TxView(s', t) == TxView(s, t)
    ensures OrderIsOpen(s'.db, t) <==> OrderIsOpen(s.db, t)
    ensures TraceOf(s', t) == TraceOf(s, t)
  {
    ViewOrder(s, t);
    ViewOrder(s', t);
  }

  /** Handler j can still buy, a newcomer could buy too, and the day's budget has room for both. */
  ghost predicate Exposed(cfg: Config, s: State, j: nat, m: Market, first: Sale, second: Sale) {
    && cfg.provider && Validated(cfg) && s.up
    && j in s.handlers && !s.handlers[j].late && s.handlers[j].tx.contract.TriggerSmartContract?
    && Prospect(cfg, m, first, s.handlers[j]) && (s.handlers[j].tx, m.provider) !in s.db.ledger
    && P.ValidEnergyAmount(second.amount)
    && Quotes(cfg, m, second, ResourceMath.ApplySafetyBasisPoints(second.estimate, cfg.safetyBps))
    && HasRoom(cfg.limits, s.db.ledger, m.day, first.amount, second.amount)
  }

  /** The stage is set: the mutex is free for j, one provider sells, and another transaction holds the claim. */
  lemma SetsStage(cfg: Config, s: State, j: nat, m: Market, first: Sale, second: Sale)
    returns (s': State, i: nat, u: TxId)
    requires Reachable(cfg, s) && Exposed(cfg, s, j, m, first, second)
    requires s.handlers[j].tx.owner !in s.db.claims && !G.HasOpenOrder(s.db, s.handlers[j].tx.owner)
    ensures Leads(cfg, s, s') && Shops(cfg, s', j, m, first) && s'.stripped == s.stripped
    ensures s'.handlers[j] == s.handlers[j] && s'.db.ledger == s.db.ledger
    ensures m.provider in s'.db.providers
    ensures s'.db.providers[m.provider] == Seller(s.db.ledger, m, first.amount, second.amount)
    ensures i != j && i in s'.handlers && s'.handlers[i] == NewHandler(u).(claimed := true, pc := Reserving)
    ensures u.owner == s.handlers[j].tx.owner && u.contract.TriggerSmartContract? && u != s.handlers[j].tx
    ensures (u, m.provider) !in s.db.ledger
  {
    hide Reachable, Leads, Prospect, Quotes, HasRoom, Seller, P.Affordable, OnlySeller, InPrepare, OnlyTx, Next;
    var t := s.handlers[j].tx;
    var row := Seller(s.db.ledger, m, first.amount, second.amount);
    var s1 := CanBeFree(cfg, s, j);
    assert row.enabled by { SellerIsEnabled(s.db.ledger, m, first.amount, second.amount); }
    var s2 := CanBeOnly(cfg, s1, m.provider, row);
    LeadsFurther(cfg, s, s1, s2);
    assert !G.HasOpenOrder(s2.db, t.owner) by { SameOpenOrders(s.db, s2.db, t.owner); }
    RequestThereFor(cfg, s2, j);
    s', i, u := CanEnter(cfg, s2, t.owner);
    LeadsFurther(cfg, s, s2, s');
    NewHasNoRow(cfg, s2, u, m.provider);
    SellerIsOnly(s.db.ledger, s'.db.providers, m, first.amount, second.amount);
    assert P.ValidEnergyAmount(first.amount) by { ProspectIsValid(cfg, m, first, s.handlers[j]); }
    FirstFits(cfg.limits, s'.db, m, first.amount, second.amount);
    ReservingIsOutside(u);
  }

  lemma SellerIsEnabled(ledger: Ledger, m: Market, a: nat, b: nat)
    ensures Seller(ledger, m, a, b).enabled
  {
    hide P.OrdersOn, P.EnergyOn;
  }

  lemma ProspectIsValid(cfg: Config, m: Market, sale: Sale, h: Handler)
    requires Prospect(cfg, m, sale, h)
    ensures P.ValidEnergyAmount(sale.amount)
    ensures Preparing(h.(late := false)) && !h.pc.Claiming? && !h.pc.Ready? && !h.pc.Calling? && !h.pc.Refusing?
  {
  }

  lemma ReservingIsOutside(u: TxId)
    ensures !InPrepare(NewHandler(u).(claimed := true, pc := Reserving).pc)
  {
  }

  lemma NewcomerProspect(cfg: Config, m: Market, sale: Sale, u: TxId)
    requires P.ValidEnergyAmount(sale.amount)
    requires Quotes(cfg, m, sale, ResourceMath.ApplySafetyBasisPoints(sale.estimate, cfg.safetyBps))
    ensures Prospect(cfg, m, sale, NewHandler(u).(claimed := true, pc := Reserving))
  {
    hide Quotes;
  }

  /**
   * Once the claim of a handler that can still buy is gone, and no order of the address is open, another
   * transaction of the address can take the claim, and both can place their orders: two orders are open
   * at the same time, and the provider may have charged for both.
   */
  lemma LostClaimAllowsTwoOrders(cfg: Config, s: State, j: nat, m: Market, first: Sale, second: Sale)
    returns (s': State, u: TxId)
    requires Reachable(cfg, s) && Exposed(cfg, s, j, m, first, second)
    requires s.handlers[j].tx.owner !in s.db.claims && !G.HasOpenOrder(s.db, s.handlers[j].tx.owner)
    ensures var t := s.handlers[j].tx;
      && Leads(cfg, s, s') && s'.stripped == s.stripped && u != t && u.owner == t.owner
      && OrderIsOpen(s'.db, t) && OrderIsOpen(s'.db, u)
      && MayBeCharged(TraceOf(s', t).calls) && MayBeCharged(TraceOf(s', u).calls)
  {
    hide Reachable, Leads, Prospect, Quotes, HasRoom, Seller, P.Affordable, OnlySeller, InPrepare, MayBeCharged,
      OrderIsOpen, TxView, TraceOf;
    var t := s.handlers[j].tx;
    var s1, i, u1 := SetsStage(cfg, s, j, m, first, second);
    u := u1;
    ReservingIsOutside(u);
    var s2 := Buys(cfg, s1, j, m, first);
    LeadsFurther(cfg, s, s1, s2);
    assert InPrepare(s2.handlers[j].pc) by { CallingIsInside(s2.handlers[j]); }
    var s3 := CanLeave(cfg, s2, j);
    LeadsFurther(cfg, s, s2, s3);
    SecondFits(cfg.limits, s.db.ledger, s3.db, t, m, first.amount, second.amount);
    NewcomerProspect(cfg, m, second, u);
    assert Shops(cfg, s3, i, m, second);
    s' := Buys(cfg, s3, i, m, second);
    LeadsFurther(cfg, s, s3, s');
    SameView(s3, s', t);
  }

  lemma CallingIsInside(h: Handler)
    requires h.pc.Calling?
    ensures InPrepare(h.pc)
  {
  }

  // ---- exactly when the promise fails ------------------------------------------------------------------------

  /** Some further run without another lost claim has two open orders of the address. */
  ghost predicate MayDouble(cfg: Config, s: State, a: Address) {
    exists events ::
      From(cfg, s, events).stripped == s.stripped && TwoOrdersAt(From(cfg, s, events).db, a)
  }

  lemma KeptClaimNeverDoubles(cfg: Config, s: State, a: Address)
    requires Reachable(cfg, s) && a !in s.stripped
    ensures !MayDouble(cfg, s, a)
  {
    hide Reachable, From, OrderIsOpen;
    forall events | From(cfg, s, events).stripped == s.stripped
      ensures !TwoOrdersAt(From(cfg, s, events).db, a)
    {
      var s' := From(cfg, s, events);
      StaysReachable(cfg, s, events);
      forall t: TxId, u: TxId | t.owner == a && u.owner == a && OrderIsOpen(s'.db, t) && OrderIsOpen(s'.db, u)
        ensures t == u
      {
        OneOrderPerAddress(cfg, s', t, u);
      }
    }
  }

  /** A handler that has not been granted an attempt has no open order. */
  lemma ShopperHasNoOpenOrder(cfg: Config, s: State, j: nat, m: Market, sale: Sale)
    requires Reachable(cfg, s) && j in s.handlers && !s.handlers[j].late && Prospect(cfg, m, sale, s.handlers[j])
    ensures !OrderIsOpen(s.db, s.handlers[j].tx)
  {
    hide Reachable, Inv, Prospect, Placed, Dealing, Charging;
    var h := s.handlers[j];
    OrderStandsAsKnown(cfg, s, j);
    ProspectPlaces(cfg, m, sale, h);
    if h.pc.Reserving? || h.pc.Estimating? || h.pc.SavingEstimate? || h.pc.Planning? {
      InvHolds(cfg, s);
      BeforeTheOrder(cfg, s, j);
    }
  }

  lemma BeforeTheOrder(cfg: Config, s: State, j: nat)
    requires Inv(cfg, s) && j in s.handlers && !s.handlers[j].late
    requires var pc := s.handlers[j].pc; pc.Reserving? || pc.Estimating? || pc.SavingEstimate? || pc.Planning?
    ensures s.handlers[j].tx !in s.db.orders
  {
    hide TxOk, DetailOk, EnergyOk, RowsOf;
    assert HandlerWell(cfg, s, s.handlers[j]);
  }

  lemma NoOpenOrderAt(cfg: Config, s: State, t: TxId)
    requires Reachable(cfg, s) && t.owner !in s.stripped && Holds(s.db, t) && !OrderIsOpen(s.db, t)
    ensures !G.HasOpenOrder(s.db, t.owner)
  {
    hide Reachable, OrderAgreesWithLedger, CallsAgreeWithLedger, QuotaAgrees;
    forall u | u in s.db.orders && s.db.orders[u].receiver == t.owner && Open(s.db.orders[u].state)
      ensures false
    {
      TxHolds(cfg, s, u);
      OneOrderPerAddress(cfg, s, u, t);
    }
  }

  lemma SweepKeepsOrders(cfg: Config, s: State, id: nat, input: Input, fault: Fault)
    requires Reachable(cfg, s) && s.up && id in s.handlers && s.handlers[id].late
    ensures var s' := WriteThenSweep(cfg, s, id, input, fault);
      && s'.up && s'.db.orders == s.db.orders && s'.db.ledger == s.db.ledger && Reachable(cfg, s')
  {
    hide Reachable, Next;
    LateStep(cfg, s, id, input, fault);
    var s1 := Next(cfg, s, Step(id, input, fault));
    NextReachable(cfg, s, Step(id, input, fault));
    NextReachable(cfg, s1, SweepClaims);
    SweepIs(cfg, s1);
  }

  /** A late write that finishes a request under preparation can end in two orders of the address. */
  lemma LateWriteDoubles(cfg: Config, s: State, id: nat, j: nat, input: Input, fault: Fault, m: Market, first: Sale,
      second: Sale) returns (s': State, u: TxId)
    requires Reachable(cfg, s) && Exposed(cfg, s, j, m, first, second)
    requires id in s.handlers && s.handlers[id].late && s.handlers[j].tx == s.handlers[id].tx
    requires s.handlers[j].tx.owner !in s.stripped
    requires Finished(s.db, s.handlers[j].tx, fault) && s.handlers[j].tx !in s.db.openLeases
    ensures var t, swept := s.handlers[j].tx, WriteThenSweep(cfg, s, id, input, fault);
      && Leads(cfg, swept, s') && s'.stripped == swept.stripped && u != t && u.owner == t.owner
      && OrderIsOpen(s'.db, t) && OrderIsOpen(s'.db, u)
      && MayBeCharged(TraceOf(s', t).calls) && MayBeCharged(TraceOf(s', u).calls)
  {
    hide Reachable, Prospect, Quotes, HasRoom, OrderIsOpen, Holds, Finished, WriteThenSweep, Leads, MayBeCharged,
      TraceOf;
    var t := s.handlers[j].tx;
    var swept := WriteThenSweep(cfg, s, id, input, fault);
    ShopperHasNoOpenOrder(cfg, s, j, m, first);
    ProspectIsValid(cfg, m, first, s.handlers[j]);
    assert s.handlers[j].(late := false) == s.handlers[j];
    LateWriteLosesClaimIff(cfg, s, id, j, input, fault);
    SweepKeepsOrders(cfg, s, id, input, fault);
    PreparerHolds(cfg, s, j);
    NoOpenOrderAt(cfg, s, t);
    SameOpenOrders(s.db, swept.db, t.owner);
    s', u := LostClaimAllowsTwoOrders(cfg, swept, j, m, first, second);
  }

  /**
   * The late handler's write breaks the promise of one order per address, for a handler that has not yet been
   * granted an attempt, if and only if it leaves the request reading as finished and no lease keeps the claim.
   */
  lemma LateWriteBreaksPromiseIff(cfg: Config, s: State, id: nat, j: nat, input: Input, fault: Fault, m: Market,
      first: Sale, second: Sale)
    requires Reachable(cfg, s) && Exposed(cfg, s, j, m, first, second)
    requires id in s.handlers && s.handlers[id].late && s.handlers[j].tx == s.handlers[id].tx
    requires s.handlers[j].tx.owner !in s.stripped
    ensures var t := s.handlers[j].tx;
      MayDouble(cfg, WriteThenSweep(cfg, s, id, input, fault), t.owner) <==>
        Finished(s.db, t, fault) && t !in s.db.openLeases
  {
    hide Reachable, From, Prospect, Quotes, HasRoom, MayDouble, OrderIsOpen, Holds, Finished, WriteThenSweep;
    var t := s.handlers[j].tx;
    var swept := WriteThenSweep(cfg, s, id, input, fault);
    if Finished(s.db, t, fault) && t !in s.db.openLeases {
      var s', u := LateWriteDoubles(cfg, s, id, j, input, fault, m, first, second);
      Doubles(cfg, swept, s', t, u);
    } else {
      ProspectIsValid(cfg, m, first, s.handlers[j]);
      assert s.handlers[j].(late := false) == s.handlers[j];
      LateWriteLosesClaimIff(cfg, s, id, j, input, fault);
      SweepKeepsOrders(cfg, s, id, input, fault);
      KeptClaimNeverDoubles(cfg, swept, t.owner);
    }
  }

  lemma Doubles(cfg: Config, s: State, s': State, t: TxId, u: TxId)
    requires Leads(cfg, s, s') && s'.stripped == s.stripped && t != u && u.owner == t.owner
    requires OrderIsOpen(s'.db, t) && OrderIsOpen(s'.db, u)
    ensures MayDouble(cfg, s, t.owner)
  {
    hide From, OrderIsOpen;
    assert TwoOrdersAt(s'.db, t.owner);
    var events :| s' == From(cfg, s, events);
  }
}
