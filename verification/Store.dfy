/**
 * The tables as mutable state. Each method carries out the statements of one repository
 * operation in order, and is proved to take the tables exactly where the value-level
 * operation of the same name takes them. Execute carries out any write of a handler or of
 * recovery on them, so what is proved of the machine's writes holds of the store's.
 */
module Store {
  import opened Options
  import opened Schema
  import opened Totals
  import opened Gateway
  import opened TxInvariant
  import opened WriteLemmas
  import G = GatewayRepository
  import P = ProviderRepository

  /** Taking one row out of a ledger takes its weight out of both day totals. */
  lemma UsageSplit(ledger: Ledger, k: (TxId, ProviderId), d: Day)
    requires k in ledger
    ensures var w := P.OrderWeights(ledger, d)[k]; P.OrdersOn(ledger, d) == w + P.OrdersOn(ledger - {k}, d)
    ensures var w := P.EnergyWeights(ledger, d)[k]; P.EnergyOn(ledger, d) == w + P.EnergyOn(ledger - {k}, d)
  {
    TotalSplit(P.OrderWeights(ledger, d), k);
    TotalSplit(P.EnergyWeights(ledger, d), k);
    assert P.OrderWeights(ledger - {k}, d) == P.OrderWeights(ledger, d) - {k};
    assert P.EnergyWeights(ledger - {k}, d) == P.EnergyWeights(ledger, d) - {k};
  }

  /** The budget query: rows and energy in use on a day. */
  method Usage(ledger: Ledger, d: Day) returns (orders: nat, energy: nat)
    ensures orders == P.OrdersOn(ledger, d)
    ensures energy == P.EnergyOn(ledger, d)
  {
    orders, energy := 0, 0;
    var rest := ledger;
    while rest != map[]
      invariant orders + P.OrdersOn(rest, d) == P.OrdersOn(ledger, d)
      invariant energy + P.EnergyOn(rest, d) == P.EnergyOn(ledger, d)
      decreases |rest|
    {
      var k :| k in rest;
      UsageSplit(rest, k, d);
      var row := rest[k];
      if row.day == d && InUse(row) {
        orders, energy := orders + 1, energy + row.amount;
      }
      assert (rest - {k}).Keys == rest.Keys - {k} && |(rest - {k}).Keys| == |rest - {k}| && |rest.Keys| == |rest|;
      rest := rest - {k};
    }
  }

  /** The transaction is well, and the issuer of the write knows what it has to. */
  ghost predicate MayWrite(cfg: Config, db: Db, trace: Trace, t: TxId, w: Write) {
    && TxOk(cfg, t, ViewOf(db, trace, t)) && Allowed(ViewOf(db, trace, t), w)
    && (Flagged(db, t) ==> t.owner in db.bindings)
  }

  class Store {
    var bindings: map<Address, Binding>
    var requests: map<TxId, Request>
    var claims: map<Address, TxId>
    var orders: map<TxId, Order>
    var ledger: Ledger
    var providers: map<ProviderId, Provider>
    var openLeases: set<TxId>

    constructor ()
      ensures Snapshot() == Db(map[], map[], map[], map[], map[], map[], {})
    {
      bindings, requests, claims, orders, ledger, providers, openLeases := map[], map[], map[], map[], map[], map[], {};
    }

    function Snapshot(): Db
      reads this
    {
      Db(bindings, requests, claims, orders, ledger, providers, openLeases)
    }

    /**
     * Carries out a write of the machine, with the machine's reply. A write that its issuer may make keeps the
     * invariant of its transaction, whatever the history has been.
     */
    method Execute(cfg: Config, t: TxId, w: Write) returns (reply: Reply)
      modifies this
      ensures (Snapshot(), reply) == Apply(cfg, old(Snapshot()), t, w)
      ensures forall trace :: MayWrite(cfg, old(Snapshot()), trace, t, w) ==>
        TxOk(cfg, t, ViewOf(Snapshot(), Observe(trace, old(Snapshot()), Snapshot(), t, w), t))
    {
      ghost var before := Snapshot();
      forall trace | MayWrite(cfg, before, trace, t, w)
        ensures TxOk(cfg, t, After(cfg, before, trace, t, w))
      {
        WriteKeepsTx(cfg, before, trace, t, w);
      }
      hide TxOk, Observe, ViewOf;
      reply := Yes;
      match w
      case AcquireClaim =>
        var result := TryAcquireAddressClaim(t.owner, t);
        reply := if result.Changed? then Yes else if result.Unchanged? then No else Thrown;
      case DropClaim => ReleaseAddressClaim(t.owner, t);
      case DiscardRow => DiscardUnpreparedRequest(t);
      case ReserveUnit(now) =>
        var reserved := ReserveQuota(t.owner, t, cfg.provider, now);
        reply := if reserved then Yes else No;
      case ConsumeUnit => MoveQuota(t.owner, t, true);
      case ReleaseUnit => MoveQuota(t.owner, t, false);
      case SaveEstimate => SetRequestState(t, ResourceEstimated);
      case SetState(state) => SetRequestState(t, state);
      case Complete(state) => CompleteRequest(t, state);
      case RecordOutcome(accepted) => RecordBroadcastOutcome(t.owner, t, accepted);
      case OpenOrder(requested) =>
        if requested < 0 { return Thrown; }
        var result := BeginOrder(t, t.owner, requested);
        reply := if result.Created? then Yes else if result.Existing? then Found(result.order) else Thrown;
      case RefuseOrder =>
        var done := RejectWithoutProvider(t);
        reply := Succeeded(done);
      case StartAttempt(p, amount, day) =>
        var started := StartAttempt(cfg.limits, t, p, amount, day);
        reply := if started then Yes else No;
      case FinishAttempt(p, outcome) =>
        var done := TransitionAttempt(t, p, outcome);
        reply := Succeeded(done);
      case FinishConfirmation(state) =>
        var done := FinishConfirmation(t, state);
        reply := Succeeded(done);
    }

    // ---- requests, claims and quota -------------------------------------------------

    method BeginRequest(t: TxId) returns (created: bool)
      modifies this`requests
      ensures Snapshot() == G.BeginRequest(old(Snapshot()), t)
      ensures created <==> t !in old(requests)
    {
      created := t !in requests;
      if created {
        requests := requests[t := Request(Received, false, None)];
      }
    }

    method TryAcquireAddressClaim(a: Address, t: TxId) returns (result: G.Affected)
      modifies this`claims
      ensures (Snapshot(), result) == G.TryAcquireAddressClaim(old(Snapshot()), a, t)
    {
      if G.HasOpenOrder(Snapshot(), a) { return G.Unchanged; }
      if a in claims { return G.Unchanged; }
      if t !in requests || (exists b :: b in claims && claims[b] == t) { return G.Violated; }
      claims := claims[a := t];
      return G.Changed;
    }

    method ReleaseAddressClaim(a: Address, t: TxId)
      modifies this`claims
      ensures Snapshot() == G.ReleaseAddressClaim(old(Snapshot()), a, t)
    {
      if a in claims && claims[a] == t && G.Releasable(Snapshot(), t) {
        claims := claims - {a};
      }
    }

    method ReleaseTerminalAddressClaims() returns (released: nat)
      modifies this`claims
      ensures Snapshot() == G.ReleaseTerminalAddressClaims(old(Snapshot()))
      ensures released == |old(claims)| - |claims|
    {
      var db := Snapshot();
      var kept := map a | a in claims && !(
        && claims[a] in requests && Terminal(requests[claims[a]].state)
        && G.Releasable(db, claims[a])) :: claims[a];
      FewerKeys(kept, claims);
      released := |claims| - |kept|;
      claims := kept;
    }

    method DiscardUnpreparedRequest(t: TxId)
      modifies this`requests
      ensures Snapshot() == G.DiscardUnpreparedRequest(old(Snapshot()), t)
    {
      if t !in requests || !requests[t].state.Received? || requests[t].quotaReserved { return; }
      if exists a :: a in claims && claims[a] == t { return; }
      if t in openLeases || t in orders { return; }
      requests := requests - {t};
    }

    method SetRequestState(t: TxId, state: RequestState)
      modifies this`requests
      ensures Snapshot() == G.SetRequestState(old(Snapshot()), t, state)
    {
      if t in requests {
        requests := requests[t := requests[t].(state := state)];
      }
    }

    method CompleteRequest(t: TxId, state: RequestState)
      modifies this`requests
      ensures Snapshot() == G.CompleteRequest(old(Snapshot()), t, state)
    {
      if t in requests {
        requests := requests[t := requests[t].(state := state, response := Some(false))];
      }
    }

    method ReserveQuota(a: Address, t: TxId, requireFiniteLimit: bool, now: int) returns (reserved: bool)
      modifies this`bindings, this`requests
      ensures (Snapshot(), reserved) == G.ReserveQuota(old(Snapshot()), a, t, requireFiniteLimit, now)
      ensures reserved <==>
        && a in old(bindings) && old(bindings)[a].enabled
        && (old(bindings)[a].expiresAt.Some? ==> now < old(bindings)[a].expiresAt.value)
        && (requireFiniteLimit ==> old(bindings)[a].max.Some?)
        && (old(bindings)[a].max.Some? ==>
              old(bindings)[a].used + old(bindings)[a].reserved < old(bindings)[a].max.value)
    {
      if a !in bindings { return false; }
      var row := bindings[a];
      if !row.enabled || (row.expiresAt.Some? && row.expiresAt.value <= now) { return false; }
      if requireFiniteLimit && row.max.None? { return false; }
      if row.max.Some? && row.used + row.reserved >= row.max.value { return false; }
      bindings := bindings[a := row.(reserved := row.reserved + 1)];
      if t in requests {
        requests := requests[t := requests[t].(state := QuotaReserved, quotaReserved := true)];
      }
      return true;
    }

    method MoveQuota(a: Address, t: TxId, consume: bool)
      modifies this`bindings, this`requests
      ensures Snapshot() == G.MoveQuota(old(Snapshot()), a, t, consume)
    {
      if t !in requests || !requests[t].quotaReserved { return; }
      SettleBinding(a, consume);
      requests := requests[t := requests[t].(quotaReserved := false)];
    }

    method SettleBinding(a: Address, consume: bool)
      modifies this`bindings
      ensures bindings == G.SettleBinding(old(Snapshot()), a, consume)
    {
      if a in bindings {
        var row := bindings[a];
        var left := if row.reserved > 0 then row.reserved - 1 else 0;
        bindings := bindings[a := row.(reserved := left, used := row.used + if consume then 1 else 0)];
      }
    }

    method RecordBroadcastOutcome(a: Address, t: TxId, accepted: bool)
      modifies this`bindings, this`requests, this`claims
      ensures Snapshot() == G.RecordBroadcastOutcome(old(Snapshot()), a, t, accepted)
    {
      if t in requests && requests[t].quotaReserved {
        var billable := t in orders && Billable(orders[t].state);
        SettleBinding(a, accepted || billable);
      }
      if t in requests {
        requests := requests[t := Request(if accepted then UpstreamAccepted else UpstreamRejected, false,
          Some(accepted))];
      }
      if !accepted {
        DropClaimOf(t);
      }
    }

    method DropClaimOf(t: TxId)
      modifies this`claims
      ensures Snapshot() == G.DropClaimOf(old(Snapshot()), t)
    {
      if G.Releasable(Snapshot(), t) {
        claims := map a | a in claims && claims[a] != t :: claims[a];
      }
      assert claims == G.DropClaimOf(old(Snapshot()), t).claims;
    }

    method MarkFinalized(t: TxId, success: bool)
      modifies this`requests, this`claims
      ensures Snapshot() == G.MarkFinalized(old(Snapshot()), t, success)
    {
      SetRequestState(t, if success then SolidifiedSuccess else SolidifiedFailed);
      DropClaimOf(t);
    }

    method ExpireRequest(t: TxId)
      modifies this`requests, this`claims
      ensures Snapshot() == G.ExpireRequest(old(Snapshot()), t)
    {
      SetRequestState(t, Expired);
      DropClaimOf(t);
    }

    method UpsertBinding(a: Address, max: Option<Option<nat>>, expiresAt: Option<Option<int>>, enabled: Option<bool>)
      modifies this`bindings
      ensures Snapshot() == G.UpsertBinding(old(Snapshot()), a, max, expiresAt, enabled)
    {
      var row := if a in bindings then bindings[a] else Binding(true, None, None, 0, 0);
      if max.Some? { row := row.(max := max.value); }
      if expiresAt.Some? { row := row.(expiresAt := expiresAt.value); }
      if enabled.Some? { row := row.(enabled := enabled.value); }
      bindings := bindings[a := row];
    }

    method ResetBindingUsage(a: Address, max: Option<Option<nat>>, requireNoPaidActivity: bool) returns (done: bool)
      modifies this`bindings
      ensures (Snapshot(), done) == G.ResetBindingUsage(old(Snapshot()), a, max, requireNoPaidActivity)
    {
      if a !in bindings || bindings[a].reserved != 0 { return false; }
      if requireNoPaidActivity && (a in claims || G.HasOpenOrder(Snapshot(), a)) { return false; }
      var row := bindings[a].(used := 0);
      if max.Some? { row := row.(max := max.value); }
      bindings := bindings[a := row];
      return true;
    }

    // ---- provider orders and the budget ledger --------------------------------------

    method BeginOrder(t: TxId, receiver: Address, amount: nat) returns (result: P.BeginOrderResult)
      modifies this`orders
      ensures (Snapshot(), result) == P.BeginOrder(old(Snapshot()), t, receiver, amount)
    {
      if t in orders { return P.Existing(orders[t]); }
      if t !in requests { return P.NoRequest; }
      orders := orders[t := Order(receiver, amount, amount, None, Pending, [])];
      return P.Created(orders[t]);
    }

    method StartAttempt(limits: Limits, t: TxId, p: ProviderId, amount: nat, d: Day) returns (started: bool)
      modifies this`orders, this`ledger
      ensures (Snapshot(), started) == P.StartAttempt(old(Snapshot()), limits, t, p, amount, d)
    {
      if t !in orders || p !in providers || !providers[p].enabled { return false; }
      if !(orders[t].state.Pending? || orders[t].state.Rejected?) || Attempted(orders[t], p) { return false; }
      if amount > limits.maxEnergyPerOrder || amount > providers[p].limits.maxEnergyPerOrder { return false; }
      var globalOrders, globalEnergy := Usage(ledger, d);
      var providerOrders, providerEnergy := Usage(P.RowsOfProvider(ledger, p), d);
      if globalOrders + 1 > limits.dailyOrders || globalEnergy + amount > limits.dailyEnergy { return false; }
      if providerOrders + 1 > providers[p].limits.dailyOrders { return false; }
      if providerEnergy + amount > providers[p].limits.dailyEnergy { return false; }
      if (t, p) in ledger { return false; }
      ledger := ledger[(t, p) := LedgerRow(d, amount, Reserved)];
      orders := orders[t := P.EnterOrdering(orders[t], p, amount)];
      return true;
    }

    method TransitionAttempt(t: TxId, p: ProviderId, outcome: OrderState) returns (done: bool)
      modifies this`orders, this`ledger
      ensures (Snapshot(), done) == P.TransitionAttempt(old(Snapshot()), t, p, outcome)
    {
      if t !in orders || orders[t].provider != Some(p) || !orders[t].state.Ordering? { return false; }
      var before := orders;
      orders := orders[t := orders[t].(state := outcome, attempts := orders[t].attempts + [OrderEvent(outcome,
        Some(p))])];
      if (t, p) !in ledger || !ledger[(t, p)].state.Reserved? {
        orders := before;
        return false;
      }
      ledger := ledger[(t, p) := ledger[(t, p)].(state := P.LedgerStateFor(outcome))];
      return true;
    }

    method RejectWithoutProvider(t: TxId) returns (done: bool)
      modifies this`orders
      ensures (Snapshot(), done) == P.RejectWithoutProvider(old(Snapshot()), t)
    {
      if t !in orders || !orders[t].state.Pending? { return false; }
      orders := orders[t := orders[t].(
        state := OrderState.Rejected, attempts := orders[t].attempts + [OrderEvent(OrderState.Rejected, None)])];
      return true;
    }

    method FinishConfirmation(t: TxId, state: OrderState) returns (done: bool)
      modifies this`orders
      ensures (Snapshot(), done) == P.FinishConfirmation(old(Snapshot()), t, state)
    {
      if t in orders && orders[t].state.Accepted? {
        orders := orders[t := orders[t].(state := state, attempts := orders[t].attempts + [OrderEvent(state,
          orders[t].provider)])];
        return true;
      }
      return t in orders && orders[t].state == state;
    }

    method RecoverInterruptedOrders() returns (interrupted: nat)
      modifies this`orders, this`ledger
      ensures Snapshot() == P.RecoverInterruptedOrders(old(Snapshot()))
      ensures orders.Keys == old(orders).Keys && ledger.Keys == old(ledger).Keys
      ensures forall t :: t in old(orders) ==>
        if old(orders)[t].state.Ordering? then
          && orders[t].state.Unknown? && orders[t].provider == old(orders)[t].provider
          && orders[t].amount == old(orders)[t].amount
        else orders[t] == old(orders)[t]
      ensures interrupted == |set t | t in old(orders) && old(orders)[t].state.Ordering?|
    {
      var db := Snapshot();
      ledger := map k | k in ledger :: P.RecoveredRow(db, k);
      interrupted := |set t | t in orders && orders[t].state.Ordering?|;
      orders := map t | t in orders :: P.InterruptedOrder(orders[t]);
    }
  }

  lemma {:induction false} FewerKeys<K, V>(small: map<K, V>, large: map<K, V>)
    requires small.Keys <= large.Keys
    ensures |small| <= |large|
  {
    Subset(small.Keys, large.Keys);
    assert |small.Keys| == |small| && |large.Keys| == |large|;
  }

  lemma {:induction false} Subset<K>(a: set<K>, b: set<K>)
    requires a <= b
    ensures |a| <= |b|
  {
    if a != {} {
      var k :| k in a;
      Subset(a - {k}, b - {k});
    }
  }
}
