/**
 * What each operation of the request repository does to the tables. Every operation is
 * one database transaction; a constraint violation leaves the tables as they were.
 */
module GatewayRepository {
  import opened Options
  import opened Schema

  /** How a conditional statement ended: it changed its row, it did not, or a constraint refused it. */
  datatype Affected = Changed | Unchanged | Violated

  predicate HasOpenOrder(db: Db, a: Address) {
    exists t :: t in db.orders && db.orders[t].receiver == a && Open(db.orders[t].state)
  }

  /** No open order and no open lease of t stands in the way of giving up its claim. */
  predicate Releasable(db: Db, t: TxId) {
    !(t in db.orders && Open(db.orders[t].state)) && t !in db.openLeases
  }

  function BeginRequest(db: Db, t: TxId): Db {
    if t in db.requests then db
    else db.(requests := db.requests[t := Request(Received, false, None)])
  }

  function TryAcquireAddressClaim(db: Db, a: Address, t: TxId): (Db, Affected) {
    if HasOpenOrder(db, a) || a in db.claims then (db, Unchanged)
    else if t !in db.requests || (exists b :: b in db.claims && db.claims[b] == t) then (db, Violated)
    else (db.(claims := db.claims[a := t]), Changed)
  }

  function ReleaseAddressClaim(db: Db, a: Address, t: TxId): Db {
    if a in db.claims && db.claims[a] == t && Releasable(db, t) then db.(claims := db.claims - {a}) else db
  }

  /** The claim clean-up shared by a rejected broadcast, finality and expiry. */
  function DropClaimOf(db: Db, t: TxId): Db {
    db.(claims := map a | a in db.claims && !(db.claims[a] == t && Releasable(db, t)) :: db.claims[a])
  }

  function ReleaseTerminalAddressClaims(db: Db): Db {
    db.(claims := map a | a in db.claims && !(
      && db.claims[a] in db.requests && Terminal(db.requests[db.claims[a]].state)
      && Releasable(db, db.claims[a])) :: db.claims[a])
  }

  function DiscardUnpreparedRequest(db: Db, t: TxId): Db {
    if && t in db.requests && db.requests[t].state.Received? && !db.requests[t].quotaReserved
       && (forall a :: a in db.claims ==> db.claims[a] != t) && t !in db.openLeases && t !in db.orders
    then db.(requests := db.requests - {t})
    else db
  }

  function SetRequestState(db: Db, t: TxId, state: RequestState): Db {
    if t in db.requests then db.(requests := db.requests[t := db.requests[t].(state := state)]) else db
  }

  function CompleteRequest(db: Db, t: TxId, state: RequestState): Db {
    if t in db.requests
    then db.(requests := db.requests[t := db.requests[t].(state := state, response := Some(false))])
    else db
  }

  function ReserveQuota(db: Db, a: Address, t: TxId, requireFiniteLimit: bool, now: int): (Db, bool) {
    if a !in db.bindings then (db, false) else
    var row := db.bindings[a];
    if !row.enabled || (row.expiresAt.Some? && row.expiresAt.value <= now) then (db, false)
    else if requireFiniteLimit && row.max.None? then (db, false)
    else if row.max.Some? && row.used + row.reserved >= row.max.value then (db, false)
    else
      var requests :=
        if t in db.requests
        then db.requests[t := db.requests[t].(state := QuotaReserved, quotaReserved := true)]
        else db.requests;
      (db.(bindings := db.bindings[a := row.(reserved := row.reserved + 1)], requests := requests), true)
  }

  /** The counter half of a settlement; the reserved counter stops at zero. */
  function SettleBinding(db: Db, a: Address, consume: bool): map<Address, Binding> {
    if a !in db.bindings then db.bindings else
    var row := db.bindings[a];
    db.bindings[a := row.(
      reserved := if row.reserved > 0 then row.reserved - 1 else 0,
      used := row.used + if consume then 1 else 0)]
  }

  function MoveQuota(db: Db, a: Address, t: TxId, consume: bool): Db {
    if t !in db.requests || !db.requests[t].quotaReserved then db
    else db.(
      bindings := SettleBinding(db, a, consume),
      requests := db.requests[t := db.requests[t].(quotaReserved := false)])
  }

  predicate ProviderBillable(db: Db, t: TxId) {
    t in db.orders && Billable(db.orders[t].state)
  }

  function RecordBroadcastOutcome(db: Db, a: Address, t: TxId, accepted: bool): Db {
    var settled := MoveQuota(db, a, t, accepted || ProviderBillable(db, t));
    var answered :=
      if t !in settled.requests then settled
      else settled.(requests := settled.requests[t := settled.requests[t].(
        state := if accepted then UpstreamAccepted else UpstreamRejected,
        response := Some(accepted))]);
    if accepted then answered else DropClaimOf(answered, t)
  }

  function MarkFinalized(db: Db, t: TxId, success: bool): Db {
    DropClaimOf(SetRequestState(db, t, if success then SolidifiedSuccess else SolidifiedFailed), t)
  }

  function ExpireRequest(db: Db, t: TxId): Db {
    DropClaimOf(SetRequestState(db, t, Expired), t)
  }

  /** An omitted value (None) keeps the stored one; max may also be set to unlimited. */
  function UpsertBinding(db: Db, a: Address, max: Option<Option<nat>>, expiresAt: Option<Option<int>>,
      enabled: Option<bool>): Db {
    var row :=
      if a in db.bindings
      then db.bindings[a].(
        max := if max.Some? then max.value else db.bindings[a].max,
        expiresAt := if expiresAt.Some? then expiresAt.value else db.bindings[a].expiresAt,
        enabled := if enabled.Some? then enabled.value else db.bindings[a].enabled)
      else Binding(
        if enabled.Some? then enabled.value else true,
        if expiresAt.Some? then expiresAt.value else None,
        if max.Some? then max.value else None, 0, 0);
    db.(bindings := db.bindings[a := row])
  }

  predicate HasOpenPaidProviderActivity(db: Db, a: Address) {
    a in db.claims || HasOpenOrder(db, a)
  }

  function ResetBindingUsage(db: Db, a: Address, max: Option<Option<nat>>, requireNoPaidActivity: bool): (Db, bool) {
    if a !in db.bindings then (db, false) else
    var row := db.bindings[a];
    if row.reserved != 0 || (requireNoPaidActivity && HasOpenPaidProviderActivity(db, a)) then (db, false)
    else (db.(bindings := db.bindings[a := row.(used := 0, max := if max.Some? then max.value else row.max)]), true)
  }
}
