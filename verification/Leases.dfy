/**
 * The life of one resource lease: the handler that delegates, the worker that takes the
 * resources back, the chain, and the clock. A lease is unique for its transaction and resource
 * type, so it has one delegating handler; the process has one reclaim worker.
 */
module Leases {
  import opened Options

  const DELEGATION_VISIBLE_MS: int := 600_000
  const REBROADCAST_AFTER_MS: int := 180_000

  datatype LeaseState =
    | Created
    | Delegating
    | Active
    | ReleasePending
    | Releasing
    | ReleaseBroadcast
    | Released
    | Failed
    | FailedNoDelegation

  /** undelegation is the number of the attempt whose transaction id the row holds. */
  datatype Lease = Lease(state: LeaseState, delegated: bool, undelegation: Option<nat>, createdAt: int, updatedAt: int)

  /** Why the worker gave up waiting for an undelegation. */
  datatype Given = Waiting | SeenFailed | SeenOverdue(at: int)

  /** An undelegation transaction; markedAt is when the row was made to hold its id. */
  datatype Attempt = Attempt(handed: bool, receipt: Option<bool>, markedAt: Option<int>, given: Given)

  datatype HandlerPc =
    | Signing
    | MarkingDelegation
    | HandingDelegation
    | AwaitingDelegation
    | Activating
    | Backing
    | Failing
    | Gone

  datatype WorkerPc =
    | Idle
    | Reconciling(attempt: nat, updatedAt: int)
    | Claiming
    | Checking
    | Undelegating
    | Marking(attempt: nat)
    | Handing(attempt: nat)
    | Awaiting(attempt: nat)
    | Finishing(attempt: nat)
    | GivingUp(attempt: nat)
    | Retrying
    | Abandoning

  /** handed says whether the delegation was given to the node, receipt what the chain says of it. */
  datatype State = State(
    lease: Lease, handler: HandlerPc, worker: WorkerPc, now: int,
    handed: bool, receipt: Option<bool>, attempts: seq<Attempt>)

  datatype Fault = Acked | NotApplied | Unacked

  datatype Event =
    | Tick(ms: nat)
    | MineDelegation(success: bool)
    | MineUndelegation(attempt: nat, success: bool)
    | Handle(ok: bool, fault: Fault)
    | Schedule
    | ListBroadcast
    | ListReady
    | Work(ok: bool, fault: Fault)
    | Crash

  /** createLease has committed. */
  function Init(now: int): State {
    State(Lease(Created, false, None, now, now), Signing, Idle, now, false, None, [])
  }

  // ---- the writes of the repository ---------------------------------------------------------------

  function Stamp(s: State, lease: Lease, fault: Fault): State {
    if fault.NotApplied? then s else s.(lease := lease.(updatedAt := s.now))
  }

  function MarkDelegateBroadcast(l: Lease): Lease {
    l.(state := Delegating, delegated := true)
  }

  function MarkDelegated(l: Lease): Lease {
    l.(state := Active, delegated := true)
  }

  function FailLease(l: Lease): Lease {
    l.(state := Failed)
  }

  function RetryRelease(l: Lease): Lease {
    l.(state := ReleasePending)
  }

  function MarkUndelegateBroadcast(l: Lease, attempt: nat): Lease {
    l.(state := ReleaseBroadcast, undelegation := Some(attempt))
  }

  function MarkReleased(l: Lease, attempt: nat): Lease {
    l.(state := Released, undelegation := Some(attempt))
  }

  function MarkWithoutDelegation(l: Lease): Lease {
    l.(state := FailedNoDelegation)
  }

  function ClaimForRelease(l: Lease): Lease {
    if l.state.ReleasePending? then l.(state := Releasing) else l
  }

  // ---- delegate ---------------------------------------------------------------------------------------

  function HandleStep(s: State, ok: bool, fault: Fault): State {
    match s.handler
    case Signing => s.(handler := if ok then MarkingDelegation else Failing)
    case MarkingDelegation =>
      Stamp(s, MarkDelegateBroadcast(s.lease), fault).(handler := if fault.Acked? then HandingDelegation else Failing)
    case HandingDelegation => s.(handed := true, handler := if ok then AwaitingDelegation else Backing)
    case AwaitingDelegation => s.(handler := if ok && s.receipt == Some(true) then Activating else Backing)
    case Activating =>
      Stamp(s, MarkDelegated(s.lease), fault).(handler := if fault.Acked? then Gone else Backing)
    case Backing => Stamp(s, RetryRelease(s.lease), fault).(handler := Gone)
    case Failing => Stamp(s, FailLease(s.lease), fault).(handler := Gone)
    case Gone => s
  }

  // ---- reclaimLoop and releaseLease -----------------------------------------------------------------

  function GiveUp(s: State, i: nat, given: Given): State
    requires i < |s.attempts|
  {
    s.(attempts := s.attempts[i := s.attempts[i].(given := given)], worker := GivingUp(i))
  }

  /** Reconciliation of an undelegation the row holds. */
  function Reconcile(s: State, i: nat, updatedAt: int): State
    requires i < |s.attempts|
  {
    if s.attempts[i].receipt == Some(true) then s.(worker := Finishing(i))
    else if s.attempts[i].receipt == Some(false) then GiveUp(s, i, SeenFailed)
    else if s.now - updatedAt > REBROADCAST_AFTER_MS then GiveUp(s, i, SeenOverdue(s.now))
    else s.(worker := Idle)
  }

  /** The delegation must be on the chain and successful before it is undone. */
  function Check(s: State): State {
    if !s.lease.delegated then s.(worker := Undelegating)
    else if s.receipt.None? then
      s.(worker := if s.now - s.lease.createdAt > DELEGATION_VISIBLE_MS then Abandoning else Retrying)
    else s.(worker := if s.receipt.value then Undelegating else Abandoning)
  }

  function WorkStep(s: State, ok: bool, fault: Fault): State {
    match s.worker
    case Idle => s
    case Reconciling(i, updatedAt) => if i < |s.attempts| then Reconcile(s, i, updatedAt) else s
    case GivingUp(_) => Stamp(s, RetryRelease(s.lease), fault).(worker := Idle)
    case Finishing(i) => Stamp(s, MarkReleased(s.lease, i), fault).(worker := Idle)
    case Claiming =>
      var won := fault.Acked? && s.lease.state.ReleasePending?;
      Stamp(s, ClaimForRelease(s.lease), fault).(worker := if won then Checking else Idle)
    case Checking => if ok then Check(s) else s.(worker := Retrying)
    case Undelegating =>
      if ok then s.(attempts := s.attempts + [Attempt(false, None, None, Given.Waiting)],
        worker := Marking(|s.attempts|))
      else s.(worker := Retrying)
    case Marking(i) =>
      if i >= |s.attempts| then s else
      var marked := if fault.NotApplied? then s.attempts else s.attempts[i := s.attempts[i].(markedAt := Some(s.now))];
      Stamp(s, MarkUndelegateBroadcast(s.lease, i), fault).(
        attempts := marked, worker := if fault.Acked? then Handing(i) else Retrying)
    case Handing(i) =>
      if i >= |s.attempts| then s else
      s.(attempts := s.attempts[i := s.attempts[i].(handed := true)], worker := if ok then Awaiting(i) else Idle)
    case Awaiting(i) =>
      s.(worker := if ok && i < |s.attempts| && s.attempts[i].receipt == Some(true) then Finishing(i) else Idle)
    case Retrying => Stamp(s, RetryRelease(s.lease), fault).(worker := Idle)
    case Abandoning => Stamp(s, MarkWithoutDelegation(s.lease),
      fault).(worker := if fault.Acked? then Idle else Retrying)
  }

  // ---- all events -------------------------------------------------------------------------------------

  /** Receipts are final, and only what was handed over can be on the chain. */
  function Next(s: State, e: Event): State {
    match e
    case Tick(ms) => s.(now := s.now + ms)
    case MineDelegation(success) => if s.handed && s.receipt.None? then s.(receipt := Some(success)) else s
    case MineUndelegation(i, success) =>
      if i < |s.attempts| && s.attempts[i].handed && s.attempts[i].receipt.None?
      then s.(attempts := s.attempts[i := s.attempts[i].(receipt := Some(success))]) else s
    case Handle(ok, fault) => HandleStep(s, ok, fault)
    // finality, expiry, a rejected broadcast or a failed preparation, once the handler has left delegate
    case Schedule =>
      if s.handler.Gone? && s.lease.state.Active? then s.(lease := RetryRelease(s.lease).(updatedAt := s.now)) else s
    case ListBroadcast =>
      if s.worker.Idle? && s.lease.state.ReleaseBroadcast? && s.lease.undelegation.Some?
      then s.(worker := Reconciling(s.lease.undelegation.value, s.lease.updatedAt)) else s
    case ListReady => if s.worker.Idle? && s.lease.state.ReleasePending? then s.(worker := Claiming) else s
    case Work(ok, fault) => WorkStep(s, ok, fault)
    case Crash => s.(handler := Gone, worker := Idle)
  }

  function Run(start: int, events: seq<Event>): State {
    if events == [] then Init(start) else Next(Run(start, events[..|events| - 1]), events[|events| - 1])
  }

  // ---- the invariant ----------------------------------------------------------------------------------

  /** Nobody is waiting for the attempt any more, for a reason that was seen. */
  predicate Settled(a: Attempt) {
    match a.given
    case Waiting => !a.handed
    case SeenFailed => a.receipt == Some(false)
    case SeenOverdue(at) => a.markedAt.Some? && at - a.markedAt.value > REBROADCAST_AFTER_MS
  }

  predicate AllSettled(attempts: seq<Attempt>) {
    forall i :: 0 <= i < |attempts| ==> Settled(attempts[i])
  }

  /** All but the last attempt are settled. */
  predicate OldSettled(attempts: seq<Attempt>) {
    forall i :: 0 <= i < |attempts| - 1 ==> Settled(attempts[i])
  }

  /** The row holds the last attempt, as marked. */
  predicate HoldsLast(s: State) {
    && s.attempts != [] && s.lease.undelegation == Some(|s.attempts| - 1)
    && s.attempts[|s.attempts| - 1].markedAt == Some(s.lease.updatedAt)
    && OldSettled(s.attempts)
  }

  predicate Succeeded(s: State, i: nat) {
    i < |s.attempts| && s.attempts[i].receipt == Some(true)
  }

  predicate HandlerOk(s: State) {
    && (s.handler.Signing? || s.handler.MarkingDelegation? || s.handler.HandingDelegation? || s.handler.Failing? ==>
      !s.handed)
    && (!s.handler.Gone? ==>
          && s.attempts == [] && s.worker.Idle?
          && (s.lease.state.Created? || s.lease.state.Delegating? || s.lease.state.Active?))
    && (s.lease.state.Failed? ==> s.handler.Gone? && !s.handed && s.worker.Idle? && s.attempts == [])
  }

  predicate LeaseOk(s: State) {
    match s.lease.state
    case ReleaseBroadcast => HoldsLast(s)
    case Released => s.lease.undelegation.Some? && Succeeded(s, s.lease.undelegation.value) && OldSettled(s.attempts)
    case _ => AllSettled(s.attempts)
  }

  predicate WorkerOk(s: State) {
    match s.worker
    case Idle => true
    case Claiming => s.lease.state.ReleasePending?
    case Reconciling(i, updatedAt) =>
      s.lease.state.ReleaseBroadcast? && HoldsLast(s) && i == |s.attempts| - 1 && updatedAt == s.lease.updatedAt
    case Finishing(i) => s.lease.state.ReleaseBroadcast? && HoldsLast(s) && i == |s.attempts| - 1 && Succeeded(s, i)
    case GivingUp(i) => s.lease.state.ReleaseBroadcast? && AllSettled(s.attempts)
    case Checking => s.lease.state.Releasing?
    case Undelegating => s.lease.state.Releasing?
    case Marking(i) => s.lease.state.Releasing? && i == |s.attempts| - 1 && !s.attempts[i].handed
      && s.attempts[i].given.Waiting?
    case Handing(i) =>
      s.lease.state.ReleaseBroadcast? && HoldsLast(s) && AllSettled(s.attempts) && i == |s.attempts| - 1
        && s.attempts[i].given.Waiting?
    case Awaiting(i) => s.lease.state.ReleaseBroadcast? && HoldsLast(s) && i == |s.attempts| - 1
    case Retrying =>
      AllSettled(s.attempts) && (s.lease.state.Releasing? || s.lease.state.ReleaseBroadcast?
        || s.lease.state.FailedNoDelegation?)
    case Abandoning => s.lease.state.Releasing?
  }

  predicate Inv(s: State) {
    HandlerOk(s) && LeaseOk(s) && WorkerOk(s)
  }

  lemma HandleKeepsInv(s: State, ok: bool, fault: Fault)
    requires Inv(s)
    ensures Inv(HandleStep(s, ok, fault))
  {
  }

  lemma SettledGrows(attempts: seq<Attempt>, i: nat, a: Attempt)
    requires i < |attempts|
    ensures OldSettled(attempts) && i == |attempts| - 1 && Settled(a) ==> AllSettled(attempts[i := a])
    ensures OldSettled(attempts) && i == |attempts| - 1 ==> OldSettled(attempts[i := a])
    ensures AllSettled(attempts) && Settled(a) ==> AllSettled(attempts[i := a])
    ensures OldSettled(attempts) && Settled(a) ==> OldSettled(attempts[i := a])
  {
  }

  lemma ReconcileKeepsInv(s: State, i: nat, updatedAt: int)
    requires Inv(s) && s.worker == Reconciling(i, updatedAt)
    ensures Inv(Reconcile(s, i, updatedAt))
  {
    SettledGrows(s.attempts, i, s.attempts[i].(given := SeenFailed));
    SettledGrows(s.attempts, i, s.attempts[i].(given := SeenOverdue(s.now)));
  }

  lemma MarkingKeepsInv(s: State, ok: bool, fault: Fault)
    requires Inv(s) && s.worker.Marking?
    ensures Inv(WorkStep(s, ok, fault))
  {
    var i := s.worker.attempt;
    SettledGrows(s.attempts, i, s.attempts[i].(markedAt := Some(s.now)));
  }

  lemma HandingKeepsInv(s: State, ok: bool, fault: Fault)
    requires Inv(s) && s.worker.Handing?
    ensures Inv(WorkStep(s, ok, fault))
  {
    var i := s.worker.attempt;
    SettledGrows(s.attempts, i, s.attempts[i].(handed := true));
  }

  lemma ClosingKeepsInv(s: State, ok: bool, fault: Fault)
    requires Inv(s) && (s.worker.Finishing? || s.worker.Awaiting? || s.worker.GivingUp?)
    ensures Inv(WorkStep(s, ok, fault))
  {
  }

  lemma OpeningKeepsInv(s: State, ok: bool, fault: Fault)
    requires Inv(s) && (s.worker.Claiming? || s.worker.Checking? || s.worker.Undelegating?)
    ensures Inv(WorkStep(s, ok, fault))
  {
  }

  lemma BackingKeepsInv(s: State, ok: bool, fault: Fault)
    requires Inv(s) && (s.worker.Retrying? || s.worker.Abandoning?)
    ensures Inv(WorkStep(s, ok, fault))
  {
  }

  lemma WorkKeepsInv(s: State, ok: bool, fault: Fault)
    requires Inv(s)
    ensures Inv(WorkStep(s, ok, fault))
  {
    hide Inv;
    match s.worker
    case Idle =>
    case Reconciling(i, updatedAt) =>
      if i < |s.attempts| {
        ReconcileKeepsInv(s, i, updatedAt);
      }
    case Marking(_) => MarkingKeepsInv(s, ok, fault);
    case Handing(_) => HandingKeepsInv(s, ok, fault);
    case Finishing(_) => ClosingKeepsInv(s, ok, fault);
    case Awaiting(_) => ClosingKeepsInv(s, ok, fault);
    case GivingUp(_) => ClosingKeepsInv(s, ok, fault);
    case Retrying => BackingKeepsInv(s, ok, fault);
    case Abandoning => BackingKeepsInv(s, ok, fault);
    case _ => OpeningKeepsInv(s, ok, fault);
  }

  /** A receipt that was not there before settles nothing that was not settled, and unsettles nothing. */
  lemma MiningKeepsInv(s: State, i: nat, success: bool)
    requires Inv(s)
    ensures Inv(Next(s, MineUndelegation(i, success)))
  {
    if i < |s.attempts| && s.attempts[i].handed && s.attempts[i].receipt.None? {
      SettledGrows(s.attempts, i, s.attempts[i].(receipt := Some(success)));
    }
  }

  lemma NextKeepsInv(s: State, e: Event)
    requires Inv(s)
    ensures Inv(Next(s, e))
  {
    match e
    case Handle(ok, fault) => HandleKeepsInv(s, ok, fault);
    case Work(ok, fault) => WorkKeepsInv(s, ok, fault);
    case MineUndelegation(i, success) => MiningKeepsInv(s, i, success);
    case _ =>
  }

  lemma {:induction false} RunInv(start: int, events: seq<Event>)
    ensures Inv(Run(start, events))
  {
    if events != [] {
      RunInv(start, events[..|events| - 1]);
      NextKeepsInv(Run(start, events[..|events| - 1]), events[|events| - 1]);
    }
  }

  // ---- what the lease promises ------------------------------------------------------------------------

  /** The step gives undelegation i to the node. */
  predicate Hands(s: State, s': State, i: nat) {
    i < |s'.attempts| && s'.attempts[i].handed && (i < |s.attempts| ==> !s.attempts[i].handed)
  }

  lemma HandsAtHanding(s: State, e: Event, i: nat)
    requires Hands(s, Next(s, e), i)
    ensures e.Work? && s.worker == Handing(i) && i < |s.attempts|
  {
  }

  /**
   * An undelegation is given to the node only when every other one was never given to it, was seen
   * to fail on the chain, or stayed unobserved for more than three minutes after it was marked.
   */
  lemma NoOverlappingUndelegation(start: int, events: seq<Event>, s: State, e: Event, i: nat, j: nat)
    requires s == Run(start, events) && Hands(s, Next(s, e), i)
    requires j != i && j < |s.attempts|
    ensures var other := s.attempts[j];
      || !other.handed
      || (other.given.SeenFailed? && other.receipt == Some(false))
      || (other.given.SeenOverdue? && other.markedAt.Some?
        && other.given.at - other.markedAt.value > REBROADCAST_AFTER_MS)
  {
    hide Run;
    RunInv(start, events);
    HandsAtHanding(s, e, i);
    assert Settled(s.attempts[j]);
  }

  /** A lease whose delegation was given to the node is never marked as failed. */
  lemma HandedNeverFails(start: int, events: seq<Event>)
    requires Run(start, events).handed
    ensures !Run(start, events).lease.state.Failed?
  {
    RunInv(start, events);
  }

  /** A lease is marked as released only if the undelegation it names succeeded on the chain. */
  lemma ReleasedIsUndelegated(start: int, events: seq<Event>)
    requires Run(start, events).lease.state.Released?
    ensures var s := Run(start, events);
      s.lease.undelegation.Some? && s.lease.undelegation.value < |s.attempts|
      && s.attempts[s.lease.undelegation.value].receipt == Some(true)
  {
    RunInv(start, events);
  }

  // ---- what is undone was done ---------------------------------------------------------------------------

  /** The worker is past its check of the delegation, or has been. */
  predicate PastCheck(s: State) {
    s.attempts != [] || s.worker.Undelegating?
  }

  /** Given up on: the delegation failed, or could have been seen for ten minutes. */
  predicate MayAbandon(s: State) {
    s.receipt == Some(false) || s.now - s.lease.createdAt > DELEGATION_VISIBLE_MS
  }

  predicate CheckInv(s: State) {
    && (s.handler.Activating? || s.lease.state.Active? ==> s.receipt == Some(true))
    && (PastCheck(s) && s.lease.delegated ==> s.receipt == Some(true))
    && (s.worker.Abandoning? || s.lease.state.FailedNoDelegation? ==> s.lease.delegated && MayAbandon(s))
  }

  lemma ReconcileKeepsCheck(s: State, i: nat, updatedAt: int)
    requires CheckInv(s) && i < |s.attempts| && s.worker == Reconciling(i, updatedAt)
    ensures CheckInv(Reconcile(s, i, updatedAt))
  {
  }

  lemma CheckingKeepsCheck(s: State, ok: bool, fault: Fault)
    requires CheckInv(s) && (s.worker.Checking? || s.worker.Claiming? || s.worker.Undelegating?)
    ensures CheckInv(WorkStep(s, ok, fault))
  {
  }

  lemma HandingKeepsCheck(s: State, ok: bool, fault: Fault)
    requires CheckInv(s) && (s.worker.Marking? || s.worker.Handing? || s.worker.Awaiting?)
    ensures CheckInv(WorkStep(s, ok, fault))
  {
  }

  lemma ClosingKeepsCheck(s: State, ok: bool, fault: Fault)
    requires CheckInv(s)
    requires s.worker.GivingUp? || s.worker.Finishing? || s.worker.Retrying? || s.worker.Abandoning?
    ensures CheckInv(WorkStep(s, ok, fault))
  {
  }

  lemma WorkKeepsCheck(s: State, ok: bool, fault: Fault)
    requires Inv(s) && CheckInv(s)
    ensures CheckInv(WorkStep(s, ok, fault))
  {
    hide Inv, CheckInv, Reconcile;
    match s.worker
    case Idle =>
    case Reconciling(i, updatedAt) =>
      if i < |s.attempts| {
        ReconcileKeepsCheck(s, i, updatedAt);
      }
    case Checking => CheckingKeepsCheck(s, ok, fault);
    case Claiming => CheckingKeepsCheck(s, ok, fault);
    case Undelegating => CheckingKeepsCheck(s, ok, fault);
    case Marking(_) => HandingKeepsCheck(s, ok, fault);
    case Handing(_) => HandingKeepsCheck(s, ok, fault);
    case Awaiting(_) => HandingKeepsCheck(s, ok, fault);
    case _ => ClosingKeepsCheck(s, ok, fault);
  }

  lemma HandleKeepsCheck(s: State, ok: bool, fault: Fault)
    requires Inv(s) && CheckInv(s)
    ensures CheckInv(HandleStep(s, ok, fault))
  {
  }

  lemma NextKeepsCheck(s: State, e: Event)
    requires Inv(s) && CheckInv(s)
    ensures CheckInv(Next(s, e))
  {
    match e
    case Handle(ok, fault) => HandleKeepsCheck(s, ok, fault);
    case Work(ok, fault) => WorkKeepsCheck(s, ok, fault);
    case _ =>
  }

  lemma {:induction false} RunCheck(start: int, events: seq<Event>)
    ensures CheckInv(Run(start, events))
  {
    if events != [] {
      RunInv(start, events[..|events| - 1]);
      RunCheck(start, events[..|events| - 1]);
      NextKeepsCheck(Run(start, events[..|events| - 1]), events[|events| - 1]);
    }
  }

  /** An undelegation is built only after the delegation was seen to succeed, if the row holds a delegation. */
  lemma OnlyDelegatedIsUndone(start: int, events: seq<Event>)
    requires Run(start, events).attempts != [] && Run(start, events).lease.delegated
    ensures Run(start, events).receipt == Some(true)
  {
    RunCheck(start, events);
  }

  /** A lease is given up as not delegated only if its delegation failed, or ten minutes went by without seeing it. */
  lemma AbandonedIsOverdue(start: int, events: seq<Event>)
    requires Run(start, events).lease.state.FailedNoDelegation?
    ensures var s := Run(start, events);
      s.lease.delegated && (s.receipt == Some(false) || s.now - s.lease.createdAt > DELEGATION_VISIBLE_MS)
  {
    RunCheck(start, events);
  }

  /** A lease is active only if its delegation succeeded on the chain. */
  lemma ActiveIsDelegated(start: int, events: seq<Event>)
    requires Run(start, events).lease.state.Active?
    ensures Run(start, events).receipt == Some(true)
  {
    RunCheck(start, events);
  }

  /**
   * What reconciliation makes of an undelegation the row holds, once its write is carried out: RELEASED if it
   * succeeded, ready to be tried again if it failed or stayed unobserved too long, and no change otherwise.
   */
  lemma ReconciliationDecides(start: int, events: seq<Event>, fault: Fault)
    requires Run(start, events).worker.Reconciling? && !fault.NotApplied?
    ensures var s := Run(start, events);
      var looked := Next(s, Work(true, Acked));
      var done, i := Next(looked, Work(true, fault)), s.worker.attempt;
      && i < |s.attempts|
      && (s.attempts[i].receipt == Some(true) ==> done.lease.state.Released? && done.lease.undelegation == Some(i))
      && (s.attempts[i].receipt == Some(false) ==> done.lease.state.ReleasePending?)
      && (s.attempts[i].receipt.None? && s.now - s.lease.updatedAt > REBROADCAST_AFTER_MS ==>
            done.lease.state.ReleasePending?)
      && (s.attempts[i].receipt.None? && s.now - s.lease.updatedAt <= REBROADCAST_AFTER_MS ==>
            looked.worker.Idle? && looked.lease == s.lease)
  {
    RunInv(start, events);
  }
}
