/** The budget report of the admin interface, and the admission check it foretells. */
module BudgetStatus {
  import opened Schema
  import opened Totals
  import opened Gateway
  import opened Budget
  import P = ProviderRepository

  /** Rows of a day by what they stand for: attempts under way, orders paid for, attempts given up. */
  datatype Usage = Usage(
    reservedOrders: nat, reservedEnergy: nat, chargedOrders: nat, chargedEnergy: nat, releasedOrders: nat,
      releasedEnergy: nat)

  const NO_USAGE := Usage(0, 0, 0, 0, 0, 0)

  function CountOf(row: LedgerRow, d: Day, state: LedgerState): nat {
    if row.day == d && row.state == state then 1 else 0
  }

  function EnergyOf(row: LedgerRow, d: Day, state: LedgerState): nat {
    if row.day == d && row.state == state then row.amount else 0
  }

  function Counts(ledger: Ledger, d: Day, state: LedgerState): map<(TxId, ProviderId), nat> {
    map k | k in ledger :: CountOf(ledger[k], d, state)
  }

  function Energies(ledger: Ledger, d: Day, state: LedgerState): map<(TxId, ProviderId), nat> {
    map k | k in ledger :: EnergyOf(ledger[k], d, state)
  }

  /** The aggregates of the report's query over a set of rows. */
  ghost function UsageOf(ledger: Ledger, d: Day): Usage {
    Usage(
      Total(Counts(ledger, d, Reserved)), Total(Energies(ledger, d, Reserved)),
      Total(Counts(ledger, d, Charged)), Total(Energies(ledger, d, Charged)),
      Total(Counts(ledger, d, Released)), Total(Energies(ledger, d, Released)))
  }

  function AddUsage(a: Usage, b: Usage): Usage {
    Usage(
      a.reservedOrders + b.reservedOrders, a.reservedEnergy + b.reservedEnergy,
      a.chargedOrders + b.chargedOrders, a.chargedEnergy + b.chargedEnergy,
      a.releasedOrders + b.releasedOrders, a.releasedEnergy + b.releasedEnergy)
  }

  function SumUsage(usages: seq<Usage>): Usage {
    if usages == [] then NO_USAGE else AddUsage(usages[0], SumUsage(usages[1..]))
  }

  function NonNegativeDifference(limit: nat, used: nat): nat {
    if limit > used then limit - used else 0
  }

  function UsedOrders(u: Usage): nat {
    u.reservedOrders + u.chargedOrders
  }

  function UsedEnergy(u: Usage): nat {
    u.reservedEnergy + u.chargedEnergy
  }

  /** What a report promises under a set of limits. */
  predicate Promises(limits: Limits, u: Usage, amount: nat) {
    && NonNegativeDifference(limits.dailyOrders, UsedOrders(u)) >= 1
    && NonNegativeDifference(limits.dailyEnergy, UsedEnergy(u)) >= amount
  }

  /** The per-provider lines, one for each provider in the listing. */
  ghost function ProviderUsages(ledger: Ledger, listing: seq<ProviderId>, d: Day): seq<Usage> {
    seq(|listing|, i requires 0 <= i < |listing| => UsageOf(P.RowsOfProvider(ledger, listing[i]), d))
  }

  predicate Distinct(listing: seq<ProviderId>) {
    forall i, j :: 0 <= i < j < |listing| ==> listing[i] != listing[j]
  }

  function WithoutProvider(ledger: Ledger, p: ProviderId): Ledger {
    map k | k in ledger && k.1 != p :: ledger[k]
  }

  /** The rows of l are those of a and b together, as far as a state of a day is concerned. */
  ghost predicate Splits(l: Ledger, a: Ledger, b: Ledger, d: Day, state: LedgerState) {
    && Total(Counts(l, d, state)) == Total(Counts(a, d, state)) + Total(Counts(b, d, state))
    && Total(Energies(l, d, state)) == Total(Energies(a, d, state)) + Total(Energies(b, d, state))
  }

  lemma SplitsAddUp(l: Ledger, a: Ledger, b: Ledger, d: Day)
    requires Splits(l, a, b, d, Reserved) && Splits(l, a, b, d, Charged) && Splits(l, a, b, d, Released)
    ensures UsageOf(l, d) == AddUsage(UsageOf(a, d), UsageOf(b, d))
  {
    hide Total, Counts, Energies;
  }

  lemma UsageSplits(ledger: Ledger, p: ProviderId, d: Day)
    ensures UsageOf(ledger, d) == AddUsage(UsageOf(P.RowsOfProvider(ledger, p), d), UsageOf(WithoutProvider(ledger,
      p), d))
  {
    hide UsageOf, Splits;
    CountsSplit(ledger, p, d, Reserved);
    CountsSplit(ledger, p, d, Charged);
    CountsSplit(ledger, p, d, Released);
    SplitsAddUp(ledger, P.RowsOfProvider(ledger, p), WithoutProvider(ledger, p), d);
  }

  lemma CountsSplit(ledger: Ledger, p: ProviderId, d: Day, state: LedgerState)
    ensures Splits(ledger, P.RowsOfProvider(ledger, p), WithoutProvider(ledger, p), d, state)
  {
    hide Total;
    var a, b := P.RowsOfProvider(ledger, p), WithoutProvider(ledger, p);
    TotalPartition(Counts(ledger, d, state), Counts(a, d, state), Counts(b, d, state));
    TotalPartition(Energies(ledger, d, state), Energies(a, d, state), Energies(b, d, state));
  }

  lemma NoRowsNoUsage(d: Day)
    ensures UsageOf(map[], d) == NO_USAGE
  {
    hide Total;
    TotalZero(Counts(map[], d, Reserved));
    TotalZero(Counts(map[], d, Charged));
    TotalZero(Counts(map[], d, Released));
    TotalZero(Energies(map[], d, Reserved));
    TotalZero(Energies(map[], d, Charged));
    TotalZero(Energies(map[], d, Released));
  }

  lemma OtherRows(ledger: Ledger, p: ProviderId, q: ProviderId)
    requires q != p
    ensures P.RowsOfProvider(WithoutProvider(ledger, p), q) == P.RowsOfProvider(ledger, q)
  {
  }

  lemma LinesOfOthers(ledger: Ledger, listing: seq<ProviderId>, d: Day)
    requires Distinct(listing) && listing != []
    ensures ProviderUsages(ledger, listing, d)[1..] == ProviderUsages(WithoutProvider(ledger, listing[0]),
      listing[1..], d)
  {
    hide UsageOf, P.RowsOfProvider, WithoutProvider;
    var rest, others := WithoutProvider(ledger, listing[0]), listing[1..];
    forall i | 0 <= i < |others|
      ensures P.RowsOfProvider(rest, others[i]) == P.RowsOfProvider(ledger, others[i])
    {
      OtherRows(ledger, listing[0], others[i]);
    }
  }

  /** The lines of the report add up to the whole ledger: nothing is counted twice or left out. */
  lemma {:induction false} LinesAddUp(ledger: Ledger, listing: seq<ProviderId>, d: Day)
    requires Distinct(listing) && forall k :: k in ledger ==> k.1 in listing
    ensures SumUsage(ProviderUsages(ledger, listing, d)) == UsageOf(ledger, d)
    decreases |listing|
  {
    if listing == [] {
      assert ledger == map[];
      NoRowsNoUsage(d);
    } else {
      hide UsageOf, P.RowsOfProvider;
      var p, others := listing[0], listing[1..];
      var rest := WithoutProvider(ledger, p);
      LinesAddUp(rest, others, d);
      UsageSplits(ledger, p, d);
      LinesOfOthers(ledger, listing, d);
    }
  }

  /** Where one row counts: its state says in which figures, its day whether at all. */
  function RowUsage(row: LedgerRow, d: Day): Usage {
    if row.day != d then NO_USAGE
    else
      match row.state
      case Reserved => NO_USAGE.(reservedOrders := 1, reservedEnergy := row.amount)
      case Charged => NO_USAGE.(chargedOrders := 1, chargedEnergy := row.amount)
      case Released => NO_USAGE.(releasedOrders := 1, releasedEnergy := row.amount)
  }

  lemma CountsGrow(ledger: Ledger, k: (TxId, ProviderId), row: LedgerRow, d: Day, state: LedgerState)
    requires k !in ledger
    ensures Total(Counts(ledger[k := row], d, state)) == Total(Counts(ledger, d, state)) + CountOf(row, d, state)
    ensures Total(Energies(ledger[k := row], d, state)) == Total(Energies(ledger, d, state)) + EnergyOf(row, d, state)
  {
    TotalUpdate(Counts(ledger, d, state), k, CountOf(row, d, state));
    TotalUpdate(Energies(ledger, d, state), k, EnergyOf(row, d, state));
    assert Counts(ledger[k := row], d, state) == Counts(ledger, d, state)[k := CountOf(row, d, state)];
    assert Energies(ledger[k := row], d, state) == Energies(ledger, d, state)[k := EnergyOf(row, d, state)];
  }

  /** Every row counts once, in the figures of its state; an empty ledger counts nothing. */
  lemma EachRowCounts(ledger: Ledger, k: (TxId, ProviderId), row: LedgerRow, d: Day)
    requires k !in ledger
    ensures UsageOf(map[], d) == NO_USAGE
    ensures UsageOf(ledger[k := row], d) == AddUsage(UsageOf(ledger, d), RowUsage(row, d))
  {
    hide Total, Counts, Energies, CountOf, EnergyOf, RowUsage;
    NoRowsNoUsage(d);
    CountsGrow(ledger, k, row, d, Reserved);
    CountsGrow(ledger, k, row, d, Charged);
    CountsGrow(ledger, k, row, d, Released);
    RowUsageIs(row, d);
  }

  lemma RowUsageIs(row: LedgerRow, d: Day)
    ensures RowUsage(row, d) == Usage(
      CountOf(row, d, Reserved), EnergyOf(row, d, Reserved), CountOf(row, d, Charged), EnergyOf(row, d, Charged),
      CountOf(row, d, Released), EnergyOf(row, d, Released))
  {
  }

  lemma OrdersInUse(ledger: Ledger, d: Day)
    ensures Total(Counts(ledger, d, Reserved)) + Total(Counts(ledger, d, Charged)) == P.OrdersOn(ledger, d)
  {
    hide Total;
    TotalSum(P.OrderWeights(ledger, d), Counts(ledger, d, Reserved), Counts(ledger, d, Charged));
  }

  lemma EnergyInUse(ledger: Ledger, d: Day)
    ensures Total(Energies(ledger, d, Reserved)) + Total(Energies(ledger, d, Charged)) == P.EnergyOn(ledger, d)
  {
    hide Total;
    TotalSum(P.EnergyWeights(ledger, d), Energies(ledger, d, Reserved), Energies(ledger, d, Charged));
  }

  /** Rows in use are the reserved and the charged ones. */
  lemma UsedIsInUse(ledger: Ledger, d: Day)
    ensures UsedOrders(UsageOf(ledger, d)) == P.OrdersOn(ledger, d)
    ensures UsedEnergy(UsageOf(ledger, d)) == P.EnergyOn(ledger, d)
  {
    hide Total, Counts, Energies, P.OrdersOn, P.EnergyOn;
    OrdersInUse(ledger, d);
    EnergyInUse(ledger, d);
  }

  lemma RemainingDecides(limits: Limits, ledger: Ledger, amount: nat, d: Day)
    requires amount >= 1
    ensures Promises(limits, UsageOf(ledger, d), amount) <==>
      P.OrdersOn(ledger, d) + 1 <= limits.dailyOrders && P.EnergyOn(ledger, d) + amount <= limits.dailyEnergy
  {
    hide UsageOf, P.OrdersOn, P.EnergyOn;
    UsedIsInUse(ledger, d);
  }

  /**
   * In every reachable state an attempt passes the budget check exactly when the report shows
   * that much left, on its global line and on the provider's own, and no per-order cap is exceeded.
   */
  lemma ReportForetellsAdmission(cfg: Config, s: State, listing: seq<ProviderId>, p: ProviderId, amount: nat, d: Day)
    requires Reachable(cfg, s) && Distinct(listing) && (forall q :: q in listing <==> q in s.db.providers)
    requires p in listing && amount >= 1
    ensures var own := s.db.providers[p].limits;
      P.Affordable(s.db, cfg.limits, p, amount, d) <==>
        && amount <= cfg.limits.maxEnergyPerOrder && amount <= own.maxEnergyPerOrder
        && Promises(cfg.limits, SumUsage(ProviderUsages(s.db.ledger, listing, d)), amount)
        && Promises(own, UsageOf(P.RowsOfProvider(s.db.ledger, p), d), amount)
  {
    hide Run, WithinBudget, Promises, UsageOf;
    var events :| s == Run(cfg, events);
    RunBudget(cfg, events);
    LinesAddUp(s.db.ledger, listing, d);
    RemainingDecides(cfg.limits, s.db.ledger, amount, d);
    RemainingDecides(s.db.providers[p].limits, P.RowsOfProvider(s.db.ledger, p), amount, d);
  }
}
