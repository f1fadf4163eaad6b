/** Which package of energy each provider would sell, and the cheapest one that fits. */
module EnergyPackages {
  import opened Options
  import opened Schema
  import opened ProviderRepository

  const MAX_SAFE_INTEGER: nat := 0x1F_FFFF_FFFF_FFFF

  /** A provider adapter's package rules; the second one is optional. */
  datatype Adapter = Adapter(
    resolve: int -> Option<int>,
    resolveAtLeast: Option<(int, int) -> Option<int>>)

  type Registry = map<nat, Adapter>

  function ResolveEnergyAmount(adapter: Adapter, requested: int, minimum: Option<int>): (r: Option<int>)
    ensures r.Some? && minimum.Some? ==> r.value >= minimum.value
    ensures var own := adapter.resolve(requested);
      && (own.None? ==> r.None?)
      && (own.Some? && (minimum.Some? ==> own.value >= minimum.value) ==> r == own)
      && (r.Some? && r != own ==> minimum.Some? && own.value < minimum.value && adapter.resolveAtLeast.Some?)
  {
    var resolved := adapter.resolve(requested);
    if resolved.None? then None
    else if minimum.None? || resolved.value >= minimum.value then resolved
    else
      var upgraded := if adapter.resolveAtLeast.Some? then adapter.resolveAtLeast.value(requested,
        minimum.value) else None;
      if upgraded.Some? && upgraded.value >= minimum.value then upgraded else None
  }

  /** The package a provider of the given type offers, if its adapter is registered. */
  function Offered(registry: Registry, adapter: nat, requested: int, minimum: Option<int>): Option<int> {
    if adapter in registry then ResolveEnergyAmount(registry[adapter], requested, minimum) else None
  }

  /** The provider offers exactly this package and it is within the provider's per-order cap. */
  predicate Compatible(registry: Registry, provider: Provider, requested: int, minimum: Option<int>, amount: int) {
    Offered(registry, provider.adapter, requested, minimum) == Some(amount)
      && amount <= provider.limits.maxEnergyPerOrder
  }

  datatype Quote = OutOfRange | NoPackage | Package(amount: int)

  /** A quote is the least compatible package of the listed providers, or none when there is none. */
  predicate IsQuote(registry: Registry, providers: seq<Provider>, requested: int, minimum: Option<int>, quote: Quote) {
    match quote
    case OutOfRange => !ValidEnergyAmount(requested) || (minimum.Some? && !ValidEnergyAmount(minimum.value))
    case NoPackage =>
      && ValidEnergyAmount(requested) && (minimum.Some? ==> ValidEnergyAmount(minimum.value))
      && forall i :: 0 <= i < |providers| ==>
           var offer := Offered(registry, providers[i].adapter, requested, minimum);
           offer.Some? ==> offer.value > providers[i].limits.maxEnergyPerOrder
    case Package(amount) =>
      && ValidEnergyAmount(requested) && (minimum.Some? ==> ValidEnergyAmount(minimum.value))
      && (exists i :: 0 <= i < |providers| && Compatible(registry, providers[i], requested, minimum, amount))
      && forall i :: 0 <= i < |providers| ==>
           var offer := Offered(registry, providers[i].adapter, requested, minimum);
           offer.Some? && offer.value <= providers[i].limits.maxEnergyPerOrder ==> amount <= offer.value
  }

  method QuoteMinimumEnergyAmount(registry: Registry, providers: seq<Provider>, requested: int, minimum: Option<int>)
    returns (quote: Quote)
    ensures IsQuote(registry, providers, requested, minimum, quote)
  {
    if !ValidEnergyAmount(requested) || (minimum.Some? && !ValidEnergyAmount(minimum.value)) {
      return OutOfRange;
    }
    quote := NoPackage;
    for i := 0 to |providers|
      invariant IsQuote(registry, providers[..i], requested, minimum, quote)
    {
      var offer := Offered(registry, providers[i].adapter, requested, minimum);
      var before := quote;
      assert providers[..i + 1][i] == providers[i];
      assert forall j :: 0 <= j < i ==> providers[..i + 1][j] == providers[..i][j];
      if offer.Some? && offer.value <= providers[i].limits.maxEnergyPerOrder && (quote.NoPackage?
        || offer.value < quote.amount) {
        quote := Package(offer.value);
        assert Compatible(registry, providers[..i + 1][i], requested, minimum, offer.value);
      } else if quote.Package? {
        var j :| 0 <= j < i && Compatible(registry, providers[..i][j], requested, minimum, quote.amount);
        assert Compatible(registry, providers[..i + 1][j], requested, minimum, quote.amount);
      }
    }
    assert providers[..|providers|] == providers;
  }

  /** The quote is fixed by its meaning, and it covers the minimum it was asked for. */
  lemma QuoteIsUnique(registry: Registry, providers: seq<Provider>, requested: int, minimum: Option<int>, a: Quote,
      b: Quote)
    requires IsQuote(registry, providers, requested, minimum, a)
    requires IsQuote(registry, providers, requested, minimum, b)
    ensures a == b
    ensures a.Package? && minimum.Some? ==> a.amount >= minimum.value
  {
    if a.Package? {
      var i :| 0 <= i < |providers| && Compatible(registry, providers[i], requested, minimum, a.amount);
    }
    if b.Package? {
      var i :| 0 <= i < |providers| && Compatible(registry, providers[i], requested, minimum, b.amount);
    }
  }

  // ---- the Kuaizu adapter ------------------------------------------------------------

  const KUAIZU_SINGLE_PACKAGE: int := 65_000
  const KUAIZU_DOUBLE_PACKAGE: int := 131_000

  predicate SafePositive(amount: int) {
    1 <= amount <= MAX_SAFE_INTEGER
  }

  function KuaizuResolve(threshold: int, requested: int): Option<int> {
    if !SafePositive(requested) then None
    else if requested < threshold then Some(KUAIZU_SINGLE_PACKAGE)
    else Some(KUAIZU_DOUBLE_PACKAGE)
  }

  function KuaizuResolveAtLeast(threshold: int, requested: int, minimum: int): Option<int> {
    if !SafePositive(minimum) then None
    else
      var resolved := KuaizuResolve(threshold, requested);
      if resolved.None? || resolved.value >= minimum then resolved
      else if KUAIZU_DOUBLE_PACKAGE >= minimum then Some(KUAIZU_DOUBLE_PACKAGE)
      else None
  }

  function Kuaizu(threshold: int): Adapter {
    Adapter(
      requested => KuaizuResolve(threshold, requested),
      Some((requested, minimum) => KuaizuResolveAtLeast(threshold, requested, minimum)))
  }

  /** The packages on sale, the larger one alone from the threshold on. */
  predicate KuaizuSells(threshold: int, requested: int, amount: int) {
    (amount == KUAIZU_SINGLE_PACKAGE && requested < threshold) || amount == KUAIZU_DOUBLE_PACKAGE
  }

  /**
   * The amount Kuaizu is asked for is the least package on sale that reaches the minimum,
   * and asking again with that amount as the minimum gives the same amount.
   */
  lemma KuaizuOrdersLeastPackage(threshold: int, requested: int, minimum: int)
    requires SafePositive(requested) && SafePositive(minimum)
    ensures var r := ResolveEnergyAmount(Kuaizu(threshold), requested, Some(minimum));
      && (r.None? <==> forall a :: KuaizuSells(threshold, requested, a) ==> a < minimum)
      && (r.Some? ==>
          && KuaizuSells(threshold, requested, r.value) && r.value >= minimum
          && (forall a :: KuaizuSells(threshold, requested, a) && a >= minimum ==> r.value <= a)
          && ResolveEnergyAmount(Kuaizu(threshold), requested, Some(r.value)) == r)
  {
    assert KuaizuSells(threshold, requested, KUAIZU_DOUBLE_PACKAGE);
  }
}
