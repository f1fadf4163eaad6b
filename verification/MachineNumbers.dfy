/**
 * A big integer turned into a machine number: the nearest integer a double can hold, the even one of two
 * that are equally near.
 */
module MachineNumbers {

  /** 2^53, from where on doubles no longer hold every integer. */
  const FIRST_UNSAFE: nat := 0x20_0000_0000_0000

  /** The distance between neighbouring doubles at n. */
  function Spacing(n: nat): (u: nat)
    ensures u >= 1
  {
    if n < FIRST_UNSAFE then 1 else 2 * Spacing(n / 2)
  }

  function Rounded(n: nat): nat {
    var u := Spacing(n);
    var q, r := n / u, n % u;
    if 2 * r < u || (2 * r == u && q % 2 == 0) then q * u else (q + 1) * u
  }

  lemma {:induction false} SpacingBounds(n: nat)
    ensures n < FIRST_UNSAFE * Spacing(n)
    ensures n >= FIRST_UNSAFE ==> Spacing(n) % 2 == 0 && 2 * n >= FIRST_UNSAFE * Spacing(n)
  {
    if n >= FIRST_UNSAFE {
      SpacingBounds(n / 2);
    }
  }

  lemma SafeIsKept(n: nat)
    requires n < FIRST_UNSAFE
    ensures Rounded(n) == n
  {
  }

  lemma QuotientReaches(n: nat, u: nat, floor: nat)
    requires u >= 1 && n >= floor * u
    ensures n / u >= floor && n / u * u >= floor * u
  {
    var q := n / u;
    Division(n, u);
    if q < floor {
      TimesGrows(q + 1, floor, u);
      assert false;
    }
    TimesGrows(floor, q, u);
  }

  lemma TimesGrows(a: nat, b: nat, u: nat)
    requires a <= b
    ensures a * u <= b * u
  {
  }

  lemma Division(n: nat, u: nat)
    requires u >= 1
    ensures n == n / u * u + n % u && (n / u + 1) * u == n / u * u + u
  {
  }

  /** Rounding does not cross a power of two downwards. */
  lemma RoundedStaysAbove(n: nat)
    requires n >= FIRST_UNSAFE
    ensures Rounded(n) >= FIRST_UNSAFE
    ensures n >= 2 * FIRST_UNSAFE ==> Rounded(n) >= 2 * FIRST_UNSAFE
  {
    var u := Spacing(n);
    SpacingBounds(n);
    QuotientReaches(n, u, FIRST_UNSAFE / 2);
    Division(n, u);
    assert u >= 2;
    assert n >= 2 * FIRST_UNSAFE ==> u >= 4;
  }

  /** The numbers a program can hold. */
  predicate IsDouble(n: nat) {
    Rounded(n) == n
  }

  lemma DoubleIsMultiple(n: nat)
    requires IsDouble(n)
    ensures n % Spacing(n) == 0
  {
    hide Spacing;
    Division(n, Spacing(n));
  }

  /** No other integer rounds to n. */
  predicate Unmistakable(n: nat) {
    n < FIRST_UNSAFE || (n < 2 * FIRST_UNSAFE && n / 2 % 2 == 1)
  }

  /** The next integer rounds to n as well. */
  lemma NextIsMistaken(n: nat)
    requires IsDouble(n) && !Unmistakable(n)
    ensures Rounded(n + 1) == n && n % 2 == 0
  {
    var u := Spacing(n);
    DoubleIsMultiple(n);
    SpacingBounds(n);
    MultipleIsEven(n, u);
    assert Spacing(n + 1) == u;
    NextQuotient(n, u);
    if n < 2 * FIRST_UNSAFE {
      assert Spacing(n / 2) == 1 && u == 2;
    } else {
      assert u > 2;
    }
  }

  lemma MultipleIsEven(n: nat, u: nat)
    requires u >= 1 && u % 2 == 0 && n % u == 0
    ensures n % 2 == 0
  {
    var k, half := n / u, u / 2;
    assert n == k * u == 2 * (k * half);
  }

  lemma NextQuotient(n: nat, u: nat)
    requires u >= 2 && n % u == 0
    ensures (n + 1) / u == n / u && (n + 1) % u == 1 && n / u * u == n
  {
    var k, q := n / u, (n + 1) / u;
    Division(n, u);
    Division(n + 1, u);
    if q > k {
      TimesGrows(k + 1, q, u);
    } else if q < k {
      TimesGrows(q + 1, k, u);
    }
  }

  /** From 2^53 to 2^54 every other integer is a double, and the one between two goes to the multiple of four. */
  lemma RoundedToEven(m: nat)
    requires FIRST_UNSAFE <= m < 2 * FIRST_UNSAFE
    ensures Rounded(m) == if m % 2 == 0 then m else if m / 2 % 2 == 0 then m - 1 else m + 1
  {
    assert Spacing(m / 2) == 1 && Spacing(m) == 2;
  }

  lemma OnlyItself(n: nat, m: nat)
    requires IsDouble(n) && Unmistakable(n) && Rounded(m) == n
    ensures m == n
  {
    hide Rounded;
    if m < FIRST_UNSAFE {
      SafeIsKept(m);
    } else {
      RoundedStaysAbove(m);
      RoundedToEven(m);
      RoundedToEven(n);
    }
  }

  /** Exactly when a machine number stands for one integer only. */
  lemma StandsForOneIff(n: nat)
    requires IsDouble(n)
    ensures Unmistakable(n) <==> forall m :: Rounded(m) == n ==> m == n
  {
    if Unmistakable(n) {
      forall m | Rounded(m) == n
        ensures m == n
      {
        OnlyItself(n, m);
      }
    } else {
      NextIsMistaken(n);
    }
  }
}
