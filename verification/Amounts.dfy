/**
 * What the comparisons of the resource contract mean as numbers: every finite double is a whole number of units
 * of 2^-1074, and a grant satisfies a contract by the order of those numbers (include/workload_fabric/resource.hpp).
 */
module Amounts {
  import opened Basics
  import opened Vocabulary
  import opened Hash
  import opened Resources
  import opened Codec

  // ---- The number a double stands for ----------------------------------------

  const HIDDEN_BIT: int := 0x10_0000_0000_0000

  /** Exponent and fraction of a double without its sign, put together: subnormal numbers have no hidden bit. */
  function Magnitude(k: nat): nat {
    var exponent, fraction := k / HIDDEN_BIT, k % HIDDEN_BIT;
    if exponent == 0 then fraction else (HIDDEN_BIT + fraction) * TwoTo(exponent - 1)
  }

  /** The value of a finite double, in units of 2^-1074. */
  function Units(d: F64): int {
    if d < TWO63 then Magnitude(d) else 0 - Magnitude(d - TWO63)
  }

  /** Which bit patterns are finite, and which are not numbers, whatever their sign. */
  lemma BitPatterns(d: F64)
    ensures IsFinite(d) <==> d % TWO63 < 0x7ff0_0000_0000_0000
    ensures IsNaN(d) <==> d % TWO63 > 0x7ff0_0000_0000_0000
  {
    assert d / 0x10_0000_0000_0000 % 0x800 == d % TWO63 / 0x10_0000_0000_0000;
    assert d % 0x10_0000_0000_0000 == d % TWO63 % 0x10_0000_0000_0000;
  }

  lemma {:induction false} TwoToGrows(i: nat, j: nat)
    requires i <= j
    ensures TwoTo(i) <= TwoTo(j)
  {
    if i < j {
      TwoToGrows(i, j - 1);
    }
  }

  lemma {:induction false} Product(x: nat, p: nat)
    requires x > 0 && p > 0
    ensures x * p >= p
  {
    if x > 1 {
      Product(x - 1, p);
      assert x * p == (x - 1) * p + p;
    }
  }

  lemma Scaled(a: nat, b: nat, i: nat)
    requires a < b
    ensures a * TwoTo(i) < b * TwoTo(i)
  {
    TwoToGrows(0, i);
    var p := TwoTo(i);
    hide TwoTo;
    Product(b - a, p);
    assert b * p == a * p + (b - a) * p;
  }

  lemma SameExponent(e: nat, f: nat, g: nat)
    requires f < g < HIDDEN_BIT
    ensures Magnitude(e * HIDDEN_BIT + f) < Magnitude(e * HIDDEN_BIT + g)
  {
    Parts(e, f);
    Parts(e, g);
    if e > 0 {
      Scaled(HIDDEN_BIT + f, HIDDEN_BIT + g, e - 1);
    }
  }

  lemma Parts(e: nat, f: nat)
    requires f < HIDDEN_BIT
    ensures (e * HIDDEN_BIT + f) / HIDDEN_BIT == e && (e * HIDDEN_BIT + f) % HIDDEN_BIT == f
  {
  }

  /** With the exponent below `e`, a magnitude stays below that of the smallest number of exponent `e`. */
  lemma BelowNextExponent(d: nat, e: nat, f: nat)
    requires d < e && f < HIDDEN_BIT
    ensures Magnitude(d * HIDDEN_BIT + f) < HIDDEN_BIT * TwoTo(e - 1)
  {
    Parts(d, f);
    TwoToGrows(d, e - 1);
    if d > 0 {
      Scaled(HIDDEN_BIT + f, 2 * HIDDEN_BIT, d - 1);
    }
  }

  lemma LargerExponent(d: nat, f: nat, e: nat, g: nat)
    requires d < e && f < HIDDEN_BIT && g < HIDDEN_BIT
    ensures Magnitude(d * HIDDEN_BIT + f) < Magnitude(e * HIDDEN_BIT + g)
  {
    Parts(e, g);
    BelowNextExponent(d, e, f);
    if g > 0 {
      Scaled(HIDDEN_BIT, HIDDEN_BIT + g, e - 1);
    }
  }

  lemma MagnitudeGrows(a: nat, b: nat)
    requires a < b
    ensures Magnitude(a) < Magnitude(b)
  {
    hide Magnitude;
    var d, e := a / HIDDEN_BIT, b / HIDDEN_BIT;
    assert a == d * HIDDEN_BIT + a % HIDDEN_BIT && b == e * HIDDEN_BIT + b % HIDDEN_BIT;
    if d == e {
      SameExponent(d, a % HIDDEN_BIT, b % HIDDEN_BIT);
    } else {
      LargerExponent(d, a % HIDDEN_BIT, e, b % HIDDEN_BIT);
    }
  }

  /** Comparing finite doubles by their bits compares the numbers they stand for. */
  lemma OrderIsNumeric(a: F64, b: F64)
    requires IsFinite(a) && IsFinite(b)
    ensures F64Less(a, b) <==> Units(a) < Units(b)
    ensures F64Equal(a, b) <==> Units(a) == Units(b)
    ensures Units(F64_ZERO) == 0
  {
    var x, y := if a < TWO63 then a else a - TWO63, if b < TWO63 then b else b - TWO63;
    assert Magnitude(0) == 0;
    hide Magnitude;
    if 0 < x { MagnitudeGrows(0, x); }
    if 0 < y { MagnitudeGrows(0, y); }
    if x < y { MagnitudeGrows(x, y); }
    if y < x { MagnitudeGrows(y, x); }
  }

  // ---- What a grant must bind ------------------------------------------------

  /** The amount reaches the minimum and, when there is a positive maximum, stays within it. */
  predicate Within(r: Requirement, amount: F64) {
    Units(r.minValue) <= Units(amount) && (Units(r.maxValue) > 0 ==> Units(amount) <= Units(r.maxValue))
  }

  predicate FiniteRequirement(r: Requirement) {
    IsFinite(r.minValue) && IsFinite(r.maxValue)
  }

  predicate FiniteContract(c: Contract) {
    && (forall i | 0 <= i < |c.reqs| :: FiniteRequirement(c.reqs[i]))
    && (forall j | 0 <= j < |c.grant.bindings| :: IsFinite(c.grant.bindings[j].amount))
  }

  lemma SatisfiesIff(r: Requirement, amount: F64)
    requires FiniteRequirement(r) && IsFinite(amount)
    ensures Satisfies(r, amount) <==> if r.level.NEED_PROHIBITED? then Units(amount) == 0 else Within(r, amount)
    ensures Positive(amount) <==> Units(amount) > 0
  {
    hide Units, F64Less, F64Equal;
    OrderIsNumeric(amount, r.minValue);
    OrderIsNumeric(amount, F64_ZERO);
    OrderIsNumeric(F64_ZERO, r.maxValue);
    OrderIsNumeric(r.maxValue, amount);
    OrderIsNumeric(F64_ZERO, amount);
  }

  /** Some binding of the entry's kind is within its bounds. */
  predicate BoundWithin(r: Requirement, bindings: seq<Binding>) {
    exists j | 0 <= j < |bindings| :: bindings[j].kind == r.kind && Within(r, bindings[j].amount)
  }

  /** The contract is satisfied exactly by a live grant that binds what is required and nothing that is prohibited. */
  lemma SatisfiedIff(c: Contract)
    requires FiniteContract(c)
    ensures Satisfied(c) <==>
            && c.grant.status == GRANT_GRANTED && !c.grant.released
            && (forall i | 0 <= i < |c.reqs| && c.reqs[i].level == NEED_REQUIRED :: BoundWithin(c.reqs[i], c.grant.bindings))
            && (forall i, j | 0 <= i < |c.reqs| && c.reqs[i].level == NEED_PROHIBITED
                              && 0 <= j < |c.grant.bindings| && c.grant.bindings[j].kind == c.reqs[i].kind ::
                  Units(c.grant.bindings[j].amount) <= 0)
  {
    hide Satisfies, Within, Units, IsFinite, Positive;
    forall i | 0 <= i < |c.reqs| && c.reqs[i].level.NEED_REQUIRED?
      ensures MetBy(c.reqs[i], c.grant.bindings) <==> BoundWithin(c.reqs[i], c.grant.bindings)
    {
      MetIff(c.reqs[i], c.grant.bindings);
    }
    forall j | 0 <= j < |c.grant.bindings|
      ensures Positive(c.grant.bindings[j].amount) <==> Units(c.grant.bindings[j].amount) > 0
    {
      PositiveIff(c.grant.bindings[j].amount);
    }
    hide MetBy, BoundWithin;
  }

  lemma PositiveIff(amount: F64)
    requires IsFinite(amount)
    ensures Positive(amount) <==> Units(amount) > 0
  {
    hide Units, F64Less, F64Equal;
    OrderIsNumeric(F64_ZERO, amount);
  }

  lemma MetIff(r: Requirement, bindings: seq<Binding>)
    requires r.level.NEED_REQUIRED? && FiniteRequirement(r)
    requires forall j | 0 <= j < |bindings| :: IsFinite(bindings[j].amount)
    ensures MetBy(r, bindings) <==> BoundWithin(r, bindings)
  {
    hide Satisfies, Within, Units, IsFinite;
    forall j | 0 <= j < |bindings| ensures Satisfies(r, bindings[j].amount) <==> Within(r, bindings[j].amount) {
      SatisfiesIff(r, bindings[j].amount);
    }
  }

  /** Entry `q` is one the reference broker binds: required, with a positive minimum. */
  predicate Binds(q: Requirement) {
    q.level == NEED_REQUIRED && Units(q.minValue) > 0
  }

  /** The minimum of some entry the broker binds is within the bounds of `r`, of the same kind. */
  predicate BoundByBroker(reqs: seq<Requirement>, r: Requirement) {
    exists q | 0 <= q < |reqs| :: Binds(reqs[q]) && reqs[q].kind == r.kind && Within(r, reqs[q].minValue)
  }

  predicate BrokerBindsKind(reqs: seq<Requirement>, kind: ResourceKind) {
    exists q | 0 <= q < |reqs| :: Binds(reqs[q]) && reqs[q].kind == kind
  }

  /**
   * Exactly which contracts the reference broker's own grant satisfies: the minimum of some entry it binds is
   * within the bounds of each required entry of that kind, and it binds no kind that is prohibited.
   */
  lemma BrokerGrantMeetsIff(c: Contract)
    requires forall i | 0 <= i < |c.reqs| :: FiniteRequirement(c.reqs[i])
    ensures Satisfied(WithGrant(c, Grant(c.id, c.generation, GRANT_GRANTED, false, Mirror(c.reqs)))) <==>
            && (forall i | 0 <= i < |c.reqs| && c.reqs[i].level == NEED_REQUIRED :: BoundByBroker(c.reqs, c.reqs[i]))
            && (forall i | 0 <= i < |c.reqs| && c.reqs[i].level == NEED_PROHIBITED :: !BrokerBindsKind(c.reqs, c.reqs[i].kind))
  {
    hide Satisfied, Satisfies, Within, Units, IsFinite, Positive, Mirror;
    BrokerGrantSatisfiesIff(c);
    forall q | 0 <= q < |c.reqs| ensures Mirrored(c.reqs[q]) <==> Binds(c.reqs[q]) {
      PositiveIff(c.reqs[q].minValue);
    }
    forall i, q | 0 <= i < |c.reqs| && 0 <= q < |c.reqs| && c.reqs[i].level.NEED_REQUIRED?
      ensures Satisfies(c.reqs[i], c.reqs[q].minValue) <==> Within(c.reqs[i], c.reqs[q].minValue)
    {
      SatisfiesIff(c.reqs[i], c.reqs[q].minValue);
    }
    hide Mirrored, Binds;
  }

  /** The amounts a decoder accepts: finite ones, with a minimum and granted amounts that are not negative. */
  lemma AcceptedAmountsIff(r: Requirement, b: Binding)
    ensures GoodRequirement(r) <==> IsFinite(r.minValue) && IsFinite(r.maxValue) && Units(r.minValue) >= 0
    ensures GoodBinding(b) <==> IsFinite(b.amount) && Units(b.amount) >= 0
  {
    hide Units, IsFinite;
    ZeroIsFinite();
    if IsFinite(r.minValue) {
      OrderIsNumeric(r.minValue, F64_ZERO);
    }
    if IsFinite(b.amount) {
      OrderIsNumeric(b.amount, F64_ZERO);
    }
  }

  lemma ZeroIsFinite()
    ensures IsFinite(F64_ZERO)
  {
  }

  // ---- Where the numbers surprise --------------------------------------------

  /** A maximum of zero is no bound at all, although the comment beside it calls it an exact match. */
  lemma ZeroMaximumIsNoBound(r: Requirement, amount: F64)
    requires r.level == NEED_REQUIRED && FiniteRequirement(r) && IsFinite(amount) && Units(r.maxValue) <= 0
    ensures Satisfies(r, amount) <==> Units(r.minValue) <= Units(amount)
  {
    hide Satisfies, Units, IsFinite;
    SatisfiesIff(r, amount);
  }

  /** An amount that is not a number passes every comparison: it meets any entry that is not prohibited. */
  lemma NaNMeetsEverything(r: Requirement, amount: F64)
    requires IsNaN(amount)
    ensures Satisfies(r, amount) <==> r.level != NEED_PROHIBITED
    ensures !Positive(amount)
  {
  }

  const SIXTEEN: F64 := 0x4030_0000_0000_0000
  const EIGHT: F64 := 0x4020_0000_0000_0000
  const THIRTY_TWO: F64 := 0x4040_0000_0000_0000

  /** Of a required 16 without maximum: 8 is too little, 32 is enough. */
  lemma SixteenIsRequired()
    ensures var r := Requirement(DEVICE_MEMORY, NEED_REQUIRED, SIXTEEN, F64_ZERO, []);
            !Satisfies(r, EIGHT) && Satisfies(r, SIXTEEN) && Satisfies(r, THIRTY_TWO)
  {
  }
}
