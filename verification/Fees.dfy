/**
  Merchant fees: `_calc_fees` of `pos/generator.py`, in minor units.

  The rates are exact numbers here; the source computes them in binary floating point.
*/
module Fees {

  /** The part of a region's configuration that fees and settlement depend on. */
  datatype Terms = Terms(mdrBps: nat, vatOnMdr: real, wht: real, settlementDays: int, weekend: set<int>) {
    predicate Valid() {
      vatOnMdr >= 0.0 && wht >= 0.0
    }
  }

  datatype Charge = Charge(mdr: nat, vat: nat, wht: nat, net: int)

  /** `int(x)` of a non-negative number. */
  function Truncate(x: real): (n: nat)
    requires x >= 0.0
    ensures n as real <= x < n as real + 1.0
  {
    x.Floor
  }

  function MdrRate(terms: Terms): real {
    terms.mdrBps as real / 10000.0
  }

  function CalcFees(amount: nat, terms: Terms): Charge
    requires terms.Valid()
  {
    NonNegative(amount as real, MdrRate(terms));
    var mdr := Truncate(amount as real * MdrRate(terms));
    NonNegative(mdr as real, terms.vatOnMdr);
    var vat := Truncate(mdr as real * terms.vatOnMdr);
    NonNegative(amount as real, terms.wht);
    var wht := Truncate(amount as real * terms.wht);
    Charge(mdr, vat, wht, amount - mdr - vat - wht)
  }

  lemma NonNegative(x: real, y: real)
    requires x >= 0.0 && y >= 0.0
    ensures x * y >= 0.0
  {
  }

  lemma Monotone(x: real, y: real, r: real)
    requires x <= y && r >= 0.0
    ensures x * r <= y * r
  {
    NonNegative(y - x, r);
  }

  /** Each fee is its rate rounded down, by less than one minor unit. */
  lemma FeeRounding(amount: nat, terms: Terms)
    requires terms.Valid()
    ensures var c := CalcFees(amount, terms);
            && c.mdr as real <= amount as real * MdrRate(terms) < c.mdr as real + 1.0
            && c.vat as real <= c.mdr as real * terms.vatOnMdr < c.vat as real + 1.0
            && c.wht as real <= amount as real * terms.wht < c.wht as real + 1.0
            && amount == c.mdr + c.vat + c.wht + c.net
  {
  }

  lemma Distributes(a: real, r: real, v: real, w: real)
    ensures (r * (1.0 + v) + w) * a == a * r + a * r * v + a * w
  {
    assert (r * (1.0 + v) + w) * a == r * (1.0 + v) * a + w * a;
    assert r * (1.0 + v) == r + r * v;
    assert (r + r * v) * a == r * a + r * v * a;
    assert r * v * a == a * r * v;
  }

  lemma WithinAmount(a: real, r: real, v: real, w: real, x: real, y: real, z: real)
    requires a >= 0.0 && v >= 0.0 && r * (1.0 + v) + w <= 1.0
    requires x <= a * r && y <= x * v && z <= a * w
    ensures x + y + z <= a
  {
    Monotone(x, a * r, v);
    Monotone(r * (1.0 + v) + w, 1.0, a);
    Distributes(a, r, v, w);
  }

  /** The net amount is never negative when the combined rates are at most 100%. */
  lemma {:induction false} NetNonNegative(amount: nat, terms: Terms)
    requires terms.Valid()
    requires MdrRate(terms) * (1.0 + terms.vatOnMdr) + terms.wht <= 1.0
    ensures CalcFees(amount, terms).net >= 0
  {
    FeeRounding(amount, terms);
    var c := CalcFees(amount, terms);
    hide CalcFees, MdrRate;
    WithinAmount(amount as real, MdrRate(terms), terms.vatOnMdr, terms.wht, c.mdr as real, c.vat as real, c.wht as real);
    assert (c.mdr + c.vat + c.wht) as real == c.mdr as real + c.vat as real + c.wht as real;
  }
}
