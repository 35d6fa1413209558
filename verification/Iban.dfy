/**
  IBAN check digits: ISO/IEC 7064 MOD 97-10 as `core/identifiers.py` computes it.

  Both `_iban_checksum` and `validate_iban` spell the rearranged text out as decimal
  digits (a digit stands for itself, a letter for 10..35) and reduce the number modulo 97.
*/
module Iban {
  import opened Prelude

  // ---- characters -------------------------------------------------------

  function Upper(c: char): char {
    if 'a' <= c <= 'z' then (c as int - 32) as char else c
  }

  predicate IsDigit(c: char) { '0' <= c <= '9' }

  predicate IsLetter(c: char) { 'A' <= Upper(c) <= 'Z' }

  ghost predicate Alnum(s: string) {
    forall i | 0 <= i < |s| :: IsDigit(s[i]) || IsLetter(s[i])
  }

  /** The number a digit or a letter stands for: 0..9 and 10..35. */
  function CharValue(c: char): int {
    if IsDigit(c) then c as int - '0' as int else Upper(c) as int - 'A' as int + 10
  }

  function DigitChar(d: int): char
    requires 0 <= d < 10
  {
    ('0' as int + d) as char
  }

  /** `f"{n:02d}"` for 0 <= n < 100. */
  function TwoDigits(n: int): string
    requires 0 <= n < 100
  {
    [DigitChar(n / 10), DigitChar(n % 10)]
  }

  /** What one character appends to `numeric`; anything else appends nothing. */
  function Spell(c: char): string {
    if IsDigit(c) then [c]
    else if IsLetter(c) then TwoDigits(CharValue(c))
    else []
  }

  function Numeric(s: string): string {
    if s == [] then [] else Numeric(s[..|s| - 1]) + Spell(s[|s| - 1])
  }

  /** `int(t)` for a string of decimal digits. */
  function Decimal(t: string): int {
    if t == [] then 0 else 10 * Decimal(t[..|t| - 1]) + (t[|t| - 1] as int - '0' as int)
  }

  function Rearrange(s: string): string
    requires 4 <= |s|
  {
    s[4..] + s[..4]
  }

  ghost function Reading(s: string): int { Decimal(Numeric(s)) }

  ghost predicate Valid(iban: string) {
    4 <= |iban| && Alnum(iban) && Reading(Rearrange(iban)) % 97 == 1
  }

  lemma NumericStep(s: string, i: nat)
    requires i < |s|
    ensures Numeric(s[..i + 1]) == Numeric(s[..i]) + Spell(Upper(s[i]))
  {
    assert s[..i + 1][..i] == s[..i];
  }

  /** The branches of both loops, on a character in upper case. */
  lemma Spelling(c: char)
    ensures IsDigit(Upper(c)) <==> IsDigit(c)
    ensures IsLetter(Upper(c)) <==> IsLetter(c)
    ensures IsDigit(Upper(c)) ==> Spell(Upper(c)) == [Upper(c)]
    ensures IsLetter(Upper(c)) ==> 10 <= CharValue(Upper(c)) <= 35 && !IsDigit(Upper(c))
    ensures IsLetter(Upper(c)) ==> Spell(Upper(c)) == TwoDigits(CharValue(Upper(c)))
    ensures !IsDigit(Upper(c)) && !IsLetter(Upper(c)) ==> Spell(Upper(c)) == []
  {
  }

  lemma NothingSpelled(s: string)
    ensures Numeric(s[..0]) == ""
  {
  }

  lemma OddCharacter(iban: string, i: nat)
    requires 4 <= |iban| && i < |Rearrange(iban)|
    requires !IsDigit(Rearrange(iban)[i]) && !IsLetter(Rearrange(iban)[i])
    ensures !Valid(iban)
  {
    hide IsDigit, IsLetter, Reading;
    RearrangeAlnum(iban);
  }

  lemma ValidIff(iban: string)
    requires 4 <= |iban|
    requires forall k | 0 <= k < |Rearrange(iban)| :: IsDigit(Rearrange(iban)[k]) || IsLetter(Rearrange(iban)[k])
    ensures Valid(iban) <==> Decimal(Numeric(Rearrange(iban))) % 97 == 1
  {
    hide IsDigit, IsLetter, Decimal, Numeric;
    RearrangeAlnum(iban);
  }

  // ---- the two loops ----------------------------------------------------

  ghost function CheckNumber(country: string, bban: string): int {
    98 - Reading(bban + country + "00") % 97
  }

  /** `_iban_checksum`: characters that are neither digit nor letter are skipped. */
  method IbanChecksum(country: string, bban: string) returns (check: string)
    ensures 2 <= CheckNumber(country, bban) <= 98
    ensures check == TwoDigits(CheckNumber(country, bban))
  {
    hide Decimal, CharValue, IsDigit, IsLetter, Upper, Spell;
    var rearranged := bban + country + "00";
    var numeric := "";
    for i := 0 to |rearranged|
      invariant numeric == Numeric(rearranged[..i])
    {
      var ch := Upper(rearranged[i]);
      NumericStep(rearranged, i);
      Spelling(rearranged[i]);
      if IsDigit(ch) {
        numeric := numeric + [ch];
      } else if IsLetter(ch) {
        numeric := numeric + TwoDigits(CharValue(ch));
      }
    }
    assert rearranged[..|rearranged|] == rearranged;
    check := TwoDigits(98 - Decimal(numeric) % 97);
  }

  /** `validate_iban`: answers true exactly for alphanumeric text that reads 1 modulo 97. */
  method ValidateIban(iban: string) returns (ok: bool)
    ensures ok <==> Valid(iban)
  {
    if |iban| < 4 {
      return false;
    }
    hide Decimal, Numeric, CharValue, Rearrange, IsDigit, IsLetter, Upper, Spell, Valid;
    var rearranged := Rearrange(iban);
    var numeric := "";
    NothingSpelled(rearranged);
    for i := 0 to |rearranged|
      invariant numeric == Numeric(rearranged[..i])
      invariant forall k | 0 <= k < i :: IsDigit(rearranged[k]) || IsLetter(rearranged[k])
    {
      var ch := Upper(rearranged[i]);
      NumericStep(rearranged, i);
      Spelling(rearranged[i]);
      if IsDigit(ch) {
        numeric := numeric + [ch];
      } else if IsLetter(ch) {
        numeric := numeric + TwoDigits(CharValue(ch));
      } else {
        OddCharacter(iban, i);
        return false;
      }
    }
    assert rearranged[..|rearranged|] == rearranged;
    ValidIff(iban);
    return Decimal(numeric) % 97 == 1;
  }

  const IBAN_SPEC: map<string, (nat, nat)> :=
    map["PK" := (24, 20), "AE" := (23, 19), "SA" := (24, 20), "EG" := (29, 25), "BH" := (22, 18)]

  const MOCK_BANK_CODES: map<string, string> :=
    map["PK" := "SCBL", "AE" := "033", "SA" := "10", "EG" := "0019", "BH" := "ITHMR"]

  /**
    `gen_iban`. `account` stands for the digits the random source draws. The length
    assertion of the source can never fail, and every result validates.
  */
  method GenIban(region: string, account: string) returns (r: Result<string, string>)
    requires region in IBAN_SPEC ==>
               |account| == IBAN_SPEC[region].1 - |MOCK_BANK_CODES[region]|
    requires forall i | 0 <= i < |account| :: IsDigit(account[i])
    ensures r.Ok? <==> region in IBAN_SPEC
    ensures r.Ok? ==> |r.value| == IBAN_SPEC[region].0 && r.value[..2] == region && Valid(r.value)
    ensures r.Ok? ==> r.value[4..] == MOCK_BANK_CODES[region] + account
  {
    if region !in IBAN_SPEC {
      return Err("Unsupported region for IBAN");
    }
    var bban := MOCK_BANK_CODES[region] + account;
    var check := IbanChecksum(region, bban);
    assert Alnum(region) && Alnum(bban);
    GeneratedValidates(region, bban);
    var iban := region + check + bban;
    assert |iban| == IBAN_SPEC[region].0;
    return Ok(iban);
  }

  // ---- reading numbers --------------------------------------------------

  /** n with k zeros appended: n * 10^k, by repeated digit shifts. */
  ghost function Shift(n: int, k: nat): int {
    if k == 0 then n else 10 * Shift(n, k - 1)
  }

  lemma {:induction false} NumericConcat(a: string, b: string)
    ensures Numeric(a + b) == Numeric(a) + Numeric(b)
  {
    if b == [] {
      assert a + b == a;
    } else {
      assert (a + b)[..|a + b| - 1] == a + b[..|b| - 1];
      NumericConcat(a, b[..|b| - 1]);
    }
  }

  lemma {:induction false} DecimalConcat(a: string, b: string)
    ensures Decimal(a + b) == Shift(Decimal(a), |b|) + Decimal(b)
  {
    if b == [] {
      assert a + b == a;
    } else {
      var b' := b[..|b| - 1];
      assert (a + b)[..|a + b| - 1] == a + b';
      DecimalConcat(a, b');
    }
  }

  /** Appending text shifts the reading by the digits the text spells. */
  lemma ReadingConcat(a: string, b: string)
    ensures Reading(a + b) == Shift(Reading(a), |Numeric(b)|) + Reading(b)
  {
    NumericConcat(a, b);
    DecimalConcat(Numeric(a), Numeric(b));
  }

  lemma SpellTwo(t: string)
    requires |t| == 2
    ensures Decimal(t) == 10 * (t[0] as int - '0' as int) + (t[1] as int - '0' as int)
  {
    assert t[..1][..0] == [];
    assert Decimal(t[..1]) == t[0] as int - '0' as int;
  }

  lemma ReadingChar(c: char)
    requires IsDigit(c) || IsLetter(c)
    ensures Reading([c]) == CharValue(c)
    ensures |Numeric([c])| == if IsDigit(c) then 1 else 2
  {
    assert [c][..0] == [];
    assert Numeric([c]) == Spell(c);
    if IsDigit(c) {
      assert Spell(c) == [c];
      assert Decimal([c]) == CharValue(c);
    } else {
      SpellTwo(Spell(c));
    }
  }

  lemma ReadingTwoDigits(n: int)
    requires 0 <= n < 100
    ensures Reading(TwoDigits(n)) == n && |Numeric(TwoDigits(n))| == 2
  {
    var t := TwoDigits(n);
    assert t == [t[0]] + [t[1]];
    NumericConcat([t[0]], [t[1]]);
    ReadingChar(t[0]);
    ReadingChar(t[1]);
    ReadingConcat([t[0]], [t[1]]);
    assert Shift(Reading([t[0]]), 1) == 10 * Shift(Reading([t[0]]), 0);
  }

  lemma RearrangeAlnum(s: string)
    requires 4 <= |s|
    ensures Alnum(Rearrange(s)) <==> Alnum(s)
  {
    var r := Rearrange(s);
    if Alnum(r) {
      forall i | 0 <= i < |s| ensures IsDigit(s[i]) || IsLetter(s[i]) {
        assert s[i] == if i < 4 then r[|s| - 4 + i] else r[i - 4];
      }
    }
  }

  // ---- generation and validation ---------------------------------------

  /** Every pair of check digits dd, read with the rest: validity only depends on dd mod 97. */
  lemma CheckedReading(country: string, bban: string, dd: int)
    requires |country| == 2 && Alnum(country) && Alnum(bban) && 0 <= dd < 100
    ensures Valid(country + TwoDigits(dd) + bban) <==>
            (Reading(bban + country + "00") + dd) % 97 == 1
  {
    hide Reading, Shift;
    var iban := country + TwoDigits(dd) + bban;
    assert iban[4..] == bban && iban[..4] == country + TwoDigits(dd);
    var body := bban + country;
    assert Rearrange(iban) == body + TwoDigits(dd);
    ReadingConcat(body, TwoDigits(dd));
    ReadingConcat(body, TwoDigits(0));
    assert TwoDigits(0) == "00";
    assert body + "00" == bban + country + "00";
    ReadingTwoDigits(dd);
    ReadingTwoDigits(0);
  }

  /** Round trip: the computed check digits make the IBAN validate. */
  lemma GeneratedValidates(country: string, bban: string)
    requires |country| == 2 && Alnum(country) && Alnum(bban)
    ensures 2 <= CheckNumber(country, bban) <= 98
    ensures Valid(country + TwoDigits(CheckNumber(country, bban)) + bban)
  {
    CheckedReading(country, bban, CheckNumber(country, bban));
  }

  /** Of the 97 check numbers 02..98, the computed one is the only one that validates. */
  lemma CheckDigitsUnique(country: string, bban: string, dd: int)
    requires |country| == 2 && Alnum(country) && Alnum(bban) && 2 <= dd <= 98
    ensures Valid(country + TwoDigits(dd) + bban) <==> dd == CheckNumber(country, bban)
  {
    hide Reading, Valid;
    CheckedReading(country, bban, dd);
  }

  // ---- error detection --------------------------------------------------

  lemma Multiple97(x: int, m: int)
    requires x == 97 * m
    ensures x % 97 == 0
  {
  }

  /** 10 has the inverse 68 modulo 97, so a trailing digit position never hides an error. */
  lemma CancelDigit(b: int)
    requires (10 * b) % 97 == 0
    ensures b % 97 == 0
  {
    var q := (10 * b) / 97;
    assert 10 * b == 97 * q;
    Multiple97(b, 68 * q - 7 * b);
  }

  lemma {:induction false} ShiftKeepsResidue(n: int, k: nat)
    ensures Shift(n, k) % 97 == 0 <==> n % 97 == 0
  {
    if k > 0 {
      ShiftKeepsResidue(n, k - 1);
      var b := Shift(n, k - 1);
      if b % 97 == 0 {
        Multiple97(10 * b, 10 * (b / 97));
      }
      if (10 * b) % 97 == 0 {
        CancelDigit(b);
      }
    }
  }

  lemma {:induction false} ShiftDifference(m: int, n: int, k: nat)
    ensures Shift(m, k) - Shift(n, k) == Shift(m - n, k)
  {
    if k > 0 {
      ShiftDifference(m, n, k - 1);
    }
  }

  lemma SameResidue(x: int, y: int)
    ensures x % 97 == y % 97 <==> (x - y) % 97 == 0
  {
  }

  /** Two readings before the same suffix agree mod 97 exactly when they agree without it. */
  lemma SuffixCancels(a: string, b: string, suffix: string)
    ensures Reading(a + suffix) % 97 == Reading(b + suffix) % 97 <==>
            (Reading(a) - Reading(b)) % 97 == 0
  {
    hide *;
    var k := |Numeric(suffix)|;
    ReadingConcat(a, suffix);
    ReadingConcat(b, suffix);
    ShiftDifference(Reading(a), Reading(b), k);
    ShiftKeepsResidue(Reading(a) - Reading(b), k);
    SameResidue(Reading(a + suffix), Reading(b + suffix));
  }

  /** Two readings after the same prefix differ by what follows it, if that spells equally long. */
  lemma PrefixCancels(prefix: string, a: string, b: string)
    requires |Numeric(a)| == |Numeric(b)|
    ensures Reading(prefix + a) - Reading(prefix + b) == Reading(a) - Reading(b)
  {
    hide *;
    ReadingConcat(prefix, a);
    ReadingConcat(prefix, b);
  }

  /** Inside a text, replacing `a` by `b` of equal spelled length is seen mod 97 as a - b. */
  lemma MiddleShift(prefix: string, a: string, b: string, suffix: string)
    requires |Numeric(a)| == |Numeric(b)|
    ensures Reading(prefix + a + suffix) % 97 == Reading(prefix + b + suffix) % 97 <==>
            (Reading(a) - Reading(b)) % 97 == 0
  {
    hide *;
    PrefixCancels(prefix, a, b);
    SuffixCancels(prefix + a, prefix + b, suffix);
  }

  lemma SpelledAlike(r: string, j: nat, c: char)
    requires j < |r| && Spell(c) == Spell(r[j])
    ensures Numeric(r[j := c]) == Numeric(r)
  {
    var pre, suf := r[..j], r[j + 1..];
    assert r == pre + [r[j]] + suf && r[j := c] == pre + [c] + suf;
    NumericConcat(pre + [r[j]], suf);
    NumericConcat(pre, [r[j]]);
    NumericConcat(pre + [c], suf);
    NumericConcat(pre, [c]);
    assert [c][..0] == [] && [r[j]][..0] == [];
  }

  /** A capital letter and its small letter are read alike, so writing one for the other changes no answer. */
  lemma CaseIgnored(iban: string, i: nat)
    requires i < |iban| && 'A' <= iban[i] <= 'Z'
    ensures Valid(iban[i := (iban[i] as int + 32) as char]) <==> Valid(iban)
  {
    var c := (iban[i] as int + 32) as char;
    if 4 <= |iban| {
      var j := if i < 4 then |iban| - 4 + i else i - 4;
      assert Rearrange(iban[i := c]) == Rearrange(iban)[j := c];
      SpelledAlike(Rearrange(iban), j, c);
      hide Numeric, Decimal;
      assert Alnum(iban[i := c]) <==> Alnum(iban) by {
        assert forall k | 0 <= k < |iban| && k != i :: iban[i := c][k] == iban[k];
        assert IsLetter(c) && IsLetter(iban[i]);
        assert iban[i := c][i] == c;
      }
    }
  }

  predicate SameClass(x: char, y: char) {
    (IsDigit(x) && IsDigit(y)) || (IsLetter(x) && IsLetter(y))
  }

  lemma SmallDifference(d: int)
    requires -97 < d < 97 && d != 0
    ensures d % 97 != 0
  {
  }

  lemma ClassRange(x: char, y: char)
    requires SameClass(x, y)
    ensures -26 < CharValue(x) - CharValue(y) < 26
    ensures Reading([x]) == CharValue(x) && Reading([y]) == CharValue(y) && |Numeric([x])| == |Numeric([y])|
  {
    ReadingChar(x);
    ReadingChar(y);
  }

  lemma SubstitutionShift(r: string, j: nat, c: char)
    requires j < |r| && SameClass(r[j], c) && CharValue(r[j]) != CharValue(c)
    ensures Reading(r[j := c]) % 97 != Reading(r) % 97
  {
    hide *;
    var pre, suf := r[..j], r[j + 1..];
    assert r == pre + [r[j]] + suf;
    assert r[j := c] == pre + [c] + suf;
    ClassRange(r[j], c);
    MiddleShift(pre, [r[j]], [c], suf);
    SmallDifference(CharValue(r[j]) - CharValue(c));
  }

  /** Replacing one digit by another, or one letter by another, anywhere in a valid IBAN is caught. */
  lemma SubstitutionDetected(iban: string, i: nat, c: char)
    requires Valid(iban) && i < |iban|
    requires SameClass(iban[i], c) && CharValue(iban[i]) != CharValue(c)
    ensures !Valid(iban[i := c])
  {
    var j := if i < 4 then |iban| - 4 + i else i - 4;
    assert Rearrange(iban[i := c]) == Rearrange(iban)[j := c];
    SubstitutionShift(Rearrange(iban), j, c);
  }

  /** The adjacent pairs MOD 97-10 cannot tell apart: 1/B, 2/M and 3/X. */
  predicate Blind(digit: char, letter: char) {
    (digit, Upper(letter)) in {('1', 'B'), ('2', 'M'), ('3', 'X')}
  }

  function Swap(s: string, i: nat): string
    requires i + 1 < |s|
  {
    s[i := s[i + 1]][i + 1 := s[i]]
  }

  lemma PairReading(x: char, y: char)
    requires (IsDigit(x) || IsLetter(x)) && (IsDigit(y) || IsLetter(y))
    ensures Reading([x, y]) == CharValue(x) * (if IsDigit(y) then 10 else 100) + CharValue(y)
    ensures |Numeric([x, y])| == (if IsDigit(x) then 1 else 2) + (if IsDigit(y) then 1 else 2)
  {
    assert [x, y] == [x] + [y];
    NumericConcat([x], [y]);
    ReadingConcat([x], [y]);
    ReadingChar(x);
    ReadingChar(y);
    assert Shift(CharValue(x), 1) == 10 * Shift(CharValue(x), 0);
    assert Shift(CharValue(x), 2) == 10 * Shift(CharValue(x), 1);
  }

  lemma BlindValues(x: char, y: char)
    requires IsDigit(x) && IsLetter(y)
    ensures Blind(x, y) <==> CharValue(y) == 11 * CharValue(x)
  {
  }

  lemma PairSwap(x: char, y: char)
    requires (IsDigit(x) || IsLetter(x)) && (IsDigit(y) || IsLetter(y))
    ensures (Reading([x, y]) - Reading([y, x])) % 97 == 0 <==>
            CharValue(x) == CharValue(y) || Blind(x, y) || Blind(y, x)
  {
    hide Reading;
    PairReading(x, y);
    PairReading(y, x);
    var u, v := CharValue(x), CharValue(y);
    if IsDigit(x) && IsLetter(y) {
      BlindValues(x, y);
      MixedPair(u, v);
    } else if IsLetter(x) && IsDigit(y) {
      BlindValues(y, x);
      MixedPair(v, u);
    } else {
      assert !Blind(x, y) && !Blind(y, x);
      hide CharValue, Blind, IsLetter;
      LikePair(u, v, if IsDigit(x) then 9 else 99);
    }
  }

  lemma LikePair(u: int, v: int, k: int)
    requires -26 < u - v < 26 && (k == 9 || k == 99)
    ensures (k * u - k * v) % 97 == 0 <==> u == v
  {
    NineTimes(u - v);
    if k == 99 {
      assert k * u - k * v == 97 * (u - v) + 2 * (u - v);
    }
  }

  /** The arithmetic of a digit d next to a letter of value v: 99d - 9v is a multiple of 97 iff v = 11d. */
  lemma MixedPair(d: int, v: int)
    requires 0 <= d <= 9 && 10 <= v <= 35
    ensures (99 * d - 9 * v) % 97 == 0 <==> v == 11 * d
    ensures (9 * v - 99 * d) % 97 == 0 <==> v == 11 * d
  {
    NineTimes(11 * d - v);
    NineTimes(v - 11 * d);
  }

  lemma NineTimes(w: int)
    requires -97 < w < 97
    ensures (9 * w) % 97 == 0 <==> w == 0
  {
    if (9 * w) % 97 == 0 {
      var q := (9 * w) / 97;
      assert w == 97 * (54 * q - 5 * w);
    }
  }

  /**
    Swapping two neighbours (any pair but the fourth and fifth characters, which are not
    neighbours once rearranged) is caught unless they stand for the same number or are one
    of the three blind pairs; in those cases it is never caught.
  */
  lemma TranspositionDetected(iban: string, i: nat)
    requires Valid(iban) && i + 1 < |iban| && i != 3
    ensures Valid(Swap(iban, i)) <==>
            CharValue(iban[i]) == CharValue(iban[i + 1])
            || Blind(iban[i], iban[i + 1]) || Blind(iban[i + 1], iban[i])
  {
    hide Reading, Blind, IsDigit, IsLetter, CharValue;
    var s, r := Swap(iban, i), Rearrange(iban);
    var j := if i < 4 then |iban| - 4 + i else i - 4;
    var x, y := iban[i], iban[i + 1];
    SwapAlnum(iban, i);
    assert Rearrange(s) == Swap(r, j);
    var pre, suf := r[..j], r[j + 2..];
    assert r == pre + [x, y] + suf;
    assert Swap(r, j) == pre + [y, x] + suf;
    PairReading(x, y);
    PairReading(y, x);
    MiddleShift(pre, [x, y], [y, x], suf);
    PairSwap(x, y);
  }

  lemma SwapAlnum(s: string, i: nat)
    requires Alnum(s) && i + 1 < |s|
    ensures Alnum(Swap(s, i))
    ensures IsDigit(s[i]) || IsLetter(s[i])
    ensures IsDigit(s[i + 1]) || IsLetter(s[i + 1])
  {
  }
}
