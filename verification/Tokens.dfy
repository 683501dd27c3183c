/**
  Base-62 numbers and the tokens made of them. Encoding divides with floating-point division and truncates, so the
  quotient is right only as far as rounding allows; the division is modelled with its rounding, to a significand of
  53 bits, ties to even.
 */
module Tokens {
  import opened Prelude

  // ------------------------------------------------------------------ division by 62 in floating point

  /** 62 times 2 to the 52nd: from here on a quotient has no bits to spare below its unit. */
  const FULL: nat := 279223176896970752

  /** 62 times 2 to the 48th. */
  const EXACT: nat := 17451448556060672

  /** The integer nearest to a / b; of two, the even one. */
  function RoundHalfEven(a: nat, b: nat): nat
    requires b > 0
  {
    var q, r := a / b, a % b;
    if 2 * r < b || (2 * r == b && q % 2 == 0) then q else q + 1
  }

  /** The power of two that scales a quotient below 2 to the 53rd to a full significand. */
  function Scale(n: nat): (p: nat)
    requires n > 0
    ensures p > 0
    decreases if n < FULL then FULL - n else 0
  {
    if n >= FULL then 1 else 2 * Scale(2 * n)
  }

  /** The unit of the last place of a quotient of 2 to the 53rd or more. */
  function Unit(n: nat): (u: nat)
    ensures u > 0
  {
    if n < 2 * FULL then 1 else 2 * Unit(n / 2)
  }

  function Times(a: nat, b: nat): nat {
    a * b
  }

  /** The correctly rounded quotient by 62, truncated to an integer. */
  function Quotient(n: nat): nat
    requires n > 0
  {
    if n < 2 * FULL then RoundHalfEven(Times(n, Scale(n)), 62) / Scale(n)
    else Times(RoundHalfEven(n, 62 * Unit(n)), Unit(n))
  }

  /** What the bits below the unit leave between the true quotient and the next integer decides. */
  predicate QuotientIsExact(n: nat)
    requires n > 0
  {
    var gap := (62 - n % 62) * Scale(n);
    gap > 31 || (gap == 31 && n / 62 % 2 == 0)
  }

  lemma Multiples(a: nat, b: nat, p: nat)
    requires a < b
    ensures a * p + p <= b * p
  {
    assert b * p == a * p + (b - a) * p;
    assert (b - a) * p == p + (b - a - 1) * p;
  }

  lemma DivisionBounds(m: nat, p: nat)
    requires p > 0
    ensures (m / p) * p <= m < (m / p) * p + p
  {
  }

  lemma DivideProduct(q: nat, p: nat, m: nat)
    requires p > 0 && q * p <= m < q * p + p
    ensures m / p == q
  {
    var d := m / p;
    DivisionBounds(m, p);
    if d < q {
      Multiples(d, q, p);
    } else if q < d {
      Multiples(q, d, p);
    }
  }

  /** Rounding a number that lies below 62 p by a gap, on top of 62 u. */
  lemma RoundBelow(u: nat, p: nat, gap: nat)
    requires 0 < gap <= 62 * p
    ensures var m := RoundHalfEven(62 * u + 62 * p - gap, 62);
            && (gap > 31 ==> u <= m < u + p)
            && (gap < 31 ==> m == u + p)
            && (gap == 31 ==> m == if (u + p - 1) % 2 == 0 then u + p - 1 else u + p)
  {
    var a := 62 * u + 62 * p - gap;
    if gap <= 62 {
      assert a == 62 * (u + p - 1) + (62 - gap);
    }
  }

  lemma ScaledBelow(n: nat, p: nat)
    ensures n * p == 62 * (n / 62 * p) + 62 * p - (62 - n % 62) * p
    ensures p > 0 ==> 0 < (62 - n % 62) * p <= 62 * p
  {
    var q, r := n / 62, n % 62;
    assert n == 62 * q + r;
    assert (62 * q + r) * p == 62 * (q * p) + r * p;
    assert (62 - r) * p == 62 * p - r * p;
    assert (62 - r) * p == p + (61 - r) * p;
  }

  /** Up to the largest quotient with a fractional part, division is off by at most one, and exactly when it says so. */
  lemma QuotientCases(n: nat)
    requires 0 < n < 2 * FULL
    ensures Quotient(n) == if QuotientIsExact(n) then n / 62 else n / 62 + 1
  {
    var p, q, k := Scale(n), n / 62, 62 - n % 62;
    ScaledBelow(n, p);
    RoundBelow(q * p, p, k * p);
    var m := RoundHalfEven(n * p, 62);
    TruncateCases(n, p, q, k * p, m);
    if k * p == 31 {
      GapOf31(n, p, k);
    }
  }

  lemma TruncateCases(n: nat, p: nat, q: nat, gap: nat, m: nat)
    requires p > 0
    requires gap > 31 ==> q * p <= m < q * p + p
    requires gap < 31 ==> m == q * p + p
    requires gap == 31 ==> m == if (q * p + p - 1) % 2 == 0 then q * p + p - 1 else q * p + p
    ensures m / p == if gap > 31 || (gap == 31 && (q * p + p - 1) % 2 == 0) then q else q + 1
  {
    if m == q * p + p {
      assert (q + 1) * p == q * p + p;
      DivideProduct(q + 1, p, m);
    } else {
      DivideProduct(q, p, m);
    }
  }

  /** A tie happens only when nothing is scaled, and then the true quotient is the lower neighbour. */
  lemma GapOf31(n: nat, p: nat, k: nat)
    requires n > 0 && p == Scale(n) && k * p == 31
    ensures forall q: nat :: (q * p + p - 1) % 2 == q % 2
  {
    ScaleIsOneOrEven(n);
    OddGap(p, k);
  }

  lemma {:induction false} ScaleIsOneOrEven(n: nat)
    requires n > 0
    ensures Scale(n) == 1 || Scale(n) % 2 == 0
  {
  }

  lemma EvenMultiple(k: nat, h: nat)
    ensures (k * (2 * h)) % 2 == 0
  {
    assert k * (2 * h) == 2 * (k * h);
  }

  lemma OddGap(p: nat, k: nat)
    requires k * p == 31
    ensures p % 2 == 1
  {
    var h := p / 2;
    EvenMultiple(k, h);
  }

  lemma {:induction false} ScaleLeavesBits(n: nat)
    requires 0 < n < EXACT
    ensures Scale(n) >= 32
  {
    assert Scale(n) == 2 * Scale(2 * n) == 4 * Scale(4 * n) == 8 * Scale(8 * n) == 16 * Scale(16 * n);
    assert Scale(16 * n) == 2 * Scale(32 * n);
  }

  lemma ScaleOfSixteen(n: nat)
    requires EXACT <= n < 2 * EXACT
    ensures Scale(n) == 16
  {
    assert Scale(n) == 2 * Scale(2 * n) == 4 * Scale(4 * n) == 8 * Scale(8 * n) == 16 * Scale(16 * n);
  }

  /** Below 62 times 2 to the 48th, and for another 61 numbers, the truncated quotient is the true one. */
  lemma QuotientExactBelow(n: nat)
    requires 0 < n < EXACT + 61
    ensures QuotientIsExact(n)
  {
    var k := 62 - n % 62;
    if n < EXACT {
      ScaleLeavesBits(n);
      Multiples(0, k, Scale(n));
    } else {
      ScaleOfSixteen(n);
    }
  }

  lemma {:induction false} UnitIsSmall(n: nat)
    requires n >= 2 * FULL
    ensures 62 * Unit(n) <= n
  {
    if n / 2 >= 2 * FULL {
      UnitIsSmall(n / 2);
    } else {
      assert Unit(n / 2) == 1;
    }
  }

  lemma RoundedProduct(n: nat, u: nat)
    requires u > 0
    ensures RoundHalfEven(n, 62 * u) * (62 * u) <= n + 62 * u
  {
    var b := 62 * u;
    DivisionBounds(n, b);
    assert (n / b + 1) * b == n / b * b + b;
  }

  /** The loop that encodes comes to an end. */
  lemma QuotientDecreases(n: nat)
    requires n > 0
    ensures Quotient(n) < n
  {
    if n < 2 * FULL {
      QuotientCases(n);
      if n < EXACT {
        QuotientExactBelow(n);
      }
    } else {
      var u := Unit(n);
      var m := RoundHalfEven(n, 62 * u);
      UnitIsSmall(n);
      RoundedProduct(n, u);
      assert m * (62 * u) == 62 * (m * u);
    }
  }

  // ------------------------------------------------------------------ digits

  /** Digits, then small letters, then capitals. */
  function DigitChar(d: nat): char
    requires d < 62
  {
    if d < 10 then '0' + d as char
    else if d < 36 then 'a' + (d - 10) as char
    else 'A' + (d - 36) as char
  }

  function DigitValue(c: char): Option<nat> {
    if '0' <= c <= '9' then Some(c as nat - '0' as nat)
    else if 'a' <= c <= 'z' then Some(c as nat - 'a' as nat + 10)
    else if 'A' <= c <= 'Z' then Some(c as nat - 'A' as nat + 36)
    else None
  }

  lemma DigitRoundTrip(d: nat)
    requires d < 62
    ensures DigitValue(DigitChar(d)) == Some(d) && DigitChar(d) != ':'
  {
  }

  function Digits(n: nat): string {
    if n == 0 then ""
    else
      QuotientDecreases(n);
      Digits(Quotient(n)) + [DigitChar(n % 62)]
  }

  function Encode(n: nat): string {
    if n == 0 then "0" else Digits(n)
  }

  method BaseEncode(n: nat) returns (s: string)
    ensures s == Encode(n)
  {
    if n == 0 {
      return "0";
    }
    s := "";
    var rest := n;
    while rest != 0
      invariant Digits(n) == Digits(rest) + s
      decreases rest
    {
      QuotientDecreases(rest);
      s := [DigitChar(rest % 62)] + s;
      rest := Quotient(rest);
    }
  }

  function Power(k: nat): nat {
    if k == 0 then 1 else 62 * Power(k - 1)
  }

  predicate IsNumber(s: string) {
    forall i :: 0 <= i < |s| ==> DigitValue(s[i]).Some?
  }

  /** Every digit times the power of its place; the last digit has the place given. */
  function Weighed(s: string, place: nat): nat
    requires IsNumber(s)
  {
    if s == "" then 0
    else Power(place) * DigitValue(s[|s| - 1]).value + Weighed(s[..|s| - 1], place + 1)
  }

  datatype Error = UnknownDigit

  function Decode(s: string): Result<nat, Error> {
    if IsNumber(s) then Success(Weighed(s, 0)) else Failure(UnknownDigit)
  }

  lemma {:induction false} WeighedShift(s: string, place: nat)
    requires IsNumber(s)
    ensures Weighed(s, place + 1) == 62 * Weighed(s, place)
  {
    if s != "" {
      WeighedShift(s[..|s| - 1], place + 1);
      var d := DigitValue(s[|s| - 1]).value;
      assert Power(place + 1) * d == 62 * (Power(place) * d);
    }
  }

  /** The usual reading of digits from the left. */
  lemma DecodeAppend(s: string, d: nat)
    requires IsNumber(s) && d < 62
    ensures IsNumber(s + [DigitChar(d)]) && Weighed(s + [DigitChar(d)], 0) == 62 * Weighed(s, 0) + d
  {
    DigitRoundTrip(d);
    var t := s + [DigitChar(d)];
    assert t[..|t| - 1] == s;
    WeighedShift(s, 0);
    assert Power(0) == 1;
  }

  lemma {:induction false} DigitsAreDigits(n: nat)
    ensures IsNumber(Digits(n)) && forall i :: 0 <= i < |Digits(n)| ==> Digits(n)[i] != ':'
  {
    if n != 0 {
      QuotientDecreases(n);
      DigitsAreDigits(Quotient(n));
      DigitRoundTrip(n % 62);
    }
  }

  /** What the digits of a number mean. */
  function Meaning(n: nat): nat {
    DigitsAreDigits(n);
    Weighed(Digits(n), 0)
  }

  lemma MeaningStep(n: nat)
    requires n > 0
    ensures Meaning(n) == 62 * Meaning(Quotient(n)) + n % 62
  {
    QuotientDecreases(n);
    DigitsAreDigits(Quotient(n));
    DecodeAppend(Digits(Quotient(n)), n % 62);
  }

  lemma {:induction false} MeaningBelow(n: nat)
    requires n < EXACT + 61
    ensures Meaning(n) == n
  {
    if n > 0 {
      QuotientExactBelow(n);
      QuotientCases(n);
      MeaningStep(n);
      MeaningBelow(n / 62);
    }
  }

  lemma DecodeEncode(n: nat)
    ensures Decode(Encode(n)) == Success(Meaning(n))
  {
    DigitsAreDigits(n);
    if n == 0 {
      assert Weighed("0", 0) == 0 by {
        assert "0"[..0] == "";
      }
    }
  }

  /** Decoding undoes encoding for every number below 62 times 2 to the 48th plus 61, and so below 2 to the 53rd. */
  lemma RoundTrip(n: nat)
    requires n < EXACT + 61
    ensures Decode(Encode(n)) == Success(n)
  {
    DecodeEncode(n);
    MeaningBelow(n);
  }

  // ------------------------------------------------------------------ exactly which numbers survive

  /** The truncated quotient of n is the true one: by its gap, or by its last place once it has no fractional part. */
  predicate DividesExactly(n: nat)
    requires n > 0
  {
    if n < 2 * FULL then QuotientIsExact(n) else n / 62 % Unit(n) == 0
  }

  /** Every division on the way to the last digit is exact. */
  predicate Survives(n: nat) {
    n == 0 || (DividesExactly(n) && Survives(n / 62))
  }

  lemma ModuloOfProduct(m: nat, u: nat)
    requires u > 0
    ensures (m * u) % u == 0 && (m * u) / u == m
  {
    DivideProduct(m, u, m * u);
    DivisionBounds(m * u, u);
  }

  lemma RoundMultiple(k: nat, b: nat, r: nat)
    requires 2 * r < b
    ensures RoundHalfEven(k * b + r, b) == k
  {
    var a := k * b + r;
    DivideProduct(k, b, a);
    RemainderOf(a, b);
  }

  lemma RemainderOf(a: nat, b: nat)
    requires b > 0
    ensures a % b == a - a / b * b
  {
  }

  lemma {:induction false} UnitAboveOne(n: nat)
    requires n >= 2 * FULL
    ensures Unit(n) >= 2
  {
  }

  lemma QuotientOfMultiple(q: nat, u: nat, r: nat)
    requires u >= 2 && q % u == 0 && r < 62
    ensures Times(RoundHalfEven(62 * q + r, 62 * u), u) == q
  {
    var k := q / u;
    assert q == k * u by { DivisionBounds(q, u); }
    assert 62 * (k * u) + r == k * (62 * u) + r;
    RoundMultiple(k, 62 * u, r);
  }

  lemma QuotientByUnits(n: nat)
    requires n >= 2 * FULL
    ensures Quotient(n) == n / 62 <==> n / 62 % Unit(n) == 0
  {
    var u := Unit(n);
    UnitAboveOne(n);
    if n / 62 % u == 0 {
      QuotientOfMultiple(n / 62, u, n % 62);
    } else {
      ModuloOfProduct(RoundHalfEven(n, 62 * u), u);
    }
  }

  lemma DividesExactlyIff(n: nat)
    requires n > 0
    ensures DividesExactly(n) <==> Quotient(n) == n / 62
  {
    if n < 2 * FULL {
      QuotientCases(n);
    } else {
      QuotientByUnits(n);
    }
  }

  /** The last digit is always right, so a wrong number is off by a multiple of 62. */
  lemma LastDigitSurvives(n: nat)
    ensures Meaning(n) % 62 == n % 62
  {
    if n > 0 {
      MeaningStep(n);
      Residue(Meaning(Quotient(n)), n % 62);
    }
  }

  lemma Residue(x: nat, d: nat)
    requires d < 62
    ensures (62 * x + d) % 62 == d
  {
  }

  lemma UnitUpTo64(n: nat)
    requires n < 128 * FULL
    ensures Unit(n) <= 64
  {
    UnitHalves(n, 64);
  }

  lemma {:induction false} UnitHalves(n: nat, u: nat)
    requires u > 0 && n < 2 * FULL * u && (u == 1 || u == 2 || u == 4 || u == 8 || u == 16 || u == 32 || u == 64)
    ensures Unit(n) <= u
    decreases u
  {
    if n >= 2 * FULL && u > 1 {
      UnitHalves(n / 2, u / 2);
    }
  }

  lemma RoundedNear(n: nat, b: nat)
    requires b > 0
    ensures 2 * (RoundHalfEven(n, b) * b) <= 2 * n + b && 2 * n <= 2 * (RoundHalfEven(n, b) * b) + b
  {
    DivisionBounds(n, b);
    assert n == n / b * b + n % b;
    assert (n / b + 1) * b == n / b * b + b;
  }

  /** Up to here the quotient is too near the true one to differ from it by 62. */
  lemma QuotientIsNear(n: nat)
    requires 0 < n < 128 * FULL
    ensures -62 < Quotient(n) - n / 62 < 62
  {
    if n < 2 * FULL {
      QuotientCases(n);
    } else {
      var u := Unit(n);
      var m := RoundHalfEven(n, 62 * u);
      UnitUpTo64(n);
      RoundedNear(n, 62 * u);
      assert m * (62 * u) == 62 * (m * u);
    }
  }

  lemma SameResidueAndNear(a: nat, b: nat)
    requires a % 62 == b % 62 && -62 < a - b < 62
    ensures a == b
  {
  }

  /** Below 62 times 2 to the 59th no error is made good by a later one. */
  lemma MeaningIff(n: nat)
    requires 0 < n < 128 * FULL
    ensures Meaning(n) == n <==> DividesExactly(n) && Meaning(n / 62) == n / 62
  {
    var q := Quotient(n);
    MeaningStep(n);
    DividesExactlyIff(n);
    if Meaning(n) == n {
      LastDigitSurvives(q);
      QuotientIsNear(n);
      SameResidueAndNear(q, n / 62);
    }
  }

  lemma {:induction false} MeaningIfSurvives(n: nat)
    requires Survives(n)
    ensures Meaning(n) == n
  {
    if n > 0 {
      DividesExactlyIff(n);
      MeaningStep(n);
      MeaningIfSurvives(n / 62);
    }
  }

  lemma {:induction false} SurvivesIfMeaning(n: nat)
    requires n < 128 * FULL && Meaning(n) == n
    ensures Survives(n)
  {
    if n > 0 {
      MeaningIff(n);
      SurvivesIfMeaning(n / 62);
    }
  }

  /** Whatever the number, exact divisions bring it back. */
  lemma SurvivorsRoundTrip(n: nat)
    requires Survives(n)
    ensures Decode(Encode(n)) == Success(n)
  {
    DecodeEncode(n);
    MeaningIfSurvives(n);
  }

  /** Below 62 times 2 to the 59th, and so for every number of 64 bits, nothing else does. */
  lemma RoundTripIff(n: nat)
    requires n < 128 * FULL
    ensures Decode(Encode(n)) == Success(n) <==> Survives(n)
  {
    DecodeEncode(n);
    if Survives(n) {
      MeaningIfSurvives(n);
    } else if Meaning(n) == n {
      SurvivesIfMeaning(n);
    }
  }

  /** Every number up to 62 times 2 to the 48th plus 60 survives. */
  lemma {:induction false} SmallNumbersSurvive(n: nat)
    requires n < EXACT + 61
    ensures Survives(n)
  {
    if n > 0 {
      QuotientExactBelow(n);
      SmallNumbersSurvive(n / 62);
    }
  }

  /** Past that range two errors can cancel: this number comes back although its first division is wrong. */
  const CANCELLING: nat := 35740566642812355332

  lemma UnitsOfCancelling()
    ensures Unit(CANCELLING) == 128 && Quotient(CANCELLING) == 576460752303425024
    ensures Unit(576460752303425024) == 2 && Quotient(576460752303425024) == 9297754069410082
  {
    var n: nat := CANCELLING;
    assert Unit(n / 128) == 1 && Unit(n / 64) == 2 && Unit(n / 32) == 4 && Unit(n / 16) == 8;
    assert Unit(n / 8) == 16 && Unit(n / 4) == 32 && Unit(n / 2) == 64;
  }

  lemma MeaningOfTwo(n: nat, q: nat, p: nat)
    requires n > 0 && q > 0 && Quotient(n) == q && Quotient(q) == p && p < EXACT + 61
    ensures Meaning(n) == 62 * (62 * p + q % 62) + n % 62
  {
    MeaningStep(n);
    MeaningStep(q);
    MeaningBelow(p);
  }

  lemma CancellingMeaning()
    ensures Meaning(CANCELLING) == CANCELLING
  {
    UnitsOfCancelling();
    MeaningOfTwo(CANCELLING, 576460752303425024, 9297754069410082);
  }

  lemma CancellingFails()
    ensures !DividesExactly(CANCELLING)
  {
    UnitsOfCancelling();
    assert CANCELLING / 62 == 576460752303425086;
  }

  lemma ErrorsCanCancel()
    ensures CANCELLING >= 128 * FULL && Decode(Encode(CANCELLING)) == Success(CANCELLING) && !Survives(CANCELLING)
  {
    CancellingMeaning();
    CancellingFails();
    DecodeEncode(CANCELLING);
  }

  /** The first number that does not survive. */
  lemma FirstFailure()
    ensures Decode(Encode(EXACT + 61)) == Success(EXACT + 61 + 62)
  {
    var n := EXACT + 61;
    ScaleOfSixteen(n);
    DecodeEncode(n);
    MeaningStep(n);
    QuotientCases(n);
    MeaningBelow(Quotient(n));
  }

  // ------------------------------------------------------------------ tokens

  /** The keyed hash of a text, with the secret key left abstract. */
  type Signer = string -> string

  function Signed(pk: string, epoch: string, sign: Signer): string {
    pk + ":" + epoch + ":" + sign(pk + ":" + epoch)
  }

  /** A token for an instance, good until the time of issue plus a lifetime, which may be negative. */
  function MakeToken(pk: nat, issued: nat, lifetime: int, sign: Signer): string
    requires issued + lifetime >= 0
  {
    Signed(Encode(pk), Encode(issued + lifetime), sign)
  }

  function IndexOfColon(s: string): (i: nat)
    ensures i <= |s| && (i < |s| ==> s[i] == ':') && forall j :: 0 <= j < i ==> s[j] != ':'
  {
    if s == "" || s[0] == ':' then 0 else 1 + IndexOfColon(s[1..])
  }

  /** The parts between the first two colons. */
  function Split(s: string): seq<string> {
    var i := IndexOfColon(s);
    if i == |s| then [s]
    else
      var rest := s[i + 1..];
      var j := IndexOfColon(rest);
      if j == |rest| then [s[..i], rest] else [s[..i], rest[..j], rest[j + 1..]]
  }

  /** None is a token that is wrongly signed or expired. */
  function VerifyParts(pk: string, epoch: string, hash: string, now: nat, sign: Signer): Result<Option<nat>, Error> {
    if sign(pk + ":" + epoch) != hash then Success(None)
    else
      var expires := Decode(epoch);
      if expires.Failure? then Failure(expires.error)
      else if expires.value < now then Success(None)
      else
        var id := Decode(pk);
        if id.Failure? then Failure(id.error) else Success(Some(id.value))
  }

  /** None is also a token that is malformed. */
  function VerifyToken(token: string, now: nat, sign: Signer): Result<Option<nat>, Error> {
    var parts := Split(token);
    if |parts| != 3 then Success(None) else VerifyParts(parts[0], parts[1], parts[2], now, sign)
  }

  predicate NoColon(s: string) {
    forall i :: 0 <= i < |s| ==> s[i] != ':'
  }

  lemma ColonAfter(a: string, b: string)
    requires NoColon(a)
    ensures var s := a + ":" + b;
            |s| == |a| + 1 + |b| && IndexOfColon(s) == |a| && s[..|a|] == a && s[|a| + 1..] == b
  {
    var s := a + ":" + b;
    assert s[|a|] == ':';
    assert forall j :: 0 <= j < |a| ==> s[j] == a[j];
  }

  lemma SplitJoined(a: string, b: string, c: string)
    requires NoColon(a) && NoColon(b)
    ensures Split(a + ":" + b + ":" + c) == [a, b, c]
  {
    Assoc(a + ":", b, ":");
    Assoc(a + ":", b + ":", c);
    ColonAfter(a, b + ":" + c);
    ColonAfter(b, c);
    SplitAtBoth(a + ":" + (b + ":" + c), |a|, |b|);
  }

  lemma SplitAtBoth(s: string, i: nat, j: nat)
    requires IndexOfColon(s) == i < |s| && IndexOfColon(s[i + 1..]) == j < |s[i + 1..]|
    ensures Split(s) == [s[..i], s[i + 1..][..j], s[i + 1..][j + 1..]]
  {
  }

  lemma EncodedNoColon(n: nat)
    ensures NoColon(Encode(n))
  {
    DigitsAreDigits(n);
  }

  /** A token verifies to its instance until it expires, and to nothing from then on. */
  lemma MadeTokenVerifies(pk: nat, issued: nat, lifetime: int, now: nat, sign: Signer)
    requires issued + lifetime >= 0 && Survives(pk) && Survives(issued + lifetime)
    ensures VerifyToken(MakeToken(pk, issued, lifetime, sign), now, sign)
            == Success(if now <= issued + lifetime then Some(pk) else None)
  {
    EncodedNoColon(pk);
    EncodedNoColon(issued + lifetime);
    SurvivorsRoundTrip(pk);
    SurvivorsRoundTrip(issued + lifetime);
    VerifySigned(Encode(pk), Encode(issued + lifetime), pk, issued + lifetime, now, sign);
  }

  /** In particular for every id and time below 62 times 2 to the 48th, and so below 2 to the 53rd. */
  lemma SmallTokensVerify(pk: nat, issued: nat, lifetime: int, now: nat, sign: Signer)
    requires pk < EXACT + 61 && 0 <= issued + lifetime < EXACT + 61
    ensures VerifyToken(MakeToken(pk, issued, lifetime, sign), now, sign)
            == Success(if now <= issued + lifetime then Some(pk) else None)
  {
    SmallNumbersSurvive(pk);
    SmallNumbersSurvive(issued + lifetime);
    MadeTokenVerifies(pk, issued, lifetime, now, sign);
  }

  lemma VerifySigned(a: string, b: string, pk: nat, epoch: nat, now: nat, sign: Signer)
    requires NoColon(a) && NoColon(b)
    requires Decode(a) == Success(pk) && Decode(b) == Success(epoch)
    ensures VerifyToken(Signed(a, b, sign), now, sign) == Success(if now <= epoch then Some(pk) else None)
  {
    SplitJoined(a, b, sign(a + ":" + b));
  }

  /** A text with a colon at the end of its first part. */
  lemma AtColon(s: string, i: nat)
    requires i < |s| && s[i] == ':'
    ensures s == s[..i] + ":" + s[i + 1..]
  {
    SplitAt(s, i);
    assert [s[i]] == ":";
  }

  lemma SplitParts(s: string)
    requires |Split(s)| == 3
    ensures s == Split(s)[0] + ":" + Split(s)[1] + ":" + Split(s)[2]
  {
    var i := IndexOfColon(s);
    var rest := s[i + 1..];
    var j := IndexOfColon(rest);
    AtColon(s, i);
    AtColon(rest, j);
    Assoc(s[..i] + ":", rest[..j] + ":", rest[j + 1..]);
    Assoc(s[..i] + ":", rest[..j], ":");
  }

  /** Whatever verifies is signed, unexpired, and names the instance it verifies to. */
  lemma VerifiedTokenIsSigned(token: string, now: nat, sign: Signer, pk: nat)
    requires VerifyToken(token, now, sign) == Success(Some(pk))
    ensures var parts := Split(token);
            && |parts| == 3
            && token == Signed(parts[0], parts[1], sign)
            && Decode(parts[0]) == Success(pk)
            && Decode(parts[1]).Success? && now <= Decode(parts[1]).value
  {
    SplitParts(token);
  }
}
