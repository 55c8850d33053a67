/** The check that decides whether a run of digits is redacted as a card number. */
module Luhn {

  predicate IsDigit(c: char) {
    '0' <= c <= '9'
  }

  type digit = d: int | 0 <= d <= 9

  function Value(c: char): digit
    requires IsDigit(c)
  {
    (c as int) - ('0' as int)
  }

  // The digits of a string, whatever separates them.
  function Digits(s: string): seq<digit> {
    if s == [] then []
    else DigitOf(s[0]) + Digits(s[1..])
  }

  function DigitOf(c: char): seq<digit> {
    if IsDigit(c) then [Value(c)] else []
  }

  // The checksum as ISO/IEC 7812-1, Annex B, states it: from the right, digits are taken in pairs,
  // one as it is and one doubled with the two figures of the product added up.
  function Checksum(ds: seq<digit>): nat {
    var n := |ds|;
    if n == 0 then 0 else if n == 1 then ds[0]
    else
      var product: nat := 2 * (ds[n - 2] as int);
      Checksum(ds[..n - 2]) + (product / 10 + product % 10) + ds[n - 1]
  }

  predicate Accepts(s: string) {
    var ds := Digits(s);
    13 <= |ds| <= 19 && Checksum(ds) % 10 == 0
  }

  method LuhnOK(s: string) returns (ok: bool)
    ensures ok == Accepts(s)
  {
    hide Digits, Checksum, Weighted;
    var digits: seq<digit> := [];
    DigitsEnds(s);
    for i := 0 to |s|
      invariant digits == Digits(s[..i])
    {
      DigitsNext(s, i);
      if IsDigit(s[i]) {
        digits := digits + [Value(s[i])];
      }
    }
    if |digits| < 13 || |digits| > 19 {
      return false;
    }
    assert digits[..|digits|] == digits;
    var sum := 0;
    var double := false;
    var i := |digits| - 1;
    while i >= 0
      invariant -1 <= i < |digits|
      invariant sum + Weighted(digits[..i + 1], double) == Weighted(digits, false)
    {
      var d: int := digits[i];
      if double {
        d := d * 2;
        if d > 9 {
          d := d - 9;
        }
      }
      WeightedNext(digits, i, double);
      sum := sum + d;
      double := !double;
      i := i - 1;
    }
    WeightedNone(digits, double);
    WeightedIsChecksum(digits);
    return sum % 10 == 0;
  }

  // ------------------------------------------------------------- the checksum one digit at a time

  // What a digit adds to the sum.
  function Term(d: digit, double: bool): digit {
    if !double then d else if d > 4 then 2 * d - 9 else 2 * d
  }

  function Weighted(ds: seq<digit>, double: bool): nat {
    var n := |ds|;
    if n == 0 then 0 else Weighted(ds[..n - 1], !double) + Term(ds[n - 1], double)
  }

  lemma WeightedNext(ds: seq<digit>, i: nat, double: bool)
    requires i < |ds|
    ensures Weighted(ds[..i + 1], double) == Weighted(ds[..i], !double) + Term(ds[i], double)
  {
    assert ds[..i + 1][..i] == ds[..i];
  }

  lemma WeightedNone(ds: seq<digit>, double: bool)
    ensures Weighted(ds[..0], double) == 0
  {
  }

  // Adding up the two figures of a doubled digit.
  lemma TermIsFigureSum(d: digit)
    ensures var product: nat := 2 * (d as int); Term(d, true) == product / 10 + product % 10
  {
  }

  lemma {:induction false} WeightedIsChecksum(ds: seq<digit>)
    ensures Weighted(ds, false) == Checksum(ds)
  {
    var n := |ds|;
    if n >= 2 {
      WeightedIsChecksum(ds[..n - 2]);
      TermIsFigureSum(ds[n - 2]);
      WeightedNext(ds, n - 1, false);
      WeightedNext(ds, n - 2, true);
      assert ds[..n] == ds;
    }
  }

  // Whether a digit with n digits to its right is doubled.
  predicate Doubled(n: nat, double: bool) {
    if n % 2 == 0 then double else !double
  }

  lemma {:induction false} WeightedJoin(a: seq<digit>, b: seq<digit>, double: bool)
    ensures Weighted(a + b, double) == Weighted(a, Doubled(|b|, double)) + Weighted(b, double)
    decreases |b|
  {
    if b == [] {
      assert a + b == a;
    } else {
      var front := b[..|b| - 1];
      assert (a + b)[..|a + b| - 1] == a + front;
      WeightedJoin(a, front, !double);
    }
  }

  lemma {:induction false} ChecksumAround(a: seq<digit>, d: digit, b: seq<digit>)
    ensures Checksum(a + [d] + b) ==
            Weighted(a, !Doubled(|b|, false)) + Term(d, Doubled(|b|, false)) + Weighted(b, false)
  {
    WeightedIsChecksum(a + [d] + b);
    WeightedJoin(a + [d], b, false);
    assert (a + [d])[..|a|] == a;
  }

  lemma {:induction false} ChecksumAroundTwo(a: seq<digit>, d: digit, e: digit, b: seq<digit>)
    ensures var w := Doubled(|b|, false);
            Checksum(a + [d, e] + b) == Weighted(a, w) + Term(d, !w) + Term(e, w) + Weighted(b, false)
  {
    var w := Doubled(|b|, false);
    ChecksumAround(a + [d], e, b);
    assert (a + [d]) + [e] == a + [d, e];
    assert (a + [d])[..|a|] == a;
  }

  // --------------------------------------------------------------------------- error detection

  lemma {:induction false} DigitsJoin(s: string, t: string)
    ensures Digits(s + t) == Digits(s) + Digits(t)
  {
    hide DigitOf;
    if s == [] {
      assert s + t == t;
    } else {
      var d, more := DigitOf(s[0]), Digits(s[1..]);
      assert (s + t)[0] == s[0] && (s + t)[1..] == s[1..] + t;
      DigitsJoin(s[1..], t);
      assert d + (more + Digits(t)) == (d + more) + Digits(t);
    }
  }

  lemma DigitsNext(s: string, i: nat)
    requires i < |s|
    ensures Digits(s[..i + 1]) == Digits(s[..i]) + DigitOf(s[i])
  {
    DigitsJoin(s[..i], [s[i]]);
    assert s[..i + 1] == s[..i] + [s[i]] && [s[i]][1..] == [];
  }

  lemma DigitsEnds(s: string)
    ensures Digits(s[..0]) == [] && Digits(s[..|s|]) == Digits(s)
  {
    assert s[..|s|] == s;
  }

  lemma {:induction false} NoDigits(s: string)
    requires forall c <- s :: !IsDigit(c)
    ensures Digits(s) == []
  {
    if s != [] {
      NoDigits(s[1..]);
    }
  }

  lemma DigitsAround(s: string, c: char, t: string)
    requires IsDigit(c)
    ensures Digits(s + [c] + t) == Digits(s) + [Value(c)] + Digits(t)
  {
    DigitsJoin(s + [c], t);
    DigitsJoin(s, [c]);
    assert [c][1..] == [];
  }

  // Changing any one digit of an accepted number makes it rejected.
  lemma OneDigitChanged(s: string, i: nat, c: char)
    requires Accepts(s) && i < |s| && IsDigit(s[i]) && IsDigit(c) && c != s[i]
    ensures !Accepts(s[i := c])
  {
    hide Digits, Checksum, Weighted, Doubled;
    var l, r := s[..i], s[i + 1..];
    assert s == l + [s[i]] + r && s[i := c] == l + [c] + r;
    DigitsAround(l, s[i], r);
    DigitsAround(l, c, r);
    ChecksumAround(Digits(l), Value(s[i]), Digits(r));
    ChecksumAround(Digits(l), Value(c), Digits(r));
  }

  predicate ZeroNine(d: digit, e: digit) {
    (d == 0 && e == 9) || (d == 9 && e == 0)
  }

  // Swapping two neighbouring digits of an accepted number goes unnoticed exactly when they are
  // equal, or are 0 and 9.
  lemma NeighboursSwapped(s: string, i: nat, j: nat)
    requires Accepts(s) && i < j < |s| && IsDigit(s[i]) && IsDigit(s[j])
    requires forall k | i < k < j :: !IsDigit(s[k])
    ensures Accepts(s[i := s[j]][j := s[i]]) <==> s[i] == s[j] || ZeroNine(Value(s[i]), Value(s[j]))
  {
    hide Digits, Checksum, Weighted, Doubled, Term;
    var l, m, r := s[..i], s[i + 1..j], s[j + 1..];
    DigitsAroundTwo(l, s[i], m, s[j], r);
    DigitsAroundTwo(l, s[j], m, s[i], r);
    assert s == l + [s[i]] + (m + [s[j]] + r);
    assert s[i := s[j]][j := s[i]] == l + [s[j]] + (m + [s[i]] + r);
    var d, e := Value(s[i]), Value(s[j]);
    ChecksumAroundTwo(Digits(l), d, e, Digits(r));
    ChecksumAroundTwo(Digits(l), e, d, Digits(r));
    SwapNoticed(d, e);
  }

  lemma DigitsAroundTwo(l: string, c: char, m: string, d: char, r: string)
    requires IsDigit(c) && IsDigit(d) && forall k <- m :: !IsDigit(k)
    ensures Digits(l + [c] + (m + [d] + r)) == Digits(l) + [Value(c), Value(d)] + Digits(r)
  {
    DigitsAround(l, c, m + [d] + r);
    DigitsAround(m, d, r);
    NoDigits(m);
  }

  lemma SwapNoticed(d: digit, e: digit)
    ensures (Term(d, true) + Term(e, false) - Term(e, true) - Term(d, false)) % 10 == 0
            <==> d == e || ZeroNine(d, e)
  {
  }

  // Numbers of twelve to eighteen digits have exactly one check digit that makes them accepted; shorter
  // and longer ones have none.
  lemma OneCheckDigit(s: string, c: char, d: char)
    ensures IsDigit(c) && IsDigit(d) && Accepts(s + [c]) && Accepts(s + [d]) ==> c == d
    ensures (exists x :: IsDigit(x) && Accepts(s + [x])) <==> 12 <= |DigitPlaces(s)| <= 18
  {
    hide Accepts, Digits, Checksum, Weighted, DigitPlaces;
    var w := Weighted(Digits(s), true);
    forall x | IsDigit(x) ensures Accepts(s + [x]) <==> Completes(|DigitPlaces(s)|, w, x) {
      AcceptsWith(s, x);
    }
    var x := Completion(w);
    assert Completes(|DigitPlaces(s)|, w, x) <==> 12 <= |DigitPlaces(s)| <= 18;
  }

  predicate Completes(n: nat, w: nat, x: char)
    requires IsDigit(x)
  {
    12 <= n <= 18 && (w + (x as int - '0' as int)) % 10 == 0
  }

  lemma Completion(w: nat) returns (x: char)
    ensures IsDigit(x) && (w + (x as int - '0' as int)) % 10 == 0
  {
    var rest := (10 - w % 10) % 10;
    x := (rest + '0' as int) as char;
  }

  lemma AcceptsWith(s: string, x: char)
    requires IsDigit(x)
    ensures Accepts(s + [x]) <==> Completes(|DigitPlaces(s)|, Weighted(Digits(s), true), x)
  {
    hide Digits, Checksum, Weighted, DigitPlaces;
    PlacesCount(s);
    CheckDigitAt(s, x);
  }

  // Where the digits of a string are.
  function DigitPlaces(s: string): set<nat> {
    set i: nat | i < |s| && '0' <= s[i] <= '9'
  }

  lemma {:induction false} PlacesCount(s: string)
    ensures |DigitPlaces(s)| == |Digits(s)|
  {
    hide Digits;
    DigitsEnds(s);
    if s == [] {
      assert DigitPlaces(s) == {};
    } else {
      var n := |s| - 1;
      PlacesCount(s[..n]);
      DigitsNext(s, n);
      assert DigitPlaces(s) == DigitPlaces(s[..n]) + if '0' <= s[n] <= '9' then {n} else {};
    }
  }

  lemma CheckDigitAt(s: string, x: char)
    requires IsDigit(x)
    ensures Digits(s + [x]) == Digits(s) + [Value(x)]
    ensures Checksum(Digits(s + [x])) == Weighted(Digits(s), true) + (x as int - '0' as int)
  {
    hide Digits;
    DigitsJoin(s, [x]);
    DigitsNext([x], 0);
    DigitsEnds([x]);
    WeightedIsChecksum(Digits(s) + [Value(x)]);
    assert (Digits(s) + [Value(x)])[..|Digits(s)|] == Digits(s);
  }

  // A row of zeros is accepted.
  lemma {:induction false} ZerosAccepted(n: nat)
    requires 13 <= n <= 19
    ensures Accepts(seq(n, _ => '0'))
  {
    hide Checksum;
    ZeroDigits(n);
    ZeroSum(n);
  }

  lemma {:induction false} ZeroDigits(n: nat)
    ensures Digits(seq(n, _ => '0')) == seq(n, _ => 0)
  {
    if n > 0 {
      ZeroDigits(n - 1);
      assert seq(n, _ => '0')[1..] == seq(n - 1, _ => '0');
    }
  }

  lemma {:induction false} ZeroSum(n: nat)
    ensures Checksum(seq(n, _ => 0)) == 0
  {
    if n > 1 {
      ZeroSum(n - 2);
      assert seq(n, _ => 0)[..n - 2] == seq(n - 2, _ => 0);
    }
  }
}
