/** The variable-length integers of the RAR 5.0 archive format: seven value bits per byte, least
    significant group first, with the top bit of a byte saying that another byte follows. A value
    must fit in an unsigned 64-bit integer, so it takes at most ten bytes. */
module VInt {

  type byte = b: int | 0 <= b < 256

  const TWO_TO_THE_64: nat := 0x1_0000_0000_0000_0000

  // The outcome of reading one integer: its value and the number of bytes it took.
  datatype Reading = Bad | Got(value: nat, used: nat)

  function Pow128(k: nat): (p: nat)
    ensures p >= 1
  {
    if k == 0 then 1 else 128 * Pow128(k - 1)
  }

  // Bitwise "or" of two non-negative integers.
  function Or(a: nat, b: nat): nat
    decreases a + b
  {
    if a == 0 then b
    else if b == 0 then a
    else (if a % 2 == 1 || b % 2 == 1 then 1 else 0) + 2 * Or(a / 2, b / 2)
  }

  // The exact integer denoted by a run of 7-bit groups.
  function Groups(bs: seq<byte>): nat {
    if bs == [] then 0 else bs[0] % 128 + 128 * Groups(bs[1..])
  }

  // The number of bytes up to and including the first one without a continuation bit, or 0 if
  // every byte asks for another one.
  function Span(data: seq<byte>): (n: nat)
    ensures n <= |data|
  {
    if data == [] then 0
    else if data[0] < 128 then 1
    else
      var n := Span(data[1..]);
      if n == 0 then 0 else n + 1
  }

  // What reading an integer at the front of data must give.
  function Read(data: seq<byte>): (r: Reading)
    ensures r.Got? ==> 1 <= r.used <= |data|
  {
    var n := Span(data);
    if n == 0 || n > 10 || (n == 10 && data[9] > 1) then Bad else Got(Groups(data[..n]), n)
  }

  // What writing an integer must give.
  function Print(value: nat): (bs: seq<byte>)
    ensures |bs| >= 1
  {
    if value < 128 then [value] else [value % 128 + 128] + Print(value / 128)
  }

  method ReadVInt(data: seq<byte>) returns (r: Reading)
    ensures r == Read(data)
  {
    var value := 0;
    for i := 0 to |data|
      invariant i <= 9
      invariant forall k | 0 <= k < i :: data[k] >= 128
      invariant value == Groups(data[..i]) < Pow128(i)
    {
      var b := data[i];
      if i >= 10 || (i == 9 && b > 1) {
        SpanReaches(data, i);
        return Bad;
      }
      GroupsSnoc(data[..i], b);
      assert data[..i + 1] == data[..i] + [b];
      ShiftFits(b, i);
      OrIsSum(value, b % 128, i);
      value := Or(value, (b % 128) * Pow128(i) % TWO_TO_THE_64);
      if b < 128 {
        SpanIs(data, i);
        return Got(value, i + 1);
      }
      GroupsBound(data[..i + 1]);
    }
    SpanReaches(data, |data|);
    return Bad;
  }

  method PrintVInt(value: nat) returns (out: seq<byte>)
    ensures out == Print(value)
  {
    var v := value;
    out := [];
    while true
      invariant out + Print(v) == Print(value)
      decreases v
    {
      ghost var before := v;
      var b: byte := v % 128;
      v := v / 128;
      if v != 0 {
        b := b + 128;
      }
      assert Print(before) == if v == 0 then [b] else [b] + Print(v);
      assert v != 0 ==> out + Print(before) == out + [b] + Print(v);
      out := out + [b];
      if v == 0 {
        return;
      }
    }
  }

  // -------------------------------------------------------------------------------- arithmetic

  lemma {:induction false} OrDisjoint(a: nat, b: nat, k: nat, p: nat)
    requires p == Pow2(k) && a < p
    ensures Or(a, b * p) == a + b * p
    decreases k
  {
    if a != 0 && b != 0 {
      var q := Pow2(k - 1);
      assert b * p == 2 * (b * q) by { assert p == 2 * q; }
      assert (b * p) / 2 == b * q && (b * p) % 2 == 0;
      assert b * p != 0;
      OrDisjoint(a / 2, b, k - 1, q);
    }
  }

  function Pow2(k: nat): (p: nat)
    ensures p >= 1
  {
    if k == 0 then 1 else 2 * Pow2(k - 1)
  }

  lemma {:induction false} Pow128IsPow2(k: nat)
    ensures Pow128(k) == Pow2(7 * k)
  {
    if k > 0 {
      Pow128IsPow2(k - 1);
      var m := 7 * (k - 1);
      assert Pow2(m + 7) == 2 * Pow2(m + 6) == 4 * Pow2(m + 5) == 8 * Pow2(m + 4)
          == 16 * Pow2(m + 3) == 32 * Pow2(m + 2) == 64 * Pow2(m + 1) == 128 * Pow2(m);
    }
  }

  // Shifting a group into place and "or"-ing it onto the groups below is addition.
  lemma OrIsSum(low: nat, group: nat, i: nat)
    requires low < Pow128(i)
    ensures Or(low, group * Pow128(i)) == low + group * Pow128(i)
  {
    Pow128IsPow2(i);
    OrDisjoint(low, group, 7 * i, Pow128(i));
  }

  lemma Pow128Nine()
    ensures Pow128(9) == 0x8000_0000_0000_0000
  {
  }

  lemma {:induction false} Pow128Monotone(i: nat, j: nat)
    requires i <= j
    ensures Pow128(i) <= Pow128(j)
    decreases j
  {
    if i < j {
      Pow128Monotone(i, j - 1);
    }
  }

  // The shift of a group that the reader accepts loses no bit of a 64-bit word.
  lemma ShiftFits(b: byte, i: nat)
    requires i < 9 || (i == 9 && b <= 1)
    ensures (b % 128) * Pow128(i) % TWO_TO_THE_64 == (b % 128) * Pow128(i)
  {
    Pow128Nine();
    var g, p := b % 128, Pow128(i);
    if i < 9 {
      Pow128Monotone(i + 1, 9);
      ScaledBelow(g, p, 128);
    } else {
      ScaledBelow(g, p, 2);
    }
    ModSmall(g * p, TWO_TO_THE_64);
  }

  lemma ScaledBelow(g: nat, p: nat, c: nat)
    requires g < c && p > 0
    ensures 0 <= g * p < c * p
  {
  }

  lemma ModSmall(x: nat, n: nat)
    requires x < n
    ensures x % n == x
  {
  }

  lemma {:induction false} GroupsSnoc(bs: seq<byte>, b: byte)
    ensures Groups(bs + [b]) == Groups(bs) + (b % 128) * Pow128(|bs|)
  {
    if bs == [] {
      assert bs + [b] == [b];
      assert Groups([b][1..]) == 0;
    } else {
      GroupsSnoc(bs[1..], b);
      assert (bs + [b])[1..] == bs[1..] + [b];
      var g, p := b % 128, Pow128(|bs| - 1);
      assert 128 * (g * p) == g * (128 * p);
    }
  }

  lemma {:induction false} GroupsBound(bs: seq<byte>)
    ensures Groups(bs) < Pow128(|bs|)
  {
    if bs != [] {
      GroupsBound(bs[1..]);
    }
  }

  // ------------------------------------------------------------------------------- span lemmas

  lemma {:induction false} SpanIs(data: seq<byte>, i: nat)
    requires i < |data| && data[i] < 128
    requires forall k | 0 <= k < i :: data[k] >= 128
    ensures Span(data) == i + 1
  {
    if i > 0 {
      SpanIs(data[1..], i - 1);
    }
  }

  lemma {:induction false} SpanReaches(data: seq<byte>, i: nat)
    requires i <= |data|
    requires forall k | 0 <= k < i :: data[k] >= 128
    ensures Span(data) == 0 || Span(data) > i
  {
    if i > 0 {
      SpanReaches(data[1..], i - 1);
    }
  }

  lemma {:induction false} SpanEnds(data: seq<byte>)
    ensures Span(data) > 0 ==> data[Span(data) - 1] < 128
    ensures forall k | 0 <= k < Span(data) - 1 :: data[k] >= 128
  {
    if data != [] && data[0] >= 128 {
      SpanEnds(data[1..]);
    }
  }

  // A reading depends only on the bytes it consumed.
  lemma ReadStable(data: seq<byte>, other: seq<byte>)
    requires Read(data).Got?
    requires Read(data).used <= |other| && other[..Read(data).used] == data[..Read(data).used]
    ensures Read(other) == Read(data)
  {
    var n := Read(data).used;
    SpanEnds(data);
    assert forall k | 0 <= k < n :: other[k] == other[..n][k] == data[..n][k] == data[k];
    SpanIs(other, n - 1);
  }

  // A run of bytes that each ask for another, up to one that does not, of at most 64 bits: nine times
  // seven, and one more in a tenth byte.
  predicate Ends(data: seq<byte>, n: nat) {
    && 1 <= n <= |data| && n <= 10 && data[n - 1] < 128 && (n == 10 ==> data[9] <= 1)
    && forall k | 0 <= k < n - 1 :: data[k] >= 128
  }

  // Reading succeeds exactly if there is one, and then takes that many bytes.
  lemma {:induction false} ReadIff(data: seq<byte>, n: nat)
    ensures Ends(data, n) ==> Read(data) == Got(Groups(data[..n]), n)
    ensures Read(data).Got? ==> Ends(data, Read(data).used)
  {
    if Ends(data, n) {
      SpanIs(data, n - 1);
    }
    SpanEnds(data);
  }

  // Shortening the input makes a reading fail or leaves it as it was.
  lemma ReadTruncated(data: seq<byte>, m: nat)
    requires m <= |data|
    ensures Read(data[..m]).Bad? || Read(data[..m]) == Read(data)
  {
    var r := Read(data[..m]);
    if r.Got? {
      assert data[..m][..r.used] == data[..r.used];
      ReadStable(data[..m], data);
    }
  }

  // Whatever the input, a successful reading is the exact sum of the 7-bit groups it consumed,
  // fits 64 bits, and would be the same before any other continuation.
  lemma ReadExact(data: seq<byte>, suffix: seq<byte>)
    requires Read(data).Got?
    ensures var r := Read(data);
            && 1 <= r.used <= 10
            && r.value == Groups(data[..r.used]) < TWO_TO_THE_64
            && Read(data[..r.used] + suffix) == r
  {
    var n := Read(data).used;
    assert (data[..n] + suffix)[..n] == data[..n];
    ReadStable(data, data[..n] + suffix);
    Pow128Nine();
    if n <= 9 {
      GroupsBound(data[..n]);
      Pow128Monotone(n, 9);
    } else {
      assert data[..10] == data[..9] + [data[9]];
      GroupsSnoc(data[..9], data[9]);
      GroupsBound(data[..9]);
    }
  }

  // -------------------------------------------------------------------------------- round trip

  lemma {:induction false} PrintShape(value: nat)
    ensures var bs := Print(value);
            && Groups(bs) == value
            && bs[|bs| - 1] < 128
            && forall k | 0 <= k < |bs| - 1 :: bs[k] >= 128
  {
    if value >= 128 {
      PrintShape(value / 128);
      assert Print(value)[1..] == Print(value / 128);
    } else {
      assert Groups(Print(value)[1..]) == 0;
    }
  }

  lemma {:induction false} PrintTop(value: nat, k: nat, c: nat)
    requires c <= 128 && value < c * Pow128(k)
    ensures |Print(value)| <= k + 1
    ensures |Print(value)| == k + 1 ==> Print(value)[k] < c
    decreases k
  {
    if k > 0 && value >= 128 {
      assert c * Pow128(k) == 128 * (c * Pow128(k - 1)) by {
        var p := Pow128(k - 1);
        assert c * (128 * p) == 128 * (c * p);
      }
      assert value / 128 < c * Pow128(k - 1);
      PrintTop(value / 128, k - 1, c);
    }
  }

  // Reading inverts writing for every 64-bit value, whatever follows, and consumes exactly the
  // written bytes, of which there are one to ten.
  lemma RoundTrip(value: nat, suffix: seq<byte>)
    requires value < TWO_TO_THE_64
    ensures 1 <= |Print(value)| <= 10
    ensures Read(Print(value) + suffix) == Got(value, |Print(value)|)
    ensures (Print(value) + suffix)[|Print(value)|..] == suffix
  {
    var bs := Print(value);
    PrintShape(value);
    Pow128Nine();
    PrintTop(value, 9, 2);
    SpanIs(bs + suffix, |bs| - 1);
    assert (bs + suffix)[..|bs|] == bs;
  }
}
