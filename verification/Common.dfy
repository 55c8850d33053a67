/** Small shared vocabulary. Instants and durations are whole nanoseconds. */
module Common {
  datatype Option<+T> = None | Some(value: T)

  const SECOND: int := 1_000_000_000
  const HOUR: int := 3600 * SECOND
  const DAY: int := 24 * HOUR

  // The system clock: every reading is at or after the one before, by any amount.
  class Clock {
    var now: int

    constructor ()
    {
      now := 0;
    }

    method Now() returns (t: int)
      modifies this
      ensures t == now >= old(now)
    {
      var elapsed: int :| elapsed >= 0;
      now := now + elapsed;
      t := now;
    }
  }

  // Unicode white space, as trimming and blankness tests see it.
  predicate IsSpace(c: char) {
    || '\U{9}' <= c <= '\U{d}' || c == ' ' || c == '\U{85}' || c == '\U{a0}' || c == '\U{1680}'
    || '\U{2000}' <= c <= '\U{200a}' || c == '\U{2028}' || c == '\U{2029}' || c == '\U{202f}'
    || c == '\U{205f}' || c == '\U{3000}'
  }

  function TrimLeft(s: string): (t: string)
    ensures |t| <= |s| && (t != [] ==> !IsSpace(t[0]))
  {
    if s != [] && IsSpace(s[0]) then TrimLeft(s[1..]) else s
  }

  function TrimRight(s: string): (t: string)
    ensures t <= s && (t != [] ==> !IsSpace(t[|t| - 1]))
  {
    if s != [] && IsSpace(s[|s| - 1]) then TrimRight(s[..|s| - 1]) else s
  }

  // The string without leading and trailing white space.
  function TrimSpace(s: string): (t: string)
    ensures t != [] ==> !IsSpace(t[0]) && !IsSpace(t[|t| - 1])
  {
    TrimRight(TrimLeft(s))
  }

  // The nearest integer, halves going away from zero.
  function Round(x: real): (n: int)
    ensures -0.5 <= n as real - x <= 0.5
    ensures x >= 0.0 ==> n >= 0
    ensures x <= 0.0 ==> n <= 0
  {
    if x >= 0.0 then (x + 0.5).Floor else -((-x + 0.5).Floor)
  }

  lemma RoundMonotone(x: real, y: real)
    requires x <= y
    ensures Round(x) <= Round(y)
  {
  }

  lemma RoundHalves(n: int)
    requires n >= 0
    ensures Round(n as real + 0.5) == n + 1 && Round(-(n as real) - 0.5) == -n - 1
  {
  }

  // What trimming leaves is what lies between the white space at both ends.
  lemma {:induction false} TrimmedEnds(s: string) returns (i: nat, j: nat)
    ensures i <= j <= |s| && TrimSpace(s) == s[i..j]
    ensures forall k | 0 <= k < i || j <= k < |s| :: IsSpace(s[k])
  {
    hide IsSpace;
    i := TrimmedLeft(s);
    var t := s[i..];
    j := TrimmedRight(t);
    j := i + j;
    assert t[..j - i] == s[i..j];
    assert forall k | j <= k < |s| :: s[k] == t[k - i];
  }

  lemma {:induction false} TrimmedLeft(s: string) returns (i: nat)
    ensures i <= |s| && TrimLeft(s) == s[i..] && forall k | 0 <= k < i :: IsSpace(s[k])
  {
    hide IsSpace;
    i := 0;
    if s != [] && IsSpace(s[0]) {
      i := TrimmedLeft(s[1..]);
      i := i + 1;
      assert forall k | 1 <= k < i :: s[k] == s[1..][k - 1];
    }
  }

  lemma {:induction false} TrimmedRight(s: string) returns (j: nat)
    ensures j <= |s| && TrimRight(s) == s[..j] && forall k | j <= k < |s| :: IsSpace(s[k])
  {
    hide IsSpace;
    j := |s|;
    if s != [] && IsSpace(s[|s| - 1]) {
      j := TrimmedRight(s[..|s| - 1]);
      assert s[..|s| - 1][..j] == s[..j];
    }
  }

  lemma AsciiSpaces(c: char)
    requires c < '\U{80}'
    ensures IsSpace(c) <==> c in {' ', '\t', '\n', '\U{b}', '\U{c}', '\r'}
  {
  }
}
