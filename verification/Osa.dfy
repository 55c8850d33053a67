/** The restricted (optimal string alignment) Damerau-Levenshtein distance behind brand lookalike
    detection, and the edit scripts it is the least cost of. */
module Osa {

  // -------------------------------------------------------------------- reference: edit scripts

  // One step of an alignment, with the characters it takes from the left and right string.
  datatype Edit = Keep(c: char) | Substitute(c: char, d: char) | Insert(d: char) | Delete(c: char)
                | Swap(c: char, d: char)
  {
    function Source(): string {
      match this
      case Keep(c) => [c]
      case Substitute(c, _) => [c]
      case Insert(_) => []
      case Delete(c) => [c]
      case Swap(c, d) => [c, d]
    }

    function Target(): string {
      match this
      case Keep(c) => [c]
      case Substitute(_, d) => [d]
      case Insert(d) => [d]
      case Delete(_) => []
      case Swap(c, d) => [d, c]
    }

    function Cost(): nat {
      if Keep? then 0 else 1
    }

    function Reverse(): Edit {
      match this
      case Keep(c) => Keep(c)
      case Substitute(c, d) => Substitute(d, c)
      case Insert(d) => Delete(d)
      case Delete(c) => Insert(c)
      case Swap(c, d) => Swap(d, c)
    }
  }

  type Script = seq<Edit>

  // The string a script starts from. No character is touched twice: that is the restriction.
  function Source(s: Script): string {
    if s == [] then [] else Source(s[..|s| - 1]) + s[|s| - 1].Source()
  }

  function Target(s: Script): string {
    if s == [] then [] else Target(s[..|s| - 1]) + s[|s| - 1].Target()
  }

  function Cost(s: Script): nat {
    if s == [] then 0 else Cost(s[..|s| - 1]) + s[|s| - 1].Cost()
  }

  predicate Aligns(s: Script, a: string, b: string) {
    Source(s) == a && Target(s) == b
  }

  // ------------------------------------------------------------------------ the recurrence

  function Min(a: nat, b: nat): nat {
    if a <= b then a else b
  }

  // A cell of the table from its neighbours above, to the left, and one and two steps back.
  function Cell(same: bool, swapped: bool, up: nat, left: nat, diagonal: nat, back: nat): nat {
    var best := Min(up + 1, Min(left + 1, diagonal + if same then 0 else 1));
    if swapped then Min(best, back + 1) else best
  }

  // The recurrence on prefixes that the table holds.
  function Distance(a: string, b: string): nat
    decreases |a| + |b|
  {
    var i, j := |a|, |b|;
    if i == 0 then j else if j == 0 then i else
    Cell(a[i - 1] == b[j - 1], i > 1 && j > 1 && a[i - 1] == b[j - 2] && a[i - 2] == b[j - 1],
         Distance(a[..i - 1], b), Distance(a, b[..j - 1]), Distance(a[..i - 1], b[..j - 1]),
         if i > 1 && j > 1 then Distance(a[..i - 2], b[..j - 2]) else 0)
  }

  // The distance between the prefixes of length i and j.
  function At(a: string, b: string, i: nat, j: nat): nat
    requires i <= |a| && j <= |b|
  {
    Distance(a[..i], b[..j])
  }

  // Fills the table of distances between prefixes row by row.
  method DamerauLevenshtein(a: string, b: string) returns (r: nat)
    ensures r == Distance(a, b)
  {
    hide At;
    AtEnd(a, b);
    AtEdges(a, b);
    var la, lb := |a|, |b|;
    if la == 0 { return lb; }
    if lb == 0 { return la; }
    var d := new nat[la + 1, lb + 1];
    for i := 0 to la + 1
      invariant forall k | 0 <= k < i :: d[k, 0] == k
    {
      d[i, 0] := i;
    }
    for j := 0 to lb + 1
      invariant forall k | 0 <= k <= la :: d[k, 0] == k
      invariant forall k | 0 <= k < j :: d[0, k] == k
    {
      d[0, j] := j;
    }
    for i := 1 to la + 1
      invariant forall x, y | 0 <= x < i && 0 <= y <= lb :: d[x, y] == At(a, b, x, y)
      invariant forall x | i <= x <= la :: d[x, 0] == x
    {
      for j := 1 to lb + 1
        invariant forall x, y | 0 <= x < i && 0 <= y <= lb :: d[x, y] == At(a, b, x, y)
        invariant forall y | 0 <= y < j :: d[i, y] == At(a, b, i, y)
        invariant forall x | i < x <= la :: d[x, 0] == x
      {
        AtInside(a, b, i, j);
        var cost := 1;
        if a[i - 1] == b[j - 1] {
          cost := 0;
        }
        var cell := Min(d[i - 1, j] + 1, Min(d[i, j - 1] + 1, d[i - 1, j - 1] + cost));
        if i > 1 && j > 1 && a[i - 1] == b[j - 2] && a[i - 2] == b[j - 1] {
          cell := Min(cell, d[i - 2, j - 2] + 1);
        }
        d[i, j] := cell;
      }
    }
    return d[la, lb];
  }

  lemma {:induction false} AtEnd(a: string, b: string)
    ensures At(a, b, |a|, |b|) == Distance(a, b)
  {
    assert a[..|a|] == a && b[..|b|] == b;
  }

  lemma AtEdges(a: string, b: string)
    ensures forall i | 0 <= i <= |a| :: At(a, b, i, 0) == i
    ensures forall j | 0 <= j <= |b| :: At(a, b, 0, j) == j
  {
  }

  lemma AtInside(a: string, b: string, i: nat, j: nat)
    requires 1 <= i <= |a| && 1 <= j <= |b|
    ensures At(a, b, i, j) ==
            Cell(a[i - 1] == b[j - 1], i > 1 && j > 1 && a[i - 1] == b[j - 2] && a[i - 2] == b[j - 1],
                 At(a, b, i - 1, j), At(a, b, i, j - 1), At(a, b, i - 1, j - 1),
                 if i > 1 && j > 1 then At(a, b, i - 2, j - 2) else 0)
  {
    assert a[..i][..i - 1] == a[..i - 1] && b[..j][..j - 1] == b[..j - 1];
    assert i > 1 ==> a[..i][..i - 2] == a[..i - 2];
    assert j > 1 ==> b[..j][..j - 2] == b[..j - 2];
  }

  // ------------------------------------------------------------------------------- optimality

  lemma Append(s: Script, e: Edit)
    ensures Source(s + [e]) == Source(s) + e.Source()
    ensures Target(s + [e]) == Target(s) + e.Target()
    ensures Cost(s + [e]) == Cost(s) + e.Cost()
  {
  }

  lemma Empty()
    ensures Aligns([], [], []) && Cost([]) == 0
  {
  }

  // The distance never exceeds the cost of one more edit on top of shorter prefixes.
  lemma OneMoreEdit(a: string, b: string, i: nat, j: nat)
    requires i <= |a| && j <= |b|
    ensures i > 0 ==> At(a, b, i, j) <= At(a, b, i - 1, j) + 1
    ensures j > 0 ==> At(a, b, i, j) <= At(a, b, i, j - 1) + 1
    ensures i > 0 && j > 0 ==>
              At(a, b, i, j) <= At(a, b, i - 1, j - 1) + if a[i - 1] == b[j - 1] then 0 else 1
    ensures i > 1 && j > 1 && a[i - 1] == b[j - 2] && a[i - 2] == b[j - 1] ==>
              At(a, b, i, j) <= At(a, b, i - 2, j - 2) + 1
  {
    hide At;
    AtEdges(a, b);
    if i > 0 && j > 0 {
      AtInside(a, b, i, j);
    }
  }

  lemma EditOnTop(a: string, b: string, e: Edit)
    ensures Distance(a + e.Source(), b + e.Target()) <= Distance(a, b) + e.Cost()
  {
    var a', b' := a + e.Source(), b + e.Target();
    OneMoreEdit(a', b', |a'|, |b'|);
    AtEnd(a', b');
    assert a'[..|a|] == a && b'[..|b|] == b;
    assert At(a', b', |a|, |b|) == Distance(a, b);
  }

  // No script that turns one string into the other is cheaper than the distance.
  lemma {:induction false} NoneCheaper(s: Script)
    ensures Distance(Source(s), Target(s)) <= Cost(s)
  {
    if s != [] {
      var front, e := s[..|s| - 1], s[|s| - 1];
      NoneCheaper(front);
      EditOnTop(Source(front), Target(front), e);
    }
  }

  // The edit the recurrence picks last, and the prefixes it is made on.
  lemma LastEdit(a: string, b: string, i: nat, j: nat) returns (e: Edit, p: nat, q: nat)
    requires i <= |a| && j <= |b| && i + j > 0
    ensures p <= i && q <= j && p + q < i + j
    ensures a[..i] == a[..p] + e.Source() && b[..j] == b[..q] + e.Target()
    ensures At(a, b, i, j) == At(a, b, p, q) + e.Cost()
  {
    hide At;
    AtEdges(a, b);
    if j == 0 {
      return Delete(a[i - 1]), i - 1, j;
    } else if i == 0 {
      return Insert(b[j - 1]), i, j - 1;
    }
    AtInside(a, b, i, j);
    var best := At(a, b, i, j);
    if best == At(a, b, i - 1, j) + 1 {
      e, p, q := Delete(a[i - 1]), i - 1, j;
    } else if best == At(a, b, i, j - 1) + 1 {
      e, p, q := Insert(b[j - 1]), i, j - 1;
    } else if a[i - 1] == b[j - 1] && best == At(a, b, i - 1, j - 1) {
      e, p, q := Keep(a[i - 1]), i - 1, j - 1;
    } else if a[i - 1] != b[j - 1] && best == At(a, b, i - 1, j - 1) + 1 {
      e, p, q := Substitute(a[i - 1], b[j - 1]), i - 1, j - 1;
    } else {
      e, p, q := Swap(a[i - 2], a[i - 1]), i - 2, j - 2;
    }
  }

  lemma {:induction false} AttainedAt(a: string, b: string, i: nat, j: nat) returns (s: Script)
    requires i <= |a| && j <= |b|
    ensures Aligns(s, a[..i], b[..j]) && Cost(s) == At(a, b, i, j)
    decreases i + j
  {
    hide At, Source, Target, Cost;
    if i + j == 0 {
      Empty();
      AtEdges(a, b);
      return [];
    }
    var e, p, q := LastEdit(a, b, i, j);
    s := AttainedAt(a, b, p, q);
    Append(s, e);
    s := s + [e];
  }

  // Some script attains the distance.
  lemma Attained(a: string, b: string) returns (s: Script)
    ensures Aligns(s, a, b) && Cost(s) == Distance(a, b)
  {
    hide At;
    s := AttainedAt(a, b, |a|, |b|);
    AtEnd(a, b);
    assert a[..|a|] == a && b[..|b|] == b;
  }

  // The distance is the least cost of a script between the two strings.
  lemma Optimal(a: string, b: string)
    ensures exists s: Script :: Aligns(s, a, b) && Cost(s) == Distance(a, b)
    ensures forall s: Script :: Aligns(s, a, b) ==> Distance(a, b) <= Cost(s)
  {
    var s := Attained(a, b);
    forall s: Script | Aligns(s, a, b) ensures Distance(a, b) <= Cost(s) {
      NoneCheaper(s);
    }
  }

  // -------------------------------------------------------------------- metric-like properties

  function Reverse(s: Script): Script {
    if s == [] then [] else Reverse(s[..|s| - 1]) + [s[|s| - 1].Reverse()]
  }

  lemma {:induction false} ReverseAligns(s: Script)
    ensures Aligns(Reverse(s), Target(s), Source(s)) && Cost(Reverse(s)) == Cost(s)
  {
    hide Source, Target, Cost;
    Empty();
    if s != [] {
      var front, e := s[..|s| - 1], s[|s| - 1];
      ReverseAligns(front);
      assert s == front + [e];
      Append(front, e);
      Append(Reverse(front), e.Reverse());
    }
  }

  lemma {:induction false} Symmetric(a: string, b: string)
    ensures Distance(a, b) == Distance(b, a)
  {
    var s := Attained(a, b);
    var t := Attained(b, a);
    ReverseAligns(s);
    ReverseAligns(t);
    NoneCheaper(Reverse(s));
    NoneCheaper(Reverse(t));
  }

  lemma {:induction false} FreeScript(s: Script)
    requires Cost(s) == 0
    ensures Source(s) == Target(s)
  {
    if s != [] {
      FreeScript(s[..|s| - 1]);
    }
  }

  lemma {:induction false} SameIsFree(a: string)
    ensures Distance(a, a) == 0
  {
    if a != [] {
      SameIsFree(a[..|a| - 1]);
    }
  }

  lemma {:induction false} ZeroIffEqual(a: string, b: string)
    ensures Distance(a, b) == 0 <==> a == b
  {
    SameIsFree(a);
    var s := Attained(a, b);
    if Distance(a, b) == 0 {
      FreeScript(s);
    }
  }

  lemma {:induction false} ScriptLengths(s: Script)
    ensures |Source(s)| <= |Target(s)| + Cost(s) && |Target(s)| <= |Source(s)| + Cost(s)
  {
    if s != [] {
      ScriptLengths(s[..|s| - 1]);
    }
  }

  lemma {:induction false} OsaAtMostLonger(a: string, b: string)
    ensures Distance(a, b) <= if |a| <= |b| then |b| else |a|
    decreases |a| + |b|
  {
    if a != [] && b != [] {
      OsaAtMostLonger(a[..|a| - 1], b[..|b| - 1]);
    }
  }

  lemma {:induction false} Bounds(a: string, b: string)
    ensures |a| - |b| <= Distance(a, b) && |b| - |a| <= Distance(a, b)
    ensures Distance(a, b) <= |a| || Distance(a, b) <= |b|
  {
    var s := Attained(a, b);
    ScriptLengths(s);
    OsaAtMostLonger(a, b);
  }

  // Joining scripts: the distance between two joined strings is at most the sum of the parts'.
  lemma {:induction false} JoinScripts(s: Script, t: Script)
    ensures Source(s + t) == Source(s) + Source(t)
    ensures Target(s + t) == Target(s) + Target(t)
    ensures Cost(s + t) == Cost(s) + Cost(t)
    decreases |t|
  {
    hide Source, Target, Cost;
    Empty();
    if t == [] {
      assert s + t == s;
    } else {
      var front, e := t[..|t| - 1], t[|t| - 1];
      JoinScripts(s, front);
      assert t == front + [e];
      Append(front, e);
      assert s + t == (s + front) + [e];
      Append(s + front, e);
    }
  }

  lemma Subadditive(a: string, b: string, c: string, d: string)
    ensures Distance(a + c, b + d) <= Distance(a, b) + Distance(c, d)
  {
    var s := Attained(a, b);
    var t := Attained(c, d);
    JoinScripts(s, t);
    NoneCheaper(s + t);
  }

  // ------------------------------------------------------------- how far detours can be trusted

  // Two different characters stand next to each other in both strings, in opposite orders.
  predicate Crossed(a: string, b: string) {
    exists i, j :: && 0 <= i < |a| - 1 && 0 <= j < |b| - 1
                   && a[i] != a[i + 1] && a[i] == b[j + 1] && a[i + 1] == b[j]
  }

  predicate SwapFree(s: Script) {
    forall e <- s :: !e.Swap?
  }

  lemma CrossedLonger(a: string, b: string, c: string, d: string)
    requires Crossed(a, b)
    ensures Crossed(a + c, b + d)
  {
    var i, j :| 0 <= i < |a| - 1 && 0 <= j < |b| - 1 && a[i] != a[i + 1] && a[i] == b[j + 1] && a[i + 1] == b[j];
    var a', b' := a + c, b + d;
    assert a'[i] != a'[i + 1] && a'[i] == b'[j + 1] && a'[i + 1] == b'[j];
  }

  lemma SwapCrosses(a: string, b: string, c: char, d: char)
    requires c != d
    ensures Crossed(a + [c, d], b + [d, c])
  {
    var a', b' := a + [c, d], b + [d, c];
    var i, j := |a|, |b|;
    assert a'[i] == c && a'[i + 1] == d && b'[j] == d && b'[j + 1] == c;
  }

  // One edit without its swap: two substitutions, or nothing at all if the characters are the same.
  function WithoutSwap(e: Edit): (t: Script)
    ensures SwapFree(t)
  {
    match e
    case Swap(c, d) => if c == d then [Keep(c), Keep(c)] else [Substitute(c, d), Substitute(d, c)]
    case _ => [e]
  }

  lemma WithoutSwapAligns(u: Script, e: Edit)
    ensures var t := u + WithoutSwap(e);
            && Source(t) == Source(u) + e.Source() && Target(t) == Target(u) + e.Target()
            && Cost(t) <= Cost(u) + 2 * e.Cost()
            && (!e.Swap? || e.c == e.d ==> Cost(t) <= Cost(u) + e.Cost())
  {
    hide Source, Target, Cost;
    var t := WithoutSwap(e);
    Append(u, t[0]);
    if e.Swap? {
      Append(u + [t[0]], t[1]);
      assert u + t == u + [t[0]] + [t[1]];
    }
  }

  // Swaps can be done without at no more than twice the cost, or at no more cost if they are not
  // really needed.
  lemma {:induction false} WithoutSwaps(s: Script) returns (t: Script)
    ensures Aligns(t, Source(s), Target(s)) && SwapFree(t)
    ensures Cost(t) <= 2 * Cost(s) && (!Crossed(Source(s), Target(s)) ==> Cost(t) <= Cost(s))
  {
    hide Crossed, Source, Target, Cost, WithoutSwap;
    Empty();
    if s == [] {
      return [];
    }
    var front, e := s[..|s| - 1], s[|s| - 1];
    LastOf(s);
    var u := WithoutSwaps(front);
    if Crossed(Source(front), Target(front)) {
      CrossedLonger(Source(front), Target(front), e.Source(), e.Target());
    }
    if e.Swap? && e.c != e.d {
      SwapCrosses(Source(front), Target(front), e.c, e.d);
    }
    WithoutSwapAligns(u, e);
    return u + WithoutSwap(e);
  }

  lemma LastOf(s: Script)
    requires s != []
    ensures var front, e := s[..|s| - 1], s[|s| - 1];
            && Source(s) == Source(front) + e.Source() && Target(s) == Target(front) + e.Target()
            && Cost(s) == Cost(front) + e.Cost()
  {
  }

  // What becomes of one character that one script turns into a second, and another into a third.
  function Through(p: Edit, q: Edit): Script {
    match (p, q)
    case (Insert(_), Delete(_)) => []
    case (Insert(_), _) => [Insert(q.Target()[0])]
    case (_, Delete(_)) => [Delete(p.Source()[0])]
    case _ => if p.Source()[0] == q.Target()[0] then [Keep(p.Source()[0])]
              else [Substitute(p.Source()[0], q.Target()[0])]
  }

  lemma ThroughJoins(u: Script, p: Edit, q: Edit)
    requires !p.Swap? && !q.Swap? && !p.Delete? && !q.Insert? && p.Target() == q.Source()
    ensures var t := u + Through(p, q);
            && Source(t) == Source(u) + p.Source() && Target(t) == Target(u) + q.Target()
            && Cost(t) <= Cost(u) + p.Cost() + q.Cost()
    ensures SwapFree(Through(p, q))
  {
    hide Source, Target, Cost;
    if Through(p, q) == [] {
      assert u + [] == u;
    } else {
      Append(u, Through(p, q)[0]);
    }
  }

  // Scripts without swaps follow one another at no more than the cost of both.
  lemma {:induction false} Compose(s: Script, t: Script) returns (u: Script)
    requires SwapFree(s) && SwapFree(t) && Target(s) == Source(t)
    ensures Aligns(u, Source(s), Target(t)) && SwapFree(u) && Cost(u) <= Cost(s) + Cost(t)
    decreases |s| + |t|
  {
    hide Source, Target, Cost, Through;
    Empty();
    if t != [] {
      LastOf(t);
      if t[|t| - 1].Insert? {
        u := Compose(s, t[..|t| - 1]);
        Append(u, t[|t| - 1]);
        return u + [t[|t| - 1]];
      }
    }
    if s != [] {
      LastOf(s);
      if s[|s| - 1].Delete? {
        u := Compose(s[..|s| - 1], t);
        Append(u, s[|s| - 1]);
        return u + [s[|s| - 1]];
      }
    }
    if s == [] || t == [] {
      return [];
    }
    var p, q := s[|s| - 1], t[|t| - 1];
    SameLast(Target(s[..|s| - 1]), p.Target()[0], Source(t[..|t| - 1]), q.Source()[0]);
    u := Compose(s[..|s| - 1], t[..|t| - 1]);
    ThroughJoins(u, p, q);
    return u + Through(p, q);
  }

  lemma SameLast(a: string, c: char, b: string, d: char)
    requires a + [c] == b + [d]
    ensures a == b && c == d
  {
    assert |a| == |b| && (a + [c])[|a|] == (b + [d])[|b|];
    assert a == (a + [c])[..|a|] && b == (b + [d])[..|b|];
  }

  // What a detour over a string costs at most: its distance, doubled where a swap may be undone.
  function Leg(a: string, b: string): nat {
    if Crossed(a, b) then 2 * Distance(a, b) else Distance(a, b)
  }

  lemma SwapFreeLeg(a: string, b: string) returns (s: Script)
    ensures Aligns(s, a, b) && SwapFree(s) && Cost(s) <= Leg(a, b)
  {
    hide Crossed;
    var t := Attained(a, b);
    s := WithoutSwaps(t);
  }

  // For all strings, a detour is at most twice too cheap; and no detour is too cheap at all, so that
  // the triangle inequality holds, if neither leg has two characters it might swap.
  lemma DetourBounds(a: string, b: string, c: string)
    ensures Distance(a, c) <= Leg(a, b) + Leg(b, c)
    ensures !Crossed(a, b) && !Crossed(b, c) ==> Distance(a, c) <= Distance(a, b) + Distance(b, c)
  {
    hide Crossed;
    var s := SwapFreeLeg(a, b);
    var t := SwapFreeLeg(b, c);
    var u := Compose(s, t);
    NoneCheaper(u);
  }

  // The restriction does cost the triangle inequality: swapping two characters and then putting one
  // between them is cheaper than the distance exactly when the three are different.
  lemma {:induction false} DetourCheaperIff(x: char, y: char, z: char)
    ensures Distance([x, y], [y, x]) + Distance([y, x], [y, z, x]) < Distance([x, y], [y, z, x])
            <==> x != y && y != z && z != x
  {
    SwappedPair(x, y);
    PairAndThree(y, x, y, z, x);
    PairAndThree(x, y, y, z, x);
  }

  lemma SwappedPair(x: char, y: char)
    ensures Distance([x, y], [y, x]) == if x == y then 0 else 1
  {
    hide At, Distance;
    var a, b := [x, y], [y, x];
    AtEdges(a, b);
    AtEnd(a, b);
    AtInside(a, b, 1, 1);
    AtInside(a, b, 1, 2);
    AtInside(a, b, 2, 1);
    AtInside(a, b, 2, 2);
  }

  // The distance of two characters from three: one if the two are left in order when one of the
  // three is struck out, two if at least one of them can keep its place, and three otherwise.
  lemma PairAndThree(p: char, q: char, r: char, s: char, t: char)
    ensures var near := (p == r && q == s) || (p == r && q == t) || (p == s && q == t);
            var far := p != r && p != s && q != s && q != t;
            Distance([p, q], [r, s, t]) == if near then 1 else if far then 3 else 2
  {
    hide At, Distance;
    var a, b := [p, q], [r, s, t];
    AtEdges(a, b);
    AtEnd(a, b);
    AtInside(a, b, 1, 1);
    AtInside(a, b, 1, 2);
    AtInside(a, b, 1, 3);
    AtInside(a, b, 2, 1);
    AtInside(a, b, 2, 2);
    AtInside(a, b, 2, 3);
  }
}
