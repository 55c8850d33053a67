/** What the score engine promises whatever the signals are. */
module ScoreProperties {
  import opened Common
  import opened Score

  // ---------------------------------------------------------------------------- stable ordering

  // Magnitudes fall, or stay.
  predicate Falling(sigs: seq<Signal>) {
    forall i, j | 0 <= i < j < |sigs| :: Magnitude(sigs[i]) >= Magnitude(sigs[j])
  }

  // The signals of one magnitude, in order.
  function OfMagnitude(sigs: seq<Signal>, m: real): seq<Signal> {
    if sigs == [] then []
    else (if Magnitude(sigs[0]) == m then [sigs[0]] else []) + OfMagnitude(sigs[1..], m)
  }

  lemma {:induction false} InsertFalls(s: Signal, sigs: seq<Signal>)
    requires Falling(sigs)
    ensures Falling(Insert(s, sigs))
    ensures multiset(Insert(s, sigs)) == multiset{s} + multiset(sigs)
  {
    hide Magnitude;
    if sigs != [] && Magnitude(sigs[0]) > Magnitude(s) {
      InsertFalls(s, sigs[1..]);
      var more := Insert(s, sigs[1..]);
      assert sigs == [sigs[0]] + sigs[1..];
      forall j | 0 <= j < |more| ensures Magnitude(sigs[0]) >= Magnitude(more[j]) {
        assert more[j] in multiset(more);
        assert more[j] == s || more[j] in sigs[1..];
      }
    }
  }

  lemma OfMagnitudeMore(s: Signal, sigs: seq<Signal>, m: real)
    ensures OfMagnitude([s] + sigs, m) == (if Magnitude(s) == m then [s] else []) + OfMagnitude(sigs, m)
  {
  }

  lemma {:induction false} InsertKeepsOrder(s: Signal, sigs: seq<Signal>, m: real)
    requires Falling(sigs)
    ensures OfMagnitude(Insert(s, sigs), m) == (if Magnitude(s) == m then [s] else []) + OfMagnitude(sigs, m)
  {
    hide Magnitude, OfMagnitude;
    if sigs == [] || Magnitude(sigs[0]) <= Magnitude(s) {
      OfMagnitudeMore(s, sigs, m);
    } else {
      InsertKeepsOrder(s, sigs[1..], m);
      OfMagnitudeMore(sigs[0], Insert(s, sigs[1..]), m);
      OfMagnitudeMore(sigs[0], sigs[1..], m);
      assert sigs == [sigs[0]] + sigs[1..];
      assert Magnitude(s) == m ==> Magnitude(sigs[0]) != m;
    }
  }

  // The returned signals are those given, by falling magnitude, and signals of equal magnitude
  // stay in the order they came in.
  lemma {:induction false} SortIsStable(sigs: seq<Signal>)
    ensures Falling(StableSort(sigs)) && multiset(StableSort(sigs)) == multiset(sigs)
    ensures SameByMagnitude(StableSort(sigs), sigs)
  {
    hide Magnitude;
    if sigs != [] {
      SortIsStable(sigs[1..]);
      var more := StableSort(sigs[1..]);
      InsertFalls(sigs[0], more);
      assert sigs == [sigs[0]] + sigs[1..];
      forall m: real ensures OfMagnitude(StableSort(sigs), m) == OfMagnitude(sigs, m) {
        InsertKeepsOrder(sigs[0], more, m);
      }
    }
  }

  lemma {:induction false} OfMagnitudeFinds(sigs: seq<Signal>, m: real)
    ensures OfMagnitude(sigs, m) == [] <==> forall s <- sigs :: Magnitude(s) != m
  {
    hide Magnitude;
    if sigs != [] {
      OfMagnitudeFinds(sigs[1..], m);
      assert sigs == [sigs[0]] + sigs[1..];
    }
  }

  ghost predicate SameByMagnitude(a: seq<Signal>, b: seq<Signal>) {
    forall m: real :: OfMagnitude(a, m) == OfMagnitude(b, m)
  }

  // The largest magnitude of one is found in the other.
  lemma HeadFound(a: seq<Signal>, b: seq<Signal>)
    requires SameByMagnitude(a, b) && a != []
    ensures exists s :: s in b && Magnitude(s) == Magnitude(a[0])
  {
    hide Magnitude;
    var m := Magnitude(a[0]);
    OfMagnitudeFinds(a, m);
    OfMagnitudeFinds(b, m);
    assert OfMagnitude(a, m) == OfMagnitude(b, m);
    assert a[0] in a;
  }

  lemma BothEmpty(a: seq<Signal>, b: seq<Signal>)
    requires SameByMagnitude(a, b)
    ensures a == [] <==> b == []
  {
    if a != [] {
      HeadFound(a, b);
    } else if b != [] {
      HeadFound(b, a);
    }
  }

  // Only one ordering is like that, whichever way it is computed.
  lemma {:induction false} StableOrderUnique(a: seq<Signal>, b: seq<Signal>)
    requires Falling(a) && Falling(b) && SameByMagnitude(a, b)
    ensures a == b
    decreases |a|
  {
    hide Magnitude;
    BothEmpty(a, b);
    if a != [] {
      HeadFound(a, b);
      HeadFound(b, a);
      var m := Magnitude(a[0]);
      assert Magnitude(b[0]) == m;
      assert OfMagnitude(a, m) == OfMagnitude(b, m);
      assert OfMagnitude(a, m)[0] == a[0] && OfMagnitude(b, m)[0] == b[0];
      forall k: real ensures OfMagnitude(a[1..], k) == OfMagnitude(b[1..], k) {
        assert OfMagnitude(a, k) == OfMagnitude(b, k);
        TailOfMagnitude(a, k);
        TailOfMagnitude(b, k);
      }
      StableOrderUnique(a[1..], b[1..]);
    }
  }

  lemma TailOfMagnitude(a: seq<Signal>, m: real)
    requires a != []
    ensures OfMagnitude(a[1..], m) == if Magnitude(a[0]) == m then OfMagnitude(a, m)[1..] else OfMagnitude(a, m)
  {
  }

  // ------------------------------------------------------------------------ order of the input

  lemma {:induction false} TotalJoin(a: seq<Signal>, b: seq<Signal>)
    ensures Total(a + b) == Total(a) + Total(b) && Positives(a + b) == Positives(a) + Positives(b)
    decreases |b|
  {
    hide Contribution;
    if b == [] {
      assert a + b == a;
    } else {
      var front := b[..|b| - 1];
      assert (a + b)[..|a + b| - 1] == a + front;
      TotalJoin(a, front);
    }
  }

  // Taking the last signal of one out of the other.
  lemma TakeOut(a: seq<Signal>, b: seq<Signal>) returns (l: seq<Signal>, r: seq<Signal>)
    requires multiset(a) == multiset(b) && a != []
    ensures b == l + [a[|a| - 1]] + r && multiset(a[..|a| - 1]) == multiset(l + r)
  {
    var k := |a| - 1;
    assert a == a[..k] + [a[k]];
    assert a[k] in multiset(b);
    var i :| 0 <= i < |b| && b[i] == a[k];
    l, r := b[..i], b[i + 1..];
    assert b == l + [b[i]] + r;
    assert multiset(l + r) == multiset(b) - multiset{b[i]};
  }

  lemma {:induction false} TotalPermuted(a: seq<Signal>, b: seq<Signal>)
    requires multiset(a) == multiset(b)
    ensures Total(a) == Total(b) && Positives(a) == Positives(b)
    decreases |a|
  {
    assert |a| == |multiset(a)| == |multiset(b)| == |b|;
    if a != [] {
      var l, r := TakeOut(a, b);
      var x := a[|a| - 1];
      TotalPermuted(a[..|a| - 1], l + r);
      hide Total, Positives;
      assert a == a[..|a| - 1] + [x];
      TotalJoin(a[..|a| - 1], [x]);
      TotalJoin(l + [x], r);
      TotalJoin(l, [x]);
      TotalJoin(l, r);
    }
  }

  lemma SameMembers(a: seq<Signal>, b: seq<Signal>)
    requires multiset(a) == multiset(b)
    ensures forall s :: s in a <==> s in b
  {
    forall s ensures s in a <==> s in b {
      assert s in a <==> s in multiset(a);
      assert s in b <==> s in multiset(b);
    }
  }

  lemma ReweighJoin(w: Weights, a: seq<Signal>, b: seq<Signal>)
    ensures ReweighAll(w, a + b) == ReweighAll(w, a) + ReweighAll(w, b)
  {
  }

  lemma {:induction false} ReweighPermuted(w: Weights, a: seq<Signal>, b: seq<Signal>)
    requires multiset(a) == multiset(b)
    ensures multiset(ReweighAll(w, a)) == multiset(ReweighAll(w, b))
    decreases |a|
  {
    assert |a| == |multiset(a)| == |multiset(b)| == |b|;
    if a != [] {
      var l, r := TakeOut(a, b);
      var front, x := a[..|a| - 1], a[|a| - 1];
      ReweighPermuted(w, front, l + r);
      assert a == front + [x];
      ReweighJoin(w, front, [x]);
      ReweighJoin(w, l + [x], r);
      ReweighJoin(w, l, [x]);
      ReweighJoin(w, l, r);
    }
  }

  lemma SameAttackType(a: seq<Signal>, b: seq<Signal>, llm: Option<Opinion>, verdict: Verdict)
    requires forall s :: s in a <==> s in b
    ensures FlagsOf(a) == FlagsOf(b) && AttackType(a, llm, verdict) == AttackType(b, llm, verdict)
  {
  }

  // Score, verdict, confidence and attack type do not depend on the order of the signals, and the
  // returned signals depend on it only among those of equal magnitude.
  lemma {:induction false} OrderIrrelevant(th: Thresholds, w: Weights, a: seq<Signal>, b: seq<Signal>,
                                           llm: Option<Opinion>)
    requires multiset(a) == multiset(b)
    ensures var x, y := Evaluated(th, w, a, llm), Evaluated(th, w, b, llm);
            && x.(signals := []) == y.(signals := [])
            && multiset(x.signals) == multiset(y.signals) == multiset(ReweighAll(w, a))
  {
    var ra, rb := ReweighAll(w, a), ReweighAll(w, b);
    hide Total, Positives, Confidence, StableSort, Falling, ReweighAll, Decide, FlagsOf, AttackType;
    ReweighPermuted(w, a, b);
    TotalPermuted(ra, rb);
    SameMembers(ra, rb);
    SortIsStable(ra);
    SortIsStable(rb);
    SameAttackType(ra, rb, llm, Evaluation(th, ra, llm).verdict);
  }

  // ------------------------------------------------------------------------------ monotonicity

  const CLEAN_OPINION: string := "clean"

  // Adding a signal that counts against the message, other than the allowlist's, never lowers
  // score or rank when no language model is asked.
  ghost predicate Monotone(th: Thresholds) {
    forall w: Weights, sigs: seq<Signal>, x: Signal
      | x.id != ORG_ALLOWLIST && Reweigh(w, x).weight > 0 && x.confidence >= 0.0 ::
      && Evaluated(th, w, sigs, None).score <= Evaluated(th, w, sigs + [x], None).score
      && Evaluated(th, w, sigs, None).verdict.Rank() <= Evaluated(th, w, sigs + [x], None).verdict.Rank()
  }

  lemma DecideMonotone(th: Thresholds, sum: int, sum': int, f: Flags, f': Flags, llmClean: bool)
    requires th.suspicious <= th.phishing || th.phishing <= 0
    requires 0 <= sum <= sum'
    requires f'.allowlisted == f.allowlisted && (f.blocklisted ==> f'.blocklisted) && (f.tiHit ==> f'.tiHit)
    requires f.strong ==> f'.strong
    ensures Decide(th, sum, f, llmClean).0 <= Decide(th, sum', f', llmClean).0
    ensures Decide(th, sum, f, llmClean).1.Rank() > Decide(th, sum', f', llmClean).1.Rank() <==>
            && llmClean && Decide(th, sum, f, llmClean).1 == Phishing
            && !f'.blocklisted && f'.strong && !f.strong
  {
  }

  lemma AddedSignal(w: Weights, sigs: seq<Signal>, x: Signal)
    ensures ReweighAll(w, sigs + [x]) == ReweighAll(w, sigs) + [Reweigh(w, x)]
    ensures Total(ReweighAll(w, sigs + [x])) == Total(ReweighAll(w, sigs)) + Contribution(Reweigh(w, x))
  {
  }

  lemma AddedFlags(a: seq<Signal>, x: Signal)
    ensures var f, g := FlagsOf(a), FlagsOf(a + [x]);
            && g.blocklisted == (f.blocklisted || x.id == ORG_BLOCKLIST)
            && g.allowlisted == (f.allowlisted || x.id == ORG_ALLOWLIST)
            && g.tiHit == (f.tiHit || TiHit(x))
            && g.strong == (f.strong || Strong(x))
  {
  }

  // Whatever the language model's opinion, if the thresholds are in order, adding a signal against the
  // message never lowers the score. It lowers the rank in one case only: the message was phishing by
  // its score, the model calls it clean, and the signal is the strong technical one that turns this
  // into a conflict for review.
  lemma {:induction false} AddingLowersRankIff(th: Thresholds, w: Weights, sigs: seq<Signal>, x: Signal,
                                               o: Option<Opinion>)
    requires th.suspicious <= th.phishing || th.phishing <= 0
    requires x.id != ORG_ALLOWLIST && Reweigh(w, x).weight > 0 && x.confidence >= 0.0
    ensures var before, after := Evaluated(th, w, sigs, o), Evaluated(th, w, sigs + [x], o);
            && before.score <= after.score
            && (after.verdict.Rank() < before.verdict.Rank() <==>
                  && o.Some? && o.value.verdict == CLEAN_OPINION && before.verdict == Phishing
                  && !FlagsOf(ReweighAll(w, sigs)).blocklisted && x.id != ORG_BLOCKLIST
                  && Strong(Reweigh(w, x)))
  {
    hide Total, FlagsOf, Confidence, StableSort, AttackType, Positives;
    var r, x' := ReweighAll(w, sigs), Reweigh(w, x);
    AddedSignal(w, sigs, x);
    AddedFlags(r, x');
    Product(x'.weight as real, x'.confidence);
    RoundMonotone(Total(r), Total(r + [x']));
    DecideMonotone(th, Clamp(Round(Total(r)), 0, 100), Clamp(Round(Total(r + [x'])), 0, 100),
                   FlagsOf(r), FlagsOf(r + [x']), o.Some? && o.value.verdict == CLEAN_OPINION);
  }

  // The signals that show it fails for thresholds the wrong way round: a faint threat intelligence
  // hit raises the score to the suspicious threshold, and a faint blocklist hit takes it back down
  // to the phishing threshold.
  const FAINT_HIT: Signal := Signal("reputation.domain_listed", Reputation, 1, 0.1, ThreatIntelligence)
  const FAINT_BLOCK: Signal := Signal(ORG_BLOCKLIST, Reputation, 1, 0.1, Heuristic)

  lemma AddingMayLower(th: Thresholds)
    requires 0 < th.phishing < th.suspicious
    ensures Evaluated(th, map[], [FAINT_HIT], None).score
            > Evaluated(th, map[], [FAINT_HIT] + [FAINT_BLOCK], None).score
  {
    hide Confidence, StableSort, AttackType, Positives;
    AddedSignal(map[], [], FAINT_HIT);
    AddedSignal(map[], [FAINT_HIT], FAINT_BLOCK);
    assert [] + [FAINT_HIT] == [FAINT_HIT];
    assert ReweighAll(map[], []) == [];
    AddedFlags([], FAINT_HIT);
    AddedFlags([FAINT_HIT], FAINT_BLOCK);
    assert Contribution(FAINT_HIT) == 0.1 && Contribution(FAINT_BLOCK) == 0.1;
  }

  // Without an opinion neither falls, exactly when the suspicious threshold is not above the phishing
  // one, or every message is phishing by score alone.
  lemma MonotoneIff(th: Thresholds)
    ensures Monotone(th) <==> th.suspicious <= th.phishing || th.phishing <= 0
  {
    hide Evaluated;
    if th.suspicious <= th.phishing || th.phishing <= 0 {
      forall w: Weights, sigs: seq<Signal>, x: Signal
        | x.id != ORG_ALLOWLIST && Reweigh(w, x).weight > 0 && x.confidence >= 0.0
        ensures Evaluated(th, w, sigs, None).score <= Evaluated(th, w, sigs + [x], None).score
        ensures Evaluated(th, w, sigs, None).verdict.Rank() <= Evaluated(th, w, sigs + [x], None).verdict.Rank()
      {
        AddingLowersRankIff(th, w, sigs, x, None);
      }
    } else {
      AddingMayLower(th);
      assert Reweigh(map[], FAINT_BLOCK) == FAINT_BLOCK;
    }
  }

  // -------------------------------------------------------------------------- bands and hard rules

  ghost predicate Sound(th: Thresholds) {
    0 <= th.suspicious < th.phishing <= 100
  }

  // With the thresholds in order: the score is the clamped sum, raised to the phishing threshold by
  // a blocklist hit and otherwise to the suspicious one by a threat intelligence hit. A blocklist
  // hit is phishing; short of that, an allowlisted message scoring as phishing, and a strong
  // technical signal the language model disputes at a suspicious score or more, are for review;
  // and everything else goes by the band its score lies in.
  lemma VerdictCharacterized(th: Thresholds, w: Weights, sigs: seq<Signal>, llm: Option<Opinion>)
    requires Sound(th)
    ensures var a, r := Evaluated(th, w, sigs, llm), ReweighAll(w, sigs);
            var f, disputed := FlagsOf(r), FlagsOf(r).strong && llm.Some? && llm.value.verdict == "clean";
            var review := !f.blocklisted && ((f.allowlisted && a.score >= th.phishing)
                                             || (disputed && a.score >= th.suspicious));
            && 0 <= a.score <= 100
            && a.score == Max(Clamp(Round(Total(r)), 0, 100),
                              if f.blocklisted then th.phishing else if f.tiHit then th.suspicious else 0)
            && (a.verdict == NeedsReview <==> review)
            && (a.verdict == Phishing <==> f.blocklisted || (a.score >= th.phishing && !review))
            && (a.verdict == Suspicious <==> th.suspicious <= a.score < th.phishing && !review)
            && (a.verdict == Clean <==> a.score < th.suspicious)
  {
  }

  // Whatever the thresholds, in order or not: a hit on threat intelligence raises a message that is
  // under both to the suspicious one, and each verdict has its conditions.
  lemma VerdictAlways(th: Thresholds, w: Weights, sigs: seq<Signal>, llm: Option<Opinion>)
    ensures var a, r := Evaluated(th, w, sigs, llm), ReweighAll(w, sigs);
            var f, raw := FlagsOf(r), Round(Total(r));
            var sum := if raw < 0 then 0 else if raw > 100 then 100 else raw;
            var low := sum < th.phishing && sum < th.suspicious;
            var raised := !f.blocklisted && f.tiHit && low;
            var disputed := f.strong && llm.Some? && llm.value.verdict == "clean" && (!low || raised);
            var review := !f.blocklisted && ((f.allowlisted && a.score >= th.phishing) || disputed);
            && a.score == (if raised then th.suspicious
                           else if f.blocklisted && sum < th.phishing then th.phishing else sum)
            && (a.verdict == NeedsReview <==> review)
            && (a.verdict == Phishing <==> f.blocklisted || (sum >= th.phishing && !review))
            && (a.verdict == Suspicious <==>
                  !f.blocklisted && !review && sum < th.phishing && (sum >= th.suspicious || f.tiHit))
            && (a.verdict == Clean <==> !f.blocklisted && !review && low && !f.tiHit)
  {
    hide FlagsOf, Total, Round, Confidence, StableSort, AttackType, Positives, ReweighAll;
  }

  // How far a score is from the nearer threshold.
  function Margin(score: int, th: Thresholds): real {
    Min(Distance(score, th.phishing), Distance(score, th.suspicious))
  }

  // Confidence grows with the margin and with the number of signals against the message, if the
  // language model's part is the same; and agreeing with the model is never worth less than having
  // no opinion of it, nor that less than disagreeing.
  lemma ConfidenceGrows(score: int, score': int, th: Thresholds, n: nat, n': nat, o: Option<Opinion>,
                        o': Option<Opinion>)
    requires Margin(score, th) <= Margin(score', th) && n <= n'
    requires Standing(score, th, o) <= Standing(score', th, o')
    ensures 0.1 <= Confidence(score, th, n, o) <= Confidence(score', th, n', o') <= 0.99
  {
    hide Agrees, Distance, Round;
    var base, base' := 0.5 + Min(0.3, Margin(score, th) / 100.0) + Min(0.15, n as real * 0.03),
                       0.5 + Min(0.3, Margin(score', th) / 100.0) + Min(0.15, n' as real * 0.03);
    assert base <= base';
    var c := if o.None? then base else if Agrees(o.value, score, th) then base + 0.05 else base - 0.1;
    var c' := if o'.None? then base' else if Agrees(o'.value, score', th) then base' + 0.05 else base' - 0.1;
    assert c <= c';
    var kept := if Min(0.99, c) < 0.1 then 0.1 else Min(0.99, c);
    var kept' := if Min(0.99, c') < 0.1 then 0.1 else Min(0.99, c');
    RoundMonotone(kept * 100.0, kept' * 100.0);
  }

  // Where the signals against the message are, the model's own aside.
  function Counted(w: Weights, sigs: seq<Signal>): set<nat> {
    set i: nat | i < |sigs| && Weight(w, sigs[i]) > 0 && sigs[i].category != Semantic
  }

  lemma {:induction false} PositivesCount(w: Weights, sigs: seq<Signal>)
    ensures Positives(ReweighAll(w, sigs)) == |Counted(w, sigs)|
  {
    if sigs == [] {
      assert Counted(w, sigs) == {};
    } else {
      hide ReweighAll, Positives, Counted;
      var n := |sigs| - 1;
      PositivesCount(w, sigs[..n]);
      assert sigs == sigs[..n] + [sigs[n]];
      AddedSignal(w, sigs[..n], sigs[n]);
      PositivesNext(ReweighAll(w, sigs[..n]), Reweigh(w, sigs[n]));
      CountedNext(w, sigs[..n], sigs[n]);
    }
  }

  lemma PositivesNext(sigs: seq<Signal>, s: Signal)
    ensures Positives(sigs + [s]) == Positives(sigs) + if Positive(s) then 1 else 0
  {
  }

  lemma CountedNext(w: Weights, sigs: seq<Signal>, s: Signal)
    ensures |Counted(w, sigs + [s])| == |Counted(w, sigs)| + if Weight(w, s) > 0 && s.category != Semantic then 1 else 0
  {
    var last := if Weight(w, s) > 0 && s.category != Semantic then {|sigs|} else {};
    assert Counted(w, sigs + [s]) == Counted(w, sigs) + last;
  }

  function Least(a: int, b: int): int {
    if a <= b then a else b
  }

  // Confidence in percent: 50, one for each point from the nearer threshold up to 30, three for each
  // signal against the message up to 15, five more if the model agrees with the score and ten less if
  // it does not; but at most 99.
  lemma ConfidencePercent(th: Thresholds, w: Weights, sigs: seq<Signal>, llm: Option<Opinion>)
    ensures var a := Evaluated(th, w, sigs, llm);
            var far, near := a.score - th.phishing, a.score - th.suspicious;
            var points := Least(30, Least(if far < 0 then -far else far, if near < 0 then -near else near));
            var agrees := llm.Some? &&
                          var v := llm.value.verdict;
                          if v == "phishing" then a.score >= th.phishing
                          else if v == "clean" then a.score < th.suspicious
                          else v == "suspicious" && th.suspicious <= a.score < th.phishing;
            a.confidence == Least(99, 50 + points + Least(15, 3 * |Counted(w, sigs)|)
                                      + if llm.None? then 0 else if agrees then 5 else -10) as real / 100.0
  {
    hide Total, FlagsOf, Decide, StableSort, AttackType, Positives, Counted;
    PositivesCount(w, sigs);
    var a := Evaluated(th, w, sigs, llm);
    PercentOf(a.score, th, |Counted(w, sigs)|, llm);
  }

  lemma PercentOf(score: int, th: Thresholds, n: nat, llm: Option<Opinion>)
    ensures var far, near := score - th.phishing, score - th.suspicious;
            var points := Least(30, Least(if far < 0 then -far else far, if near < 0 then -near else near));
            Confidence(score, th, n, llm) ==
            Least(99, 50 + points + Least(15, 3 * n)
                      + if llm.None? then 0 else if Agrees(llm.value, score, th) then 5 else -10) as real / 100.0
  {
    hide Agrees, Round;
    var far, near := score - th.phishing, score - th.suspicious;
    var d := Least(if far < 0 then -far else far, if near < 0 then -near else near);
    assert Min(Distance(score, th.phishing), Distance(score, th.suspicious)) == d as real;
    assert Min(0.3, d as real / 100.0) == Least(30, d) as real / 100.0;
    assert Min(0.15, n as real * 0.03) == Least(15, 3 * n) as real / 100.0;
    var p := 50 + Least(30, d) + Least(15, 3 * n)
             + if llm.None? then 0 else if Agrees(llm.value, score, th) then 5 else -10;
    var base := 0.5 + Min(0.3, d as real / 100.0) + Min(0.15, n as real * 0.03);
    var c := if llm.None? then base else if Agrees(llm.value, score, th) then base + 0.05 else base - 0.1;
    assert c == p as real / 100.0;
    var kept := if Min(0.99, c) < 0.1 then 0.1 else Min(0.99, c);
    assert kept * 100.0 == Least(99, p) as real;
    RoundWhole(Least(99, p));
  }

  lemma RoundWhole(n: int)
    ensures Round(n as real) == n
  {
  }

  // The language model disagrees, is not asked, or agrees.
  function Standing(score: int, th: Thresholds, o: Option<Opinion>): int {
    if o.None? then 0 else if Agrees(o.value, score, th) then 1 else -1
  }

  // The attack type is always a known one, and "none" only for a clean verdict.
  lemma AttackTypeKnown(sigs: seq<Signal>, llm: Option<Opinion>, verdict: Verdict)
    ensures AttackType(sigs, llm, verdict) in ATTACK_TYPES
    ensures AttackType(sigs, llm, verdict) == "none" ==> verdict == Clean
  {
  }

  predicate Against(sigs: seq<Signal>, prefix: string) {
    exists i | 0 <= i < |sigs| :: prefix <= sigs[i].id && sigs[i].weight > 0
  }

  // The model's opinion of the type is taken if it is a known one other than "none". Otherwise a clean
  // verdict has none, and any other that of the first of these kinds of signal against the message:
  // attachments; the pattern of fraud in a boss's name; requests for money without a link; requests
  // for credentials, links or imitated brands; and failing all, spam.
  lemma AttackTypeBySignals(sigs: seq<Signal>, llm: Option<Opinion>, verdict: Verdict)
    ensures var t := AttackType(sigs, llm, verdict);
            var known := {"credential_harvesting", "malware", "bec", "invoice_fraud", "extortion", "spam"};
            if llm.Some? && llm.value.attackType in known then t == llm.value.attackType
            else
              && (t == "none" <==> verdict == Clean)
              && (t == "malware" <==> verdict != Clean && Against(sigs, "attachment."))
              && (t == "bec" <==>
                    verdict != Clean && Against(sigs, "content.bec_pattern") && !Against(sigs, "attachment."))
              && (t == "invoice_fraud" <==>
                    && verdict != Clean && Against(sigs, "content.finance_request") && !Against(sigs, "link.")
                    && !Against(sigs, "content.bec_pattern") && !Against(sigs, "attachment."))
              && (t == "credential_harvesting" <==>
                    && verdict != Clean
                    && (Against(sigs, "content.credential_request") || Against(sigs, "link.")
                        || Against(sigs, "brand."))
                    && !(Against(sigs, "content.finance_request") && !Against(sigs, "link."))
                    && !Against(sigs, "content.bec_pattern") && !Against(sigs, "attachment."))
              && t in known + {"none"} && t != "extortion"
  {
    HasIsAgainst(sigs, "attachment.");
    HasIsAgainst(sigs, "content.bec_pattern");
    HasIsAgainst(sigs, "content.finance_request");
    HasIsAgainst(sigs, "content.credential_request");
    HasIsAgainst(sigs, "link.");
    HasIsAgainst(sigs, "brand.");
    hide Has, Against;
  }

  lemma HasIsAgainst(sigs: seq<Signal>, prefix: string)
    ensures Has(sigs, prefix) <==> Against(sigs, prefix)
  {
    if i :| 0 <= i < |sigs| && prefix <= sigs[i].id && sigs[i].weight > 0 {
      assert sigs[i] in sigs;
    }
  }

  // What the hard rules look at, in terms of the signals handed in: an override of its weight counts.
  lemma FlagsMean(w: Weights, sigs: seq<Signal>)
    ensures var f := FlagsOf(ReweighAll(w, sigs));
            && (f.blocklisted <==> exists i | 0 <= i < |sigs| :: sigs[i].id == "reputation.org_blocklist")
            && (f.allowlisted <==> exists i | 0 <= i < |sigs| :: sigs[i].id == "reputation.org_allowlist")
            && (f.tiHit <==> exists i | 0 <= i < |sigs| ::
                  sigs[i].source == ThreatIntelligence && Weight(w, sigs[i]) > 0)
            && (f.strong <==> exists i | 0 <= i < |sigs| ::
                  sigs[i].category != Semantic && Weight(w, sigs[i]) >= 25 && sigs[i].confidence >= 0.8)
  {
    var r := ReweighAll(w, sigs);
    forall i | 0 <= i < |sigs| ensures r[i] in r && r[i] == Reweigh(w, sigs[i]) {}
  }

  function Weight(w: Weights, s: Signal): int {
    if s.id in w then w[s.id] else s.weight
  }

  // -------------------------------------------------------------- the language model may not clear

  // The signal the engine is given for a language model that calls the message clean.
  predicate CleanSignal(s: Signal) {
    s.category == Semantic && s.source == Llm && s.id == "semantic.llm_clean" && 0.0 <= s.confidence <= 1.0
  }

  // What the model's signal takes off the sum, if the model calls the message clean.
  function Pull(w: Weights, s: Signal): real {
    -Contribution(Reweigh(w, s))
  }

  // If a strong technical signal is there and the score without the model is at least as far above
  // the suspicious threshold as the model's signal can pull, the model calling the message clean
  // makes it a case for review, or phishing if it is blocklisted, but never clean.
  lemma StrongerThanOpinion(th: Thresholds, w: Weights, sigs: seq<Signal>, s: Signal, o: Opinion, pull: real)
    requires Sound(th) && CleanSignal(s) && o.verdict == CLEAN_OPINION
    requires FlagsOf(ReweighAll(w, sigs)).strong
    requires 0.0 <= pull && Pull(w, s) <= pull
    requires Evaluated(th, w, sigs, None).score as real >= th.suspicious as real + pull
    ensures Evaluated(th, w, sigs + [s], Some(o)).verdict ==
            if FlagsOf(ReweighAll(w, sigs)).blocklisted then Phishing else NeedsReview
  {
    hide Total, Contribution, FlagsOf, Confidence, StableSort, AttackType, Positives, ReweighAll;
    var r, s' := ReweighAll(w, sigs), Reweigh(w, s);
    AddedSignal(w, sigs, s);
    AddedFlags(r, s');
    if th.suspicious > 0 && !FlagsOf(r).tiHit && !FlagsOf(r).blocklisted {
      assert Total(r + [s']) >= th.suspicious as real - 0.5;
      RoundAtLeast(Total(r + [s']), th.suspicious);
    }
  }

  lemma RoundAtLeast(x: real, n: int)
    requires n > 0 && x >= n as real - 0.5
    ensures Round(x) >= n
  {
  }

  // Fifteen above the suspicious threshold is always enough for the model's signal at its default
  // weight, and twelve at its ordinary confidence.
  lemma OpinionCannotClear(th: Thresholds, w: Weights, sigs: seq<Signal>, s: Signal, o: Opinion)
    requires Sound(th) && CleanSignal(s) && o.verdict == CLEAN_OPINION
    requires FlagsOf(ReweighAll(w, sigs)).strong
    requires Reweigh(w, s).weight >= -15
    requires Evaluated(th, w, sigs, None).score >= th.suspicious + if s.confidence <= 0.8 then 12 else 15
    ensures Evaluated(th, w, sigs + [s], Some(o)).verdict ==
            if FlagsOf(ReweighAll(w, sigs)).blocklisted then Phishing else NeedsReview
  {
    hide Total, FlagsOf, Confidence, StableSort, AttackType, Positives, ReweighAll, Evaluated;
    BoundedPull(Reweigh(w, s).weight, s.confidence);
    StrongerThanOpinion(th, w, sigs, s, o, if s.confidence <= 0.8 then 12.0 else 15.0);
  }

  lemma BoundedPull(weight: int, c: real)
    requires weight >= -15 && 0.0 <= c <= 1.0
    ensures weight as real * c >= -15.0
    ensures c <= 0.8 ==> weight as real * c >= -12.0
  {
    Product((weight + 15) as real, c);
    assert weight as real * c == (weight + 15) as real * c - 15.0 * c;
  }

  // Exactly when the model calling a message clean makes it clean: when it is on no list, and the sum
  // of all signals, the model's own among them, comes to less than a suspicious threshold above zero.
  lemma OpinionClearsIff(th: Thresholds, w: Weights, sigs: seq<Signal>, s: Signal, o: Opinion)
    requires Sound(th) && CleanSignal(s) && o.verdict == CLEAN_OPINION
    ensures var r := ReweighAll(w, sigs);
            var f := FlagsOf(r);
            Evaluated(th, w, sigs + [s], Some(o)).verdict == Clean <==>
            && !f.blocklisted && !f.tiHit
            && th.suspicious > 0 && Round(Total(r) - Pull(w, s)) < th.suspicious
  {
    hide Total, Contribution, FlagsOf, Confidence, StableSort, AttackType, Positives, ReweighAll, Round;
    AddedSignal(w, sigs, s);
    AddedFlags(ReweighAll(w, sigs), Reweigh(w, s));
  }

  // What shipped checks send for failed authentication and for a link that shows another address.
  const DMARC_FAIL: Signal := Signal("auth.dmarc_fail", Auth, 25, 0.95, Heuristic)
  const HREF_MISMATCH: Signal := Signal("link.text_href_mismatch", Link, 20, 0.95, Heuristic)
  const ORDINARY_CLEAN: Signal := Signal("semantic.llm_clean", Semantic, -15, 0.8, Llm)

  // So a message with a strong technical signal, suspicious without the model, can end as clean with it.
  ghost predicate ClearsStrong(th: Thresholds, w: Weights) {
    var sigs := [DMARC_FAIL, HREF_MISMATCH];
    && FlagsOf(ReweighAll(w, sigs)).strong && CleanSignal(ORDINARY_CLEAN)
    && Evaluated(th, w, sigs, None).verdict == Suspicious
    && Evaluated(th, w, sigs + [ORDINARY_CLEAN], Some(Opinion(CLEAN_OPINION, "none"))).verdict == Clean
  }

  // The sum of the two with a weight for the second.
  function PairSum(weight: int): real {
    23.75 + 0.95 * weight as real
  }

  lemma PairCleared(th: Thresholds, w: Weights, weight: int)
    requires Sound(th) && DMARC_FAIL.id !in w && ORDINARY_CLEAN.id !in w
    requires weight == if HREF_MISMATCH.id in w then w[HREF_MISMATCH.id] else 20
    requires th.suspicious <= Round(PairSum(weight)) < th.phishing && Round(PairSum(weight) - 12.0) < th.suspicious
    requires th.suspicious > 0
    ensures ClearsStrong(th, w)
  {
    hide Evaluated;
    var sigs := [DMARC_FAIL, HREF_MISMATCH];
    AddedSignal(w, [], DMARC_FAIL);
    AddedSignal(w, [DMARC_FAIL], HREF_MISMATCH);
    assert [] + [DMARC_FAIL] == [DMARC_FAIL] && [DMARC_FAIL] + [HREF_MISMATCH] == sigs;
    assert ReweighAll(w, []) == [];
    AddedFlags([], DMARC_FAIL);
    AddedFlags([DMARC_FAIL], Reweigh(w, HREF_MISMATCH));
    assert Total(ReweighAll(w, sigs)) == PairSum(weight);
    OpinionClearsIff(th, w, sigs, ORDINARY_CLEAN, Opinion(CLEAN_OPINION, "none"));
    VerdictCharacterized(th, w, sigs, None);
  }

  // It does at the weights the checks come with and the default thresholds, among others; and at any
  // thresholds in order above zero for some weight of the second check.
  lemma StrongCleared(th: Thresholds)
    requires Sound(th)
    ensures 31 < th.suspicious <= 43 < th.phishing ==> ClearsStrong(th, map[])
    ensures th.suspicious > 0 ==> exists weight: int :: ClearsStrong(th, map[HREF_MISMATCH.id := weight])
  {
    hide ClearsStrong, Evaluated;
    assert PairSum(20) == 42.75;
    if 31 < th.suspicious <= 43 < th.phishing {
      PairCleared(th, map[], 20);
    }
    if th.suspicious > 0 {
      var weight := ((th.suspicious as real - 24.25) / 0.95).Floor + 1;
      PairRounds(th.suspicious, weight);
      PairCleared(th, map[HREF_MISMATCH.id := weight], weight);
    }
  }

  lemma PairRounds(n: int, weight: int)
    requires n > 0 && weight == ((n as real - 24.25) / 0.95).Floor + 1
    ensures Round(PairSum(weight)) == n && Round(PairSum(weight) - 12.0) < n
  {
    var q := (n as real - 24.25) / 0.95;
    assert q * 0.95 == n as real - 24.25;
    assert q < weight as real <= q + 1.0;
    assert n as real - 0.5 < PairSum(weight) <= n as real + 0.45;
  }

  // And one that is phishing by its score, which the model calls clean, comes down to review when a
  // strong technical signal is added: so does this one at the default thresholds.
  const PUNYCODE: Signal := Signal("link.punycode", Link, 20, 0.9, Heuristic)
  const MANY_WEAK: seq<Signal> := [HREF_MISMATCH, HREF_MISMATCH, HREF_MISMATCH, PUNYCODE]

  // Signals of ordinary checks at the weights they come with: their sum, and whether one is strong.
  ghost predicate Plain(sigs: seq<Signal>, total: real, strong: bool) {
    ReweighAll(map[], sigs) == sigs && Total(sigs) == total && FlagsOf(sigs) == Flags(false, false, false, strong)
  }

  lemma NonePlain()
    ensures Plain([], 0.0, false)
  {
  }

  lemma PlainMore(sigs: seq<Signal>, total: real, strong: bool, x: Signal)
    requires Plain(sigs, total, strong) && x.id != ORG_BLOCKLIST && x.id != ORG_ALLOWLIST && x.source == Heuristic
    ensures Plain(sigs + [x], total + Contribution(x), strong || Strong(x))
  {
    hide Total, FlagsOf, Strong, Contribution;
    AddedSignal(map[], sigs, x);
    AddedFlags(sigs, x);
  }

  lemma WeakPlain()
    ensures Plain(MANY_WEAK, 75.0, false)
  {
    hide Plain, Contribution;
    var a, b, c := [HREF_MISMATCH], [HREF_MISMATCH, HREF_MISMATCH], [HREF_MISMATCH, HREF_MISMATCH, HREF_MISMATCH];
    assert [] + [HREF_MISMATCH] == a && a + [HREF_MISMATCH] == b && b + [HREF_MISMATCH] == c;
    assert c + [PUNYCODE] == MANY_WEAK;
    WeakContributions();
    NonePlain();
    PlainMore([], 0.0, false, HREF_MISMATCH);
    PlainMore(a, 19.0, false, HREF_MISMATCH);
    PlainMore(b, 38.0, false, HREF_MISMATCH);
    PlainMore(c, 57.0, false, PUNYCODE);
  }

  lemma WeakContributions()
    ensures Contribution(HREF_MISMATCH) == 19.0 && Contribution(PUNYCODE) == 18.0 && Contribution(DMARC_FAIL) == 23.75
  {
  }

  lemma StrongLowersRank(o: Opinion)
    requires o.verdict == CLEAN_OPINION
    ensures var th := Thresholds(70, 40);
            && Evaluated(th, map[], MANY_WEAK, Some(o)).verdict == Phishing
            && Evaluated(th, map[], MANY_WEAK + [DMARC_FAIL], Some(o)).verdict == NeedsReview
  {
    hide Evaluated, Total, FlagsOf, ReweighAll, Contribution;
    var th, all := Thresholds(70, 40), MANY_WEAK + [DMARC_FAIL];
    WeakContributions();
    WeakPlain();
    PlainMore(MANY_WEAK, 75.0, false, DMARC_FAIL);
    assert Plain(all, 98.75, true);
    VerdictCharacterized(th, map[], MANY_WEAK, Some(o));
    VerdictCharacterized(th, map[], all, Some(o));
  }
}
