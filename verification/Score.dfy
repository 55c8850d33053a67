/** The score engine: from weighted signals and a language model's opinion to score and verdict. */
module Score {
  import opened Common

  const ORG_BLOCKLIST: string := "reputation.org_blocklist"
  const ORG_ALLOWLIST: string := "reputation.org_allowlist"
  const STRONG_TECHNICAL: int := 25

  datatype Category = Header | Auth | Domain | Link | Attachment | Content | Brand | Reputation | Semantic
  datatype Source = Heuristic | Dns | ThreatIntelligence | Llm

  datatype Signal = Signal(id: string, category: Category, weight: int, confidence: real, source: Source)

  datatype Verdict = Clean | Suspicious | NeedsReview | Phishing {
    function Rank(): nat {
      match this
      case Clean => 0
      case Suspicious => 1
      case NeedsReview => 2
      case Phishing => 3
    }
  }

  datatype Thresholds = Thresholds(phishing: int, suspicious: int)

  datatype Opinion = Opinion(verdict: string, attackType: string)

  datatype Analysis = Analysis(score: int, verdict: Verdict, confidence: real, signals: seq<Signal>, attackType: string)

  type Weights = map<string, int>

  // -------------------------------------------------------------------------------- one signal

  function Contribution(s: Signal): real {
    s.weight as real * s.confidence
  }

  function Abs(x: real): real {
    if x < 0.0 then -x else x
  }

  function Magnitude(s: Signal): real {
    Abs(Contribution(s))
  }

  // Configured weights override those the checks came with.
  function Reweigh(w: Weights, s: Signal): Signal {
    if s.id in w then s.(weight := w[s.id]) else s
  }

  function ReweighAll(w: Weights, sigs: seq<Signal>): (out: seq<Signal>)
    ensures |out| == |sigs| && forall i | 0 <= i < |sigs| :: out[i] == Reweigh(w, sigs[i])
  {
    seq(|sigs|, i requires 0 <= i < |sigs| => Reweigh(w, sigs[i]))
  }

  predicate Strong(s: Signal) {
    s.category != Semantic && s.weight >= STRONG_TECHNICAL && s.confidence >= 0.8
  }

  predicate TiHit(s: Signal) {
    s.source == ThreatIntelligence && s.weight > 0
  }

  predicate Positive(s: Signal) {
    s.weight > 0 && s.category != Semantic
  }

  // ------------------------------------------------------------------------------- all signals

  function Total(sigs: seq<Signal>): real {
    if sigs == [] then 0.0 else Total(sigs[..|sigs| - 1]) + Contribution(sigs[|sigs| - 1])
  }

  function Positives(sigs: seq<Signal>): nat {
    if sigs == [] then 0 else Positives(sigs[..|sigs| - 1]) + if Positive(sigs[|sigs| - 1]) then 1 else 0
  }

  // What the hard rules look at.
  datatype Flags = Flags(blocklisted: bool, allowlisted: bool, tiHit: bool, strong: bool)

  function FlagsOf(sigs: seq<Signal>): Flags {
    Flags(exists s :: s in sigs && s.id == ORG_BLOCKLIST, exists s :: s in sigs && s.id == ORG_ALLOWLIST,
          exists s :: s in sigs && TiHit(s), exists s :: s in sigs && Strong(s))
  }

  function Clamp(v: int, lo: int, hi: int): int {
    if v < lo then lo else if v > hi then hi else v
  }

  function Max(a: int, b: int): int {
    if a >= b then a else b
  }

  function Min(a: real, b: real): real {
    if a <= b then a else b
  }

  // Score and verdict from the clamped sum, the flags and whether the language model says clean.
  function Decide(th: Thresholds, sum: int, f: Flags, llmClean: bool): (int, Verdict) {
    var band := if sum >= th.phishing then Phishing else if sum >= th.suspicious then Suspicious else Clean;
    if f.blocklisted then (Max(sum, th.phishing), Phishing)
    else
      var raised := f.tiHit && band == Clean;
      var score := if raised then Max(sum, th.suspicious) else sum;
      var verdict := if raised then Suspicious else band;
      if f.allowlisted && score >= th.phishing then (score, NeedsReview)
      else if f.strong && llmClean && verdict != Clean then (score, NeedsReview)
      else (score, verdict)
  }

  function Distance(a: int, b: int): real {
    Abs((a - b) as real)
  }

  function Agrees(o: Opinion, score: int, th: Thresholds): bool {
    || (o.verdict == "phishing" && score >= th.phishing)
    || (o.verdict == "clean" && score < th.suspicious)
    || (o.verdict == "suspicious" && th.suspicious <= score < th.phishing)
  }

  function Confidence(score: int, th: Thresholds, positives: nat, llm: Option<Opinion>): (c: real)
    ensures 0.1 <= c <= 0.99
  {
    var dist := Min(Distance(score, th.phishing), Distance(score, th.suspicious));
    var base := 0.5 + Min(0.3, dist / 100.0) + Min(0.15, positives as real * 0.03);
    var c := if llm.None? then base else if Agrees(llm.value, score, th) then base + 0.05 else base - 0.1;
    var kept := if Min(0.99, c) < 0.1 then 0.1 else Min(0.99, c);
    Round(kept * 100.0) as real / 100.0
  }

  // Whether a signal that counts against the message has an identifier with this beginning.
  predicate Has(sigs: seq<Signal>, prefix: string) {
    exists s :: s in sigs && prefix <= s.id && s.weight > 0
  }

  const ATTACK_TYPES: set<string> :=
    {"credential_harvesting", "malware", "bec", "invoice_fraud", "extortion", "spam", "none"}

  function AttackType(sigs: seq<Signal>, llm: Option<Opinion>, verdict: Verdict): string {
    if llm.Some? && llm.value.attackType in ATTACK_TYPES && llm.value.attackType != "none" then llm.value.attackType
    else if verdict == Clean then "none"
    else if Has(sigs, "attachment.") then "malware"
    else if Has(sigs, "content.bec_pattern") then "bec"
    else if Has(sigs, "content.finance_request") && !Has(sigs, "link.") then "invoice_fraud"
    else if Has(sigs, "content.credential_request") || Has(sigs, "link.") || Has(sigs, "brand.")
    then "credential_harvesting"
    else "spam"
  }

  // ---------------------------------------------------------------------------- stable ordering

  // Puts a signal before the first one of no larger magnitude.
  function Insert(s: Signal, sigs: seq<Signal>): seq<Signal> {
    if sigs == [] || Magnitude(sigs[0]) <= Magnitude(s) then [s] + sigs
    else [sigs[0]] + Insert(s, sigs[1..])
  }

  // The signals by falling magnitude, those of equal magnitude in their first order.
  function StableSort(sigs: seq<Signal>): seq<Signal> {
    if sigs == [] then [] else Insert(sigs[0], StableSort(sigs[1..]))
  }

  // --------------------------------------------------------------------------------- the engine

  // The outcome for signals whose weights are already the effective ones.
  function Evaluation(th: Thresholds, sigs: seq<Signal>, llm: Option<Opinion>): Analysis {
    var (score, verdict) := Decide(th, Clamp(Round(Total(sigs)), 0, 100), FlagsOf(sigs),
                                   llm.Some? && llm.value.verdict == "clean");
    Analysis(score, verdict, Confidence(score, th, Positives(sigs), llm), StableSort(sigs),
             AttackType(sigs, llm, verdict))
  }

  function Evaluated(th: Thresholds, w: Weights, sigs: seq<Signal>, llm: Option<Opinion>): Analysis {
    Evaluation(th, ReweighAll(w, sigs), llm)
  }

  method Evaluate(th: Thresholds, w: Weights, input: seq<Signal>, llm: Option<Opinion>) returns (a: Analysis)
    ensures a == Evaluated(th, w, input, llm)
  {
    hide Contribution, Confidence, AttackType, StableSort;
    var sigs := input;
    for i := 0 to |sigs|
      invariant |sigs| == |input|
      invariant forall k | 0 <= k < |sigs| :: sigs[k] == if k < i then Reweigh(w, input[k]) else input[k]
    {
      if sigs[i].id in w {
        sigs := sigs[i := sigs[i].(weight := w[sigs[i].id])];
      }
    }
    assert sigs == ReweighAll(w, input);
    var raw := SumContributions(sigs);
    var score := Clamp(Round(raw), 0, 100);
    var verdict := Clean;
    if score >= th.phishing {
      verdict := Phishing;
    } else if score >= th.suspicious {
      verdict := Suspicious;
    }
    var blocklisted, allowlisted, tiHit, strongest := ScanFlags(sigs);
    if blocklisted {
      verdict := Phishing;
      score := Max(score, th.phishing);
    }
    if tiHit && verdict == Clean {
      verdict := Suspicious;
      score := Max(score, th.suspicious);
    }
    var llmClean := llm.Some? && llm.value.verdict == "clean";
    if !blocklisted {
      if strongest > 0.0 && llmClean && verdict != Clean {
        verdict := NeedsReview;
      }
      if allowlisted && score >= th.phishing {
        verdict := NeedsReview;
      }
    }
    var positives := CountPositives(sigs);
    return Analysis(score, verdict, Confidence(score, th, positives, llm), StableSort(sigs),
                    AttackType(sigs, llm, verdict));
  }

  method SumContributions(sigs: seq<Signal>) returns (raw: real)
    ensures raw == Total(sigs)
  {
    raw := 0.0;
    for i := 0 to |sigs|
      invariant raw == Total(sigs[..i])
    {
      assert sigs[..i + 1][..i] == sigs[..i];
      raw := raw + Contribution(sigs[i]);
    }
    assert sigs[..|sigs|] == sigs;
  }

  method CountPositives(sigs: seq<Signal>) returns (n: nat)
    ensures n == Positives(sigs)
  {
    n := 0;
    for i := 0 to |sigs|
      invariant n == Positives(sigs[..i])
    {
      assert sigs[..i + 1][..i] == sigs[..i];
      if Positive(sigs[i]) {
        n := n + 1;
      }
    }
    assert sigs[..|sigs|] == sigs;
  }

  lemma StrongContributes(s: Signal)
    requires Strong(s)
    ensures Contribution(s) > 0.0
  {
  }

  lemma Product(x: real, y: real)
    requires x >= 0.0 && y >= 0.0
    ensures x * y >= 0.0
    ensures x > 0.0 && y > 0.0 ==> x * y > 0.0
  {
  }

  method ScanFlags(sigs: seq<Signal>) returns (blocklisted: bool, allowlisted: bool, tiHit: bool, strongest: real)
    ensures FlagsOf(sigs) == Flags(blocklisted, allowlisted, tiHit, strongest > 0.0)
  {
    hide Contribution;
    blocklisted, allowlisted, tiHit, strongest := false, false, false, 0.0;
    for i := 0 to |sigs|
      invariant blocklisted <==> exists k :: 0 <= k < i && sigs[k].id == ORG_BLOCKLIST
      invariant allowlisted <==> exists k :: 0 <= k < i && sigs[k].id == ORG_ALLOWLIST
      invariant tiHit <==> exists k :: 0 <= k < i && TiHit(sigs[k])
      invariant strongest >= 0.0 && (strongest > 0.0 <==> exists k :: 0 <= k < i && Strong(sigs[k]))
    {
      var s := sigs[i];
      if s.id == ORG_BLOCKLIST {
        blocklisted := true;
      } else if s.id == ORG_ALLOWLIST {
        allowlisted := true;
      }
      if s.source == ThreatIntelligence && s.weight > 0 {
        tiHit := true;
      }
      if s.category != Semantic && s.weight >= STRONG_TECHNICAL && s.confidence >= 0.8 {
        StrongContributes(s);
        strongest := if strongest >= Contribution(s) then strongest else Contribution(s);
      }
    }
  }
}
