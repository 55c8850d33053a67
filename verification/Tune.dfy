/** Learning signal weights from analysts' labels by ridge gradient descent, in exact arithmetic. */
module Tune {
  import opened Common
  import opened Vectors

  const LEARNING_RATE: real := 0.002
  const REGULARIZER: real := 0.0005
  const EPOCHS: nat := 2500

  // A reviewed message: the score it should have had, and the confidence of each of its signals.
  datatype Example = Example(target: real, signals: Vec)

  type Weights = map<string, int>

  // ------------------------------------------------------------------------------ reading labels

  // A line of the label file: blank, not JSON, or a label with its signals.
  datatype Line = Blank | Malformed | Labelled(verdict: string, signals: Vec)

  datatype Parsed = Skip | Fail | Take(e: Example)

  // Lower case as far as it gives a Latin letter.
  function Lower(c: char): char {
    if 'A' <= c <= 'Z' then (c as int + 32) as char
    else if c == '\U{130}' then 'i' else if c == '\U{212a}' then 'k' else c
  }

  function ToLower(s: string): string {
    seq(|s|, i requires 0 <= i < |s| => Lower(s[i]))
  }

  function Target(verdict: string): Option<real> {
    if verdict in {"phishing", "phish", "confirmed_phish"} then Some(100.0)
    else if verdict in {"suspicious", "review"} then Some(50.0)
    else if verdict in {"clean", "confirmed_clean"} then Some(0.0)
    else None
  }

  predicate ValidSignal(id: string, confidence: real) {
    TrimSpace(id) != "" && 0.0 <= confidence <= 1.0
  }

  function Parse(line: Line): Parsed {
    match line
    case Blank => Skip
    case Malformed => Fail
    case Labelled(verdict, signals) =>
      var target := Target(ToLower(TrimSpace(verdict)));
      if target.None? || signals == map[] || (exists id <- signals :: !ValidSignal(id, signals[id])) then Fail
      else Take(Example(target.value, signals))
  }

  // An example the reader lets through.
  predicate ValidExample(e: Example) {
    && e.target in {0.0, 50.0, 100.0}
    && e.signals != map[] && forall id <- e.signals :: ValidSignal(id, e.signals[id])
  }

  // Either the examples on all the lines, or the number of the first line that is no label, or else
  // that reading broke off.
  datatype Labels = Labels(examples: seq<Example>) | BadLine(line: nat) | BrokenOff

  // The three kinds of label, as the label contract lists them, in any case and with any white space
  // around.
  predicate SaysPhishing(verdict: string) {
    var v := ToLower(TrimSpace(verdict)); v == "phishing" || v == "phish" || v == "confirmed_phish"
  }

  predicate SaysSuspicious(verdict: string) {
    var v := ToLower(TrimSpace(verdict)); v == "suspicious" || v == "review"
  }

  predicate SaysClean(verdict: string) {
    var v := ToLower(TrimSpace(verdict)); v == "clean" || v == "confirmed_clean"
  }

  // A label of one of these kinds, with signals, each under a name and with a confidence from 0 to 1.
  predicate GoodLabel(line: Line) {
    && line.Labelled?
    && (SaysPhishing(line.verdict) || SaysSuspicious(line.verdict) || SaysClean(line.verdict))
    && line.signals != map[]
    && forall id <- line.signals :: TrimSpace(id) != "" && 0.0 <= line.signals[id] <= 1.0
  }

  // The lines that are not blank.
  function Written(lines: seq<Line>): seq<Line> {
    if lines == [] then []
    else Written(lines[..|lines| - 1]) + if lines[|lines| - 1].Blank? then [] else [lines[|lines| - 1]]
  }

  // An example is its line's: the score that its kind of label should have, and its signals.
  predicate Teaches(line: Line, e: Example) {
    && line.Labelled? && e.signals == line.signals
    && (SaysPhishing(line.verdict) ==> e.target == 100.0)
    && (SaysSuspicious(line.verdict) ==> e.target == 50.0)
    && (SaysClean(line.verdict) ==> e.target == 0.0)
  }

  method ReadLabels(lines: seq<Line>, broken: bool) returns (r: Labels)
    ensures r.BrokenOff? ==> broken && forall line <- lines :: line.Blank? || GoodLabel(line)
    ensures r.Labels? ==> !broken && (forall line <- lines :: line.Blank? || GoodLabel(line))
    ensures r.Labels? ==> r.examples == Taken(lines)
    ensures r.Labels? ==> forall e <- r.examples :: ValidExample(e)
    ensures r.Labels? ==>
              var written := Written(lines);
              |r.examples| == |written| && forall i | 0 <= i < |written| :: Teaches(written[i], r.examples[i])
    ensures r.BadLine? ==>
              && 1 <= r.line <= |lines| && !lines[r.line - 1].Blank? && !GoodLabel(lines[r.line - 1])
              && forall i | 0 <= i < r.line - 1 :: lines[i].Blank? || GoodLabel(lines[i])
  {
    hide TrimSpace, ToLower;
    var labels: seq<Example> := [];
    for i := 0 to |lines|
      invariant forall j | 0 <= j < i :: lines[j].Blank? || GoodLabel(lines[j])
      invariant labels == Taken(lines[..i]) && forall e <- labels :: ValidExample(e)
    {
      assert lines[..i + 1][..i] == lines[..i];
      ParseIs(lines[i]);
      match lines[i] {
        case Blank =>
        case Malformed => return BadLine(i + 1);
        case Labelled(verdict, signals) =>
          var target := Target(ToLower(TrimSpace(verdict)));
          if target.None? || signals == map[] || (exists id <- signals :: !ValidSignal(id, signals[id])) {
            return BadLine(i + 1);
          }
          labels := labels + [Example(target.value, signals)];
      }
    }
    assert lines[..|lines|] == lines;
    TakenTeaches(lines);
    return if broken then BrokenOff else Labels(labels);
  }

  lemma ParseIs(line: Line)
    ensures Parse(line).Skip? <==> line.Blank?
    ensures Parse(line).Take? <==> GoodLabel(line)
    ensures Parse(line).Take? ==> Teaches(line, Parse(line).e)
  {
    hide TrimSpace, ToLower;
  }

  lemma {:induction false} TakenTeaches(lines: seq<Line>)
    requires forall line <- lines :: line.Blank? || GoodLabel(line)
    ensures var written, taken := Written(lines), Taken(lines);
            |taken| == |written| && forall i | 0 <= i < |written| :: Teaches(written[i], taken[i])
  {
    hide Parse, GoodLabel, Teaches;
    if lines != [] {
      TakenTeaches(lines[..|lines| - 1]);
      ParseIs(lines[|lines| - 1]);
    }
  }

  // Letters match in either case.
  lemma {:induction false} CaseIgnored(v: string, w: string)
    requires |v| == |w|
    requires forall i | 0 <= i < |v| :: v[i] == w[i] || ('a' <= w[i] <= 'z' && v[i] as int == w[i] as int - 32)
    ensures ToLower(v) == ToLower(w)
    ensures (forall i | 0 <= i < |w| :: 'a' <= w[i] <= 'z' || w[i] == '_') ==> ToLower(v) == w
  {
  }

  function Taken(lines: seq<Line>): seq<Example> {
    if lines == [] then [] else
    Taken(lines[..|lines| - 1]) +
    match Parse(lines[|lines| - 1]) case Take(e) => [e] case _ => []
  }

  // --------------------------------------------------------------------------- the loss

  function BaseAt(base: Weights, id: string): real {
    if id in base then base[id] as real else 0.0
  }

  ghost predicate Covers(v: Vec, exs: seq<Example>) {
    forall e <- exs :: e.signals.Keys <= v.Keys
  }

  // How far the weighted signals of an example are from its target.
  ghost function Miss(e: Example, v: Vec): real
    requires e.signals.Keys <= v.Keys
  {
    Dot(v, e.signals) - e.target
  }

  // The squared distance of the weights of an example's signals from the base weights.
  ghost function Drift(e: Example, base: Weights, v: Vec): real
    requires e.signals.Keys <= v.Keys
  {
    Sum(map id | id in e.signals :: Times(v[id] - BaseAt(base, id), v[id] - BaseAt(base, id)))
  }

  // An example's share of the loss.
  ghost function Share(e: Example, base: Weights, v: Vec): real
    requires e.signals.Keys <= v.Keys
  {
    Times(Miss(e, v), Miss(e, v)) + Times(REGULARIZER, Drift(e, base, v))
  }

  ghost function Squares(exs: seq<Example>, base: Weights, v: Vec): real
    requires Covers(v, exs)
  {
    if exs == [] then 0.0 else
    var e := exs[|exs| - 1];
    Squares(exs[..|exs| - 1], base, v) + Share(e, base, v)
  }

  // Half the mean over the examples of the squared miss and the regularised squared drift.
  ghost function Loss(exs: seq<Example>, base: Weights, v: Vec): real
    requires Covers(v, exs) && exs != []
  {
    Squares(exs, base, v) / (2.0 * |exs| as real)
  }

  // --------------------------------------------------------------------------- an epoch

  // What one example adds to the gradient at one weight.
  ghost function Pull(e: Example, base: Weights, v: Vec, id: string): real
    requires e.signals.Keys <= v.Keys
  {
    if id in e.signals
    then Times(Miss(e, v), e.signals[id]) + Times(REGULARIZER, v[id] - BaseAt(base, id))
    else 0.0
  }

  ghost function Gradient(exs: seq<Example>, base: Weights, v: Vec, id: string): real
    requires Covers(v, exs)
  {
    if exs == [] then 0.0 else
    Gradient(exs[..|exs| - 1], base, v, id) + Pull(exs[|exs| - 1], base, v, id)
  }

  ghost function Epoch(exs: seq<Example>, base: Weights, v: Vec): (w: Vec)
    requires Covers(v, exs) && exs != []
    ensures w.Keys == v.Keys
  {
    map id | id in v :: v[id] - LEARNING_RATE * Gradient(exs, base, v, id) / |exs| as real
  }

  ghost function Descend(exs: seq<Example>, base: Weights, v: Vec, epochs: nat): (w: Vec)
    requires Covers(v, exs) && exs != []
    ensures w.Keys == v.Keys
  {
    if epochs == 0 then v else Epoch(exs, base, Descend(exs, base, v, epochs - 1))
  }

  // The signals with a base weight or in some example.
  function Keys(exs: seq<Example>, base: Weights): (keys: set<string>)
    ensures base.Keys <= keys && forall e <- exs :: e.signals.Keys <= keys
  {
    base.Keys + set e, id | e in exs && id in e.signals :: id
  }

  ghost function Start(exs: seq<Example>, base: Weights): (v: Vec)
    ensures v.Keys == Keys(exs, base) && Covers(v, exs)
  {
    map id | id in Keys(exs, base) :: BaseAt(base, id)
  }

  // Learning starts from the base weights, and from zero for the other signals that examples carry.
  lemma StartIs(exs: seq<Example>, base: Weights, id: string)
    ensures id in Start(exs, base) <==> id in base || exists i :: 0 <= i < |exs| && id in exs[i].signals
    ensures id in Start(exs, base) ==> Start(exs, base)[id] == if id in base then base[id] as real else 0.0
  {
  }

  // ------------------------------------------------------------------------------- operations

  function ClampWeight(v: real): (w: int)
    ensures -100 <= w <= 100
    ensures -100.0 <= v <= 100.0 ==> -0.5 <= w as real - v <= 0.5
    ensures (v >= 100.0 ==> w == 100) && (v <= -100.0 ==> w == -100)
  {
    if v > 100.0 then 100 else if v < -100.0 then -100 else Round(v)
  }

  method Predict(v: Vec, c: Vec) returns (prediction: real)
    requires c.Keys <= v.Keys
    ensures prediction == Dot(v, c)
  {
    prediction := 0.0;
    var todo := c.Keys;
    ghost var products := map id | id in c :: Times(v[id], c[id]);
    ghost var rest := products;
    while todo != {}
      invariant todo <= c.Keys && rest.Keys == todo && forall id <- todo :: rest[id] == products[id]
      invariant prediction + Sum(rest) == Sum(products)
      decreases todo
    {
      var id :| id in todo;
      SumWithout(rest, id);
      prediction := prediction + v[id] * c[id];
      todo := todo - {id};
      rest := rest - {id};
    }
    assert rest == map[];
  }

  // The value of an entry, or zero: a missing entry reads as zero.
  function At(m: Vec, id: string): real {
    if id in m then m[id] else 0.0
  }

  method AddPulls(grad: Vec, e: Example, base: Weights, v: Vec) returns (out: Vec)
    requires e.signals.Keys <= v.Keys
    ensures forall id <- v :: At(out, id) == At(grad, id) + Pull(e, base, v, id)
  {
    var prediction := Predict(v, e.signals);
    var errScore := prediction - e.target;
    out := grad;
    var todo := e.signals.Keys;
    while todo != {}
      invariant todo <= e.signals.Keys
      invariant forall id <- v ::
                  At(out, id) == At(grad, id) + if id in todo then 0.0 else Pull(e, base, v, id)
      decreases todo
    {
      var id :| id in todo;
      out := out[id := At(out, id) + (errScore * e.signals[id] + REGULARIZER * (v[id] - BaseAt(base, id)))];
      todo := todo - {id};
    }
  }

  method RunEpoch(exs: seq<Example>, base: Weights, v: Vec) returns (values: Vec)
    requires Covers(v, exs) && exs != []
    ensures values == Epoch(exs, base, v)
  {
    hide Pull;
    var grad: Vec := map[];
    for i := 0 to |exs|
      invariant forall id <- v :: At(grad, id) == Gradient(exs[..i], base, v, id)
    {
      assert exs[..i + 1][..i] == exs[..i];
      grad := AddPulls(grad, exs[i], base, v);
    }
    assert exs[..|exs|] == exs;
    values := v;
    var todo := v.Keys;
    ghost var next := Epoch(exs, base, v);
    while todo != {}
      invariant todo <= v.Keys == values.Keys
      invariant forall id <- v :: values[id] == if id in todo then v[id] else next[id]
      decreases todo
    {
      var id :| id in todo;
      values := values[id := values[id] - LEARNING_RATE * At(grad, id) / |exs| as real];
      todo := todo - {id};
    }
  }

  // A weight file: the thresholds of the verdicts and the weights of the signals.
  datatype WeightFile = WeightFile(phishing: int, suspicious: int, signals: Weights)

  datatype Tuned = Tuned(file: WeightFile, count: nat) | NoBase | Rejected(line: nat) | Unread | NoLabels

  method Tune(lines: seq<Line>, broken: bool, base: Option<WeightFile>) returns (r: Tuned)
    ensures base.None? <==> r.NoBase?
    ensures r.Unread? ==> broken && forall line <- lines :: line.Blank? || GoodLabel(line)
    ensures r.NoLabels? || r.Tuned? ==> !broken
    ensures r.Rejected? ==>
              && 1 <= r.line <= |lines| && !lines[r.line - 1].Blank? && !GoodLabel(lines[r.line - 1])
              && forall i | 0 <= i < r.line - 1 :: lines[i].Blank? || GoodLabel(lines[i])
    ensures r.NoLabels? ==> (forall line <- lines :: line.Blank?)
    ensures r.Tuned? ==>
              var exs, b, learned := Taken(lines), base.value.signals, r.file.signals;
              && (forall line <- lines :: line.Blank? || GoodLabel(line))
              && exs != [] && r.count == |exs| && (forall e <- exs :: ValidExample(e))
              && r.file == base.value.(signals := learned)
              && learned.Keys == Keys(exs, b)
              && forall id <- learned :: learned[id] == ClampWeight(Descend(exs, b, Start(exs, b), EPOCHS)[id])
  {
    if base.None? { return NoBase; }
    var labels := ReadLabels(lines, broken);
    if labels.BadLine? { return Rejected(labels.line); }
    if labels.BrokenOff? { return Unread; }
    if labels.examples == [] {
      NoneTaken(lines);
      return NoLabels;
    }
    var exs, b := labels.examples, base.value.signals;
    hide ValidExample, Epoch;
    var keys := Keys(exs, b);
    var values := map id | id in keys :: BaseAt(b, id);
    ghost var start := Start(exs, b);
    for epoch := 0 to EPOCHS
      invariant values == Descend(exs, b, start, epoch)
    {
      values := RunEpoch(exs, b, values);
    }
    return Tuned(base.value.(signals := map id | id in keys :: ClampWeight(values[id])), |exs|);
  }

  lemma {:induction false} NoneTaken(lines: seq<Line>)
    requires Taken(lines) == [] && forall line <- lines :: line.Blank? || GoodLabel(line)
    ensures forall line <- lines :: line.Blank?
  {
    hide Parse, GoodLabel;
    if lines != [] {
      NoneTaken(lines[..|lines| - 1]);
      ParseIs(lines[|lines| - 1]);
    }
  }
}
