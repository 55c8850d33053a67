/** The budget every call to a language model is reserved against: calls in an hour, dollars in a
    day. */
module LlmBudget {
  import opened Common

  // Dollars per thousand tokens in and out.
  datatype Price = Price(input: real, output: real)

  predicate NotNegative(p: Price) {
    p.input >= 0.0 && p.output >= 0.0
  }

  function AtLeastZero(v: int): nat {
    if v > 0 then v else 0
  }

  function Cost(inputTokens: int, outputTokens: int, p: Price): (c: real)
    ensures p.input >= 0.0 && p.output >= 0.0 ==> c >= 0.0
  {
    AtLeastZero(inputTokens) as real / 1000.0 * p.input + AtLeastZero(outputTokens) as real / 1000.0 * p.output
  }

  // A thousand tokens cost their price, the costs of tokens in and out and of more tokens add up, and
  // a count below zero is none.
  lemma CostPerThousand(i: nat, o: nat, p: Price)
    ensures Cost(1000 * i, 1000 * o, p) == i as real * p.input + o as real * p.output
  {
    assert (1000 * i) as real / 1000.0 == i as real && (1000 * o) as real / 1000.0 == o as real;
  }

  lemma CostAdds(i: nat, o: nat, i': nat, o': nat, p: Price)
    ensures Cost(i + i', o + o', p) == Cost(i, o, p) + Cost(i', o', p)
  {
    PartAdds(i, i', p.input);
    PartAdds(o, o', p.output);
  }

  lemma PartAdds(n: nat, m: nat, price: real)
    ensures (n + m) as real / 1000.0 * price == n as real / 1000.0 * price + m as real / 1000.0 * price
  {
  }

  lemma CostOfNone(i: int, o: int, p: Price)
    ensures i <= 0 ==> Cost(i, o, p) == Cost(0, o, p)
    ensures o <= 0 ==> Cost(i, o, p) == Cost(i, 0, p)
  {
  }

  datatype Limits = Limits(perHour: int, perDay: real)

  datatype State = State(window: int, day: int, calls: nat, spent: real)

  // The state after the windows that have run out start again.
  function Rolled(s: State, now: int): State {
    var t := if now - s.window >= HOUR then s.(window := now, calls := 0) else s;
    if now - s.day >= DAY then t.(day := now, spent := 0.0) else t
  }

  predicate Grants(c: Limits, s: State, now: int, cost: real) {
    var t := Rolled(s, now);
    && (c.perHour <= 0 || t.calls < c.perHour)
    && (c.perDay <= 0.0 || t.spent + cost <= c.perDay)
  }

  function AfterReserve(c: Limits, s: State, now: int, cost: real): State {
    var t := Rolled(s, now);
    if Grants(c, s, now, cost) then t.(calls := t.calls + 1, spent := t.spent + cost) else t
  }

  // Replacing an estimate by what a call cost: nothing if it was cancelled.
  function AfterClose(s: State, estimated: real, actual: real): State {
    var spent := s.spent + actual - estimated;
    s.(spent := if spent < 0.0 then 0.0 else spent)
  }

  datatype Reservation = Reservation(inputTokens: int, outputTokens: int, estimated: real, ok: bool)

  // What happened to the budget, for its callers' sake.
  datatype Event = Denied | Granted(estimated: real) | Cancelled(estimated: real)
                 | Settled(estimated: real, actual: real)

  class Budget {
    const perHour: int
    const perDay: real
    var window: int
    var day: int
    var calls: nat
    var spentUSD: real
    ghost var log: seq<Event>

    ghost function Limit(): Limits {
      Limits(perHour, perDay)
    }

    ghost function Now(): State
      reads this
    {
      State(window, day, calls, spentUSD)
    }

    constructor (perHour: int, perDay: real, now: int)
      ensures Limit() == Limits(perHour, perDay) && Now() == Start(now) && log == []
    {
      this.perHour, this.perDay := perHour, perDay;
      window, day, calls, spentUSD := now, now, 0, 0.0;
      log := [];
    }

    method EstimateAndReserve(now: int, inputTokens: int, outputTokens: int, p: Price) returns (r: Reservation)
      modifies this
      ensures var cost := Cost(inputTokens, outputTokens, p);
              && Now() == AfterReserve(Limit(), old(Now()), now, cost)
              && r.ok == Grants(Limit(), old(Now()), now, cost)
              && log == old(log) + [if r.ok then Granted(cost) else Denied]
              && (r.ok ==> r == Reservation(inputTokens, outputTokens, cost, true))
      ensures r.ok && perDay > 0.0 ==> spentUSD <= perDay
    {
      var cost := Cost(inputTokens, outputTokens, p);
      if now - window >= HOUR {
        window, calls := now, 0;
      }
      if now - day >= DAY {
        day, spentUSD := now, 0.0;
      }
      if (perHour > 0 && calls >= perHour) || (perDay > 0.0 && spentUSD + cost > perDay) {
        log := log + [Denied];
        return Reservation(0, 0, 0.0, false);
      }
      calls := calls + 1;
      spentUSD := spentUSD + cost;
      log := log + [Granted(cost)];
      return Reservation(inputTokens, outputTokens, cost, true);
    }

    method Settle(r: Reservation, actual: real)
      modifies this
      ensures Now() == if r.ok then AfterClose(old(Now()), r.estimated, actual) else old(Now())
      ensures log == if r.ok then old(log) + [Settled(r.estimated, actual)] else old(log)
    {
      if !r.ok { return; }
      spentUSD := spentUSD + (actual - r.estimated);
      if spentUSD < 0.0 {
        spentUSD := 0.0;
      }
      log := log + [Settled(r.estimated, actual)];
    }

    method Cancel(r: Reservation)
      modifies this
      ensures Now() == if r.ok then AfterClose(old(Now()), r.estimated, 0.0) else old(Now())
      ensures log == if r.ok then old(log) + [Cancelled(r.estimated)] else old(log)
    {
      if !r.ok { return; }
      spentUSD := spentUSD - r.estimated;
      if spentUSD < 0.0 {
        spentUSD := 0.0;
      }
      log := log + [Cancelled(r.estimated)];
    }
  }

  function Start(now: int): State {
    State(now, now, 0, 0.0)
  }

  // ---------------------------------------------------------------------------- whole runs

  // Any number of callers may reserve and close in any order; a close names the grant it closes.
  // Cancelling is closing at no cost.
  datatype Op = Reserve(now: int, cost: real) | Close(grant: nat, actual: real)

  // A grant, with the windows it was made in.
  datatype Grant = Grant(time: int, window: int, day: int, estimated: real)

  // The budget, every grant so far, and what each closed grant cost.
  datatype Ledger = Ledger(budget: State, grants: seq<Grant>, closed: map<nat, real>)

  function Apply(c: Limits, l: Ledger, op: Op): Ledger {
    match op
    case Reserve(now, cost) =>
      var b := AfterReserve(c, l.budget, now, cost);
      if Grants(c, l.budget, now, cost)
      then l.(budget := b, grants := l.grants + [Grant(now, b.window, b.day, cost)])
      else l.(budget := b)
    case Close(i, actual) =>
      if i < |l.grants| && i !in l.closed
      then l.(budget := AfterClose(l.budget, l.grants[i].estimated, actual), closed := l.closed[i := actual])
      else l
  }

  function Run(c: Limits, start: int, ops: seq<Op>): Ledger {
    if ops == [] then Ledger(Start(start), [], map[])
    else Apply(c, Run(c, start, ops[..|ops| - 1]), ops[|ops| - 1])
  }

  // The clock never goes back.
  predicate InOrder(start: int, ops: seq<Op>) {
    && (forall i | 0 <= i < |ops| && ops[i].Reserve? :: start <= ops[i].now)
    && (forall i, j | 0 <= i < j < |ops| && ops[i].Reserve? && ops[j].Reserve? :: ops[i].now <= ops[j].now)
  }

  // -------------------------------------------------------------------------------- call rate

  // How many of the grants were made at a time t with x <= t < x + HOUR.
  function GrantedIn(grants: seq<Grant>, x: int): nat {
    if grants == [] then 0 else
    var g := grants[|grants| - 1];
    GrantedIn(grants[..|grants| - 1], x) + if x <= g.time < x + HOUR then 1 else 0
  }

  // How many of the grants were made in the hourly window that began at w.
  function GrantedWithin(grants: seq<Grant>, w: int): nat {
    if grants == [] then 0 else
    var g := grants[|grants| - 1];
    GrantedWithin(grants[..|grants| - 1], w) + if g.window == w then 1 else 0
  }

  // Grants were made inside their window, and those of past windows before the present one.
  ghost predicate Windowed(l: Ledger) {
    forall g <- l.grants ::
      && g.window <= g.time < g.window + HOUR
      && (g.window == l.budget.window || g.time < l.budget.window)
  }

  ghost predicate NotAfter(l: Ledger, t: int) {
    l.budget.window <= t && l.budget.day <= t && forall g <- l.grants :: g.time <= t && g.day <= l.budget.day
  }

  lemma {:induction false} RunInOrder(c: Limits, start: int, ops: seq<Op>, t: int)
    requires InOrder(start, ops) && start <= t && forall i | 0 <= i < |ops| && ops[i].Reserve? :: ops[i].now <= t
    ensures Windowed(Run(c, start, ops)) && NotAfter(Run(c, start, ops), t)
  {
    if ops != [] {
      var front, op := ops[..|ops| - 1], ops[|ops| - 1];
      var u := if op.Reserve? then op.now else t;
      RunInOrder(c, start, front, u);
    }
  }

  // The counts so far, by where the present window lies relative to the interval.
  ghost predicate RateSoFar(c: Limits, l: Ledger, x: int) {
    && l.budget.calls <= c.perHour
    && GrantedWithin(l.grants, l.budget.window) == l.budget.calls
    && GrantedIn(l.grants, x) <=
       if l.budget.window <= x then l.budget.calls
       else if l.budget.window < x + HOUR then c.perHour + l.budget.calls
       else 2 * c.perHour
  }

  lemma {:induction false} NoneIn(grants: seq<Grant>, x: int, w: int)
    requires forall g <- grants :: g.time < w && g.window < w
    ensures w <= x ==> GrantedIn(grants, x) == 0
    ensures GrantedWithin(grants, w) == 0
  {
    if grants != [] {
      NoneIn(grants[..|grants| - 1], x, w);
    }
  }

  lemma GrantedInOneMore(grants: seq<Grant>, g: Grant, x: int)
    ensures GrantedIn(grants + [g], x) == GrantedIn(grants, x) + if x <= g.time < x + HOUR then 1 else 0
  {
  }

  lemma RollKeepsRate(c: Limits, l: Ledger, now: int, x: int)
    requires c.perHour > 0 && RateSoFar(c, l, x) && Windowed(l) && NotAfter(l, now)
    ensures RateSoFar(c, l.(budget := Rolled(l.budget, now)), x)
  {
    if now - l.budget.window >= HOUR {
      NoneIn(l.grants, x, now);
    }
  }

  lemma GrantKeepsRate(c: Limits, l: Ledger, g: Grant, x: int, b: State)
    requires RateSoFar(c, l, x) && l.budget.calls < c.perHour && g.window == l.budget.window <= g.time
    requires b.window == l.budget.window && b.calls == l.budget.calls + 1
    ensures RateSoFar(c, l.(budget := b, grants := l.grants + [g]), x)
  {
  }

  lemma ReserveKeepsRate(c: Limits, l: Ledger, now: int, cost: real, x: int)
    requires c.perHour > 0 && RateSoFar(c, l, x) && Windowed(l) && NotAfter(l, now)
    ensures RateSoFar(c, Apply(c, l, Reserve(now, cost)), x)
  {
    RollKeepsRate(c, l, now, x);
    if Grants(c, l.budget, now, cost) {
      var b := AfterReserve(c, l.budget, now, cost);
      GrantKeepsRate(c, l.(budget := Rolled(l.budget, now)), Grant(now, b.window, b.day, cost), x, b);
    }
  }

  lemma {:induction false} RateHolds(c: Limits, start: int, ops: seq<Op>, x: int)
    requires c.perHour > 0 && InOrder(start, ops)
    ensures RateSoFar(c, Run(c, start, ops), x)
  {
    if ops != [] {
      var front, op := ops[..|ops| - 1], ops[|ops| - 1];
      RateHolds(c, start, front, x);
      if op.Reserve? {
        RunInOrder(c, start, front, op.now);
        ReserveKeepsRate(c, Run(c, start, front), op.now, op.cost, x);
      }
    }
  }

  // With an hourly cap, any hour at all holds at most twice the cap in grants, whatever is
  // cancelled or settled meanwhile.
  lemma SlidingHour(c: Limits, start: int, ops: seq<Op>, x: int)
    requires c.perHour > 0 && InOrder(start, ops)
    ensures GrantedIn(Run(c, start, ops).grants, x) <= 2 * c.perHour
  {
    RateHolds(c, start, ops, x);
  }

  // Every window of the budget's own holds at most the cap.
  lemma {:induction false} FixedWindow(c: Limits, start: int, ops: seq<Op>, w: int)
    requires c.perHour > 0 && InOrder(start, ops)
    ensures GrantedWithin(Run(c, start, ops).grants, w) <= c.perHour
  {
    if ops != [] {
      var front, op := ops[..|ops| - 1], ops[|ops| - 1];
      FixedWindow(c, start, front, w);
      RateHolds(c, start, ops, 0);
      if op.Reserve? && Grants(c, Run(c, start, front).budget, op.now, op.cost) {
        assert Run(c, start, ops).grants[..|Run(c, start, front).grants|] == Run(c, start, front).grants;
      }
    }
  }

  // The factor two is reached: a full window's calls just before it ends, and the next one's.
  function Burst(perHour: nat, n: nat): seq<Op> {
    seq(n, i => Reserve(if i < perHour then HOUR - 1 else HOUR, 0.0))
  }

  lemma {:induction false} BurstRun(perHour: nat, n: nat)
    requires perHour > 0 && n <= 2 * perHour
    ensures var l := Run(Limits(perHour, 0.0), 0, Burst(perHour, n));
            && GrantedIn(l.grants, HOUR - 1) == n
            && l.budget.window == (if n <= perHour then 0 else HOUR)
            && l.budget.calls == (if n <= perHour then n else n - perHour)
    decreases n
  {
    if n > 0 {
      var c, ops := Limits(perHour, 0.0), Burst(perHour, n);
      assert ops[..n - 1] == Burst(perHour, n - 1);
      BurstRun(perHour, n - 1);
      var l := Run(c, 0, Burst(perHour, n - 1));
      assert Run(c, 0, ops) == Apply(c, l, ops[n - 1]);
      hide Run, GrantedIn;
      var b := AfterReserve(c, l.budget, ops[n - 1].now, 0.0);
      GrantedInOneMore(l.grants, Grant(ops[n - 1].now, b.window, b.day, 0.0), HOUR - 1);
    }
  }

  lemma SlidingHourReached(perHour: nat)
    requires perHour > 0
    ensures InOrder(0, Burst(perHour, 2 * perHour))
    ensures GrantedIn(Run(Limits(perHour, 0.0), 0, Burst(perHour, 2 * perHour)).grants, HOUR - 1) == 2 * perHour
  {
    BurstRun(perHour, 2 * perHour);
  }

  // ------------------------------------------------------------------------------ conservation

  // What the grants of a day stand for: the actual cost of those closed, the estimate of those open.
  function Owed(grants: seq<Grant>, closed: map<nat, real>, day: int): real {
    if grants == [] then 0.0 else
    var i := |grants| - 1;
    Owed(grants[..i], closed, day) +
    if grants[i].day != day then 0.0 else if i in closed then closed[i] else grants[i].estimated
  }

  ghost predicate Conserved(l: Ledger) {
    l.budget.spent == Owed(l.grants, l.closed, l.budget.day)
  }

  // Costs are not negative, and a close is of an open grant made on the present day.
  ghost predicate Proper(l: Ledger, op: Op) {
    match op
    case Reserve(_, cost) => cost >= 0.0
    case Close(i, actual) =>
      actual >= 0.0 && i < |l.grants| && i !in l.closed && l.grants[i].day == l.budget.day
  }

  ghost predicate ProperRun(c: Limits, start: int, ops: seq<Op>) {
    ops == [] ||
    (ProperRun(c, start, ops[..|ops| - 1]) && Proper(Run(c, start, ops[..|ops| - 1]), ops[|ops| - 1]))
  }

  ghost predicate NoDebts(l: Ledger) {
    (forall g <- l.grants :: g.estimated >= 0.0) && (forall i <- l.closed :: l.closed[i] >= 0.0)
  }

  lemma {:induction false} OwedNotNegative(grants: seq<Grant>, closed: map<nat, real>, day: int)
    requires (forall g <- grants :: g.estimated >= 0.0) && (forall i <- closed :: closed[i] >= 0.0)
    ensures Owed(grants, closed, day) >= 0.0
  {
    if grants != [] {
      OwedNotNegative(grants[..|grants| - 1], closed, day);
    }
  }

  lemma {:induction false} OwedAfterClose(grants: seq<Grant>, closed: map<nat, real>, day: int, i: nat, actual: real)
    requires i !in closed
    ensures Owed(grants, closed[i := actual], day) == Owed(grants, closed, day) +
            if i < |grants| && grants[i].day == day then actual - grants[i].estimated else 0.0
  {
    if grants != [] {
      OwedAfterClose(grants[..|grants| - 1], closed, day, i, actual);
    }
  }

  lemma {:induction false} OwedNewDay(grants: seq<Grant>, closed: map<nat, real>, day: int)
    requires forall g <- grants :: g.day < day
    ensures Owed(grants, closed, day) == 0.0
  {
    if grants != [] {
      OwedNewDay(grants[..|grants| - 1], closed, day);
    }
  }

  lemma OwedOneMore(grants: seq<Grant>, g: Grant, closed: map<nat, real>, day: int)
    requires |grants| !in closed
    ensures Owed(grants + [g], closed, day) == Owed(grants, closed, day) + if g.day == day then g.estimated else 0.0
  {
  }

  lemma RollConserves(l: Ledger, now: int)
    requires Conserved(l) && NotAfter(l, now)
    ensures Conserved(l.(budget := Rolled(l.budget, now)))
  {
    if now - l.budget.day >= DAY {
      OwedNewDay(l.grants, l.closed, now);
    }
  }

  lemma ReserveConserves(c: Limits, l: Ledger, now: int, cost: real)
    requires Conserved(l) && NotAfter(l, now) && (forall i <- l.closed :: i < |l.grants|)
    ensures Conserved(Apply(c, l, Reserve(now, cost)))
  {
    RollConserves(l, now);
    assert |l.grants| !in l.closed;
    hide Owed, NotAfter;
    var b := AfterReserve(c, l.budget, now, cost);
    OwedOneMore(l.grants, Grant(now, b.window, b.day, cost), l.closed, b.day);
  }

  // In any interleaving of reserving, settling and cancelling in which costs are not negative and
  // a grant is closed on the day it was made, the spending recorded is exactly what the day's
  // grants stand for.
  lemma {:induction false} Conservation(c: Limits, start: int, ops: seq<Op>)
    requires InOrder(start, ops) && ProperRun(c, start, ops)
    ensures var l := Run(c, start, ops);
            Conserved(l) && l.budget.spent >= 0.0 && NoDebts(l) && forall i <- l.closed :: i < |l.grants|
  {
    if ops != [] {
      var front, op := ops[..|ops| - 1], ops[|ops| - 1];
      Conservation(c, start, front);
      var l := Run(c, start, front);
      match op {
        case Reserve(now, cost) =>
          RunInOrder(c, start, front, now);
          ReserveConserves(c, l, now, cost);
        case Close(i, actual) =>
          OwedAfterClose(l.grants, l.closed, l.budget.day, i, actual);
          OwedNotNegative(l.grants, l.closed[i := actual], l.budget.day);
      }
      var m := Run(c, start, ops);
      OwedNotNegative(m.grants, m.closed, m.budget.day);
    }
  }

  // Nor does such a run ever need the clamp at zero.
  lemma ClampNeverFires(c: Limits, start: int, ops: seq<Op>, i: nat, actual: real)
    requires InOrder(start, ops) && ProperRun(c, start, ops) && Proper(Run(c, start, ops), Close(i, actual))
    ensures var l := Run(c, start, ops); l.budget.spent + actual - l.grants[i].estimated >= 0.0
  {
    var l := Run(c, start, ops);
    Conservation(c, start, ops);
    OwedAfterClose(l.grants, l.closed, l.budget.day, i, actual);
    OwedNotNegative(l.grants, l.closed[i := actual], l.budget.day);
  }

  // Right after a grant under a daily cap, what the day's grants stand for is within the cap.
  lemma GrantWithinCap(c: Limits, start: int, ops: seq<Op>, now: int, cost: real)
    requires var ops' := ops + [Reserve(now, cost)]; InOrder(start, ops') && ProperRun(c, start, ops')
    requires c.perDay > 0.0 && Grants(c, Run(c, start, ops).budget, now, cost)
    ensures var l := Run(c, start, ops + [Reserve(now, cost)]); Owed(l.grants, l.closed, l.budget.day) <= c.perDay
  {
    var ops' := ops + [Reserve(now, cost)];
    assert ops'[..|ops|] == ops;
    Conservation(c, start, ops');
  }

  // ------------------------------------------------------------------- dollars in any 24 hours

  // What one grant stands for, and how much of that its reservation allowed for.
  function Stands(grants: seq<Grant>, closed: map<nat, real>, i: nat): real
    requires i < |grants|
  {
    if i in closed then closed[i] else grants[i].estimated
  }

  function Allowed(grants: seq<Grant>, closed: map<nat, real>, i: nat): real
    requires i < |grants|
  {
    var v := Stands(grants, closed, i);
    if v <= grants[i].estimated then v else grants[i].estimated
  }

  // What the grants made at a time t with x <= t < x + 24 hours stand for, and by how much their
  // actual costs went beyond their estimates.
  function StandsIn(grants: seq<Grant>, closed: map<nat, real>, x: int): real {
    if grants == [] then 0.0 else
    var i := |grants| - 1;
    StandsIn(grants[..i], closed, x) + if x <= grants[i].time < x + 24 * HOUR then Stands(grants, closed, i) else 0.0
  }

  function OverrunIn(grants: seq<Grant>, closed: map<nat, real>, x: int): real {
    if grants == [] then 0.0 else
    var i := |grants| - 1;
    OverrunIn(grants[..i], closed, x) +
    if x <= grants[i].time < x + 24 * HOUR then Stands(grants, closed, i) - Allowed(grants, closed, i) else 0.0
  }

  function AllowedOn(grants: seq<Grant>, closed: map<nat, real>, day: int): real {
    if grants == [] then 0.0 else
    var i := |grants| - 1;
    AllowedOn(grants[..i], closed, day) + if grants[i].day == day then Allowed(grants, closed, i) else 0.0
  }

  // Each grant is made within 24 hours of the beginning of its day, and different days of the budget
  // begin at least 24 hours apart.
  ghost predicate Daily(l: Ledger) {
    && (forall g <- l.grants :: g.day <= g.time < g.day + 24 * HOUR)
    && (forall g <- l.grants :: g.day == l.budget.day || g.day + 24 * HOUR <= l.budget.day)
    && (forall g, h | g in l.grants && h in l.grants && g.day < h.day :: g.day + 24 * HOUR <= h.day)
  }

  lemma {:induction false} RunDaily(c: Limits, start: int, ops: seq<Op>)
    requires InOrder(start, ops)
    ensures Daily(Run(c, start, ops))
  {
    if ops != [] {
      var front, op := ops[..|ops| - 1], ops[|ops| - 1];
      RunDaily(c, start, front);
      if op.Reserve? {
        RunInOrder(c, start, front, op.now);
        ReserveDaily(c, Run(c, start, front), op.now, op.cost);
      }
    }
  }

  lemma ReserveDaily(c: Limits, l: Ledger, now: int, cost: real)
    requires Daily(l) && NotAfter(l, now)
    ensures Daily(Apply(c, l, Reserve(now, cost)))
  {
  }

  // Two grants made on one day of the budget are less than 24 hours apart.
  lemma DayIsADay(c: Limits, start: int, ops: seq<Op>, g: Grant, h: Grant)
    requires InOrder(start, ops) && g in Run(c, start, ops).grants && h in Run(c, start, ops).grants
    ensures g.day == h.day ==> -24 * HOUR < g.time - h.time < 24 * HOUR
    ensures g.day <= g.time < g.day + 24 * HOUR
    ensures g.day < h.day ==> g.day + 24 * HOUR <= h.day
  {
    RunDaily(c, start, ops);
  }

  lemma {:induction false} AllowedAtMostOwed(grants: seq<Grant>, closed: map<nat, real>, day: int)
    ensures AllowedOn(grants, closed, day) <= Owed(grants, closed, day)
  {
    if grants != [] {
      AllowedAtMostOwed(grants[..|grants| - 1], closed, day);
    }
  }

  lemma AllowedOneMore(grants: seq<Grant>, g: Grant, closed: map<nat, real>, day: int)
    requires |grants| !in closed
    ensures AllowedOn(grants + [g], closed, day) ==
            AllowedOn(grants, closed, day) + if g.day == day then g.estimated else 0.0
  {
  }

  lemma {:induction false} AllowedAfterClose(grants: seq<Grant>, closed: map<nat, real>, day: int, i: nat, actual: real)
    requires i !in closed
    ensures AllowedOn(grants, closed[i := actual], day) <= AllowedOn(grants, closed, day)
  {
    if grants != [] {
      AllowedAfterClose(grants[..|grants| - 1], closed, day, i, actual);
    }
  }

  lemma ReserveKeepsCap(c: Limits, l: Ledger, now: int, cost: real, day: int)
    requires c.perDay > 0.0 && Conserved(l) && NotAfter(l, now) && (forall i <- l.closed :: i < |l.grants|)
    requires AllowedOn(l.grants, l.closed, day) <= c.perDay
    ensures var m := Apply(c, l, Reserve(now, cost)); AllowedOn(m.grants, m.closed, day) <= c.perDay
  {
    assert |l.grants| !in l.closed;
    RollConserves(l, now);
    AllowedAtMostOwed(l.grants, l.closed, Rolled(l.budget, now).day);
    hide Owed, AllowedOn, NotAfter;
    var b := AfterReserve(c, l.budget, now, cost);
    AllowedOneMore(l.grants, Grant(now, b.window, b.day, cost), l.closed, day);
  }

  // On no day of the budget do reservations allow for more than the cap.
  lemma {:induction false} DayWithinCap(c: Limits, start: int, ops: seq<Op>, day: int)
    requires c.perDay > 0.0 && InOrder(start, ops) && ProperRun(c, start, ops)
    ensures var l := Run(c, start, ops); AllowedOn(l.grants, l.closed, day) <= c.perDay
  {
    if ops != [] {
      var front, op := ops[..|ops| - 1], ops[|ops| - 1];
      DayWithinCap(c, start, front, day);
      Conservation(c, start, front);
      var l := Run(c, start, front);
      match op {
        case Reserve(now, cost) =>
          RunInOrder(c, start, front, now);
          ReserveKeepsCap(c, l, now, cost, day);
        case Close(i, actual) => AllowedAfterClose(l.grants, l.closed, day, i, actual);
      }
    }
  }

  // The grants of any 24 hours were made on two days of the budget at most.
  lemma TwoDays(l: Ledger, x: int) returns (early: int, late: int)
    requires Daily(l)
    ensures early != late
    ensures forall g <- l.grants :: x <= g.time < x + 24 * HOUR ==> g.day == early || g.day == late
  {
    early, late := x, x + 1;
    if g :| g in l.grants && x <= g.time < x + 24 * HOUR && g.day <= x {
      early := g.day;
    }
    if g :| g in l.grants && x <= g.time < x + 24 * HOUR && g.day > x {
      late := g.day;
    }
  }

  lemma {:induction false} SplitByDay(grants: seq<Grant>, closed: map<nat, real>, x: int, early: int, late: int)
    requires (forall g <- grants :: g.estimated >= 0.0) && (forall i <- closed :: closed[i] >= 0.0) && early != late
    requires forall g <- grants :: x <= g.time < x + 24 * HOUR ==> g.day == early || g.day == late
    ensures StandsIn(grants, closed, x) <=
            AllowedOn(grants, closed, early) + AllowedOn(grants, closed, late) + OverrunIn(grants, closed, x)
  {
    if grants != [] {
      SplitByDay(grants[..|grants| - 1], closed, x, early, late);
    }
  }

  // With a daily cap, what the grants of any 24 hours stand for is at most twice the cap, and what
  // their actual costs went beyond their estimates.
  lemma SlidingDay(c: Limits, start: int, ops: seq<Op>, x: int)
    requires c.perDay > 0.0 && InOrder(start, ops) && ProperRun(c, start, ops)
    ensures var l := Run(c, start, ops);
            StandsIn(l.grants, l.closed, x) <= 2.0 * c.perDay + OverrunIn(l.grants, l.closed, x)
  {
    var l := Run(c, start, ops);
    RunDaily(c, start, ops);
    Conservation(c, start, ops);
    var early, late := TwoDays(l, x);
    SplitByDay(l.grants, l.closed, x, early, late);
    DayWithinCap(c, start, ops, early);
    DayWithinCap(c, start, ops, late);
  }

  // So it is at most twice the cap if no call costs more than was reserved for it.
  lemma {:induction false} NoOverrun(grants: seq<Grant>, closed: map<nat, real>, x: int)
    requires forall i <- closed :: i < |grants| ==> closed[i] <= grants[i].estimated
    ensures OverrunIn(grants, closed, x) == 0.0
  {
    if grants != [] {
      NoOverrun(grants[..|grants| - 1], closed, x);
    }
  }

  lemma SlidingDayWithin(c: Limits, start: int, ops: seq<Op>, x: int)
    requires c.perDay > 0.0 && InOrder(start, ops) && ProperRun(c, start, ops)
    requires var l := Run(c, start, ops);
             forall i <- l.closed :: i < |l.grants| ==> l.closed[i] <= l.grants[i].estimated
    ensures var l := Run(c, start, ops); StandsIn(l.grants, l.closed, x) <= 2.0 * c.perDay
  {
    SlidingDay(c, start, ops, x);
    NoOverrun(Run(c, start, ops).grants, Run(c, start, ops).closed, x);
  }

  // Both parts of the bound are reached: a full day's dollars just before the day ends and the next
  // one's just after, and a call that costs as much more than reserved as one likes.
  lemma SlidingDayReached(perDay: real, over: real)
    requires perDay > 0.0 && over >= 0.0
    ensures var ops := [Reserve(24 * HOUR - 1, perDay), Reserve(24 * HOUR, perDay), Close(1, perDay + over)];
            var l := Run(Limits(0, perDay), 0, ops);
            && InOrder(0, ops) && ProperRun(Limits(0, perDay), 0, ops)
            && StandsIn(l.grants, l.closed, 24 * HOUR - 1) == 2.0 * perDay + over
            && OverrunIn(l.grants, l.closed, 24 * HOUR - 1) == over
  {
    var c := Limits(0, perDay);
    var a, b, d := Reserve(24 * HOUR - 1, perDay), Reserve(24 * HOUR, perDay), Close(1, perDay + over);
    assert [a, b, d][..2] == [a, b] && [a, b][..1] == [a] && [a][..0] == [];
    var g, h := Grant(24 * HOUR - 1, 24 * HOUR - 1, 0, perDay), Grant(24 * HOUR, 24 * HOUR - 1, 24 * HOUR, perDay);
    assert Run(c, 0, []) == Ledger(Start(0), [], map[]);
    assert Run(c, 0, [a]) == Ledger(State(24 * HOUR - 1, 0, 1, perDay), [g], map[]);
    assert Run(c, 0, [a, b]) == Ledger(State(24 * HOUR - 1, 24 * HOUR, 2, perDay), [g, h], map[]);
    assert Run(c, 0, [a, b, d]).grants == [g, h] && Run(c, 0, [a, b, d]).closed == map[1 := perDay + over];
    assert ProperRun(c, 0, []) && ProperRun(c, 0, [a]) && ProperRun(c, 0, [a, b]);
    assert ProperRun(c, 0, [a, b, d]);
    TwoGrants(g, h, perDay + over, 24 * HOUR - 1);
  }

  lemma TwoGrants(g: Grant, h: Grant, actual: real, x: int)
    requires x <= g.time < x + 24 * HOUR && x <= h.time < x + 24 * HOUR && h.estimated <= actual
    ensures StandsIn([g, h], map[1 := actual], x) == g.estimated + actual
    ensures OverrunIn([g, h], map[1 := actual], x) == actual - h.estimated
  {
    var m := map[1 := actual];
    assert [g, h][..1] == [g] && [g][..0] == [];
    assert StandsIn([g], m, x) == g.estimated && OverrunIn([g], m, x) == 0.0;
  }

  // ------------------------------------------------------------------------- what is refused

  lemma {:induction false} WithinIsIn(grants: seq<Grant>, w: int, x: int)
    requires forall g <- grants :: g.window == w ==> x <= g.time < x + HOUR
    ensures GrantedWithin(grants, w) <= GrantedIn(grants, x)
  {
    if grants != [] {
      WithinIsIn(grants[..|grants| - 1], w, x);
    }
  }

  lemma {:induction false} OwedStands(grants: seq<Grant>, closed: map<nat, real>, day: int, x: int)
    requires (forall g <- grants :: g.estimated >= 0.0) && (forall i <- closed :: closed[i] >= 0.0)
    requires forall g <- grants :: g.day == day ==> x <= g.time < x + 24 * HOUR
    ensures Owed(grants, closed, day) <= StandsIn(grants, closed, x)
  {
    if grants != [] {
      OwedStands(grants[..|grants| - 1], closed, day, x);
    }
  }

  // A call is refused only if the hour up to now already holds as many grants as the hourly cap, or
  // what the grants of the 24 hours up to now stand for leaves less than its cost.
  lemma {:induction false} RefusedOnlyIfFull(c: Limits, start: int, ops: seq<Op>, now: int, cost: real)
    requires InOrder(start, ops + [Reserve(now, cost)]) && ProperRun(c, start, ops)
    requires !Grants(c, Run(c, start, ops).budget, now, cost)
    ensures var l := Run(c, start, ops);
            || (c.perHour > 0 && GrantedIn(l.grants, now - HOUR + 1) >= c.perHour)
            || (c.perDay > 0.0 && StandsIn(l.grants, l.closed, now - 24 * HOUR + 1) + cost > c.perDay)
  {
    hide InOrder, ProperRun, Run, Rolled, GrantedIn, StandsIn;
    InOrderFront(start, ops, now, cost);
    RunInOrder(c, start, ops, now);
    var l := Run(c, start, ops);
    if c.perHour > 0 && Rolled(l.budget, now).calls >= c.perHour {
      RateHolds(c, start, ops, 0);
      FullHour(c, l, now);
    } else {
      RunDaily(c, start, ops);
      Conservation(c, start, ops);
      FullDay(l, now);
    }
  }

  lemma InOrderFront(start: int, ops: seq<Op>, now: int, cost: real)
    requires InOrder(start, ops + [Reserve(now, cost)])
    ensures InOrder(start, ops) && start <= now && forall i | 0 <= i < |ops| && ops[i].Reserve? :: ops[i].now <= now
  {
    var ops' := ops + [Reserve(now, cost)];
    assert ops'[|ops|] == Reserve(now, cost) && forall i | 0 <= i < |ops| :: ops'[i] == ops[i];
  }

  lemma FullHour(c: Limits, l: Ledger, now: int)
    requires c.perHour > 0 && RateSoFar(c, l, 0) && Windowed(l) && NotAfter(l, now)
    ensures Rolled(l.budget, now).calls <= GrantedIn(l.grants, now - HOUR + 1)
  {
    RollKeepsRate(c, l, now, 0);
    WithinIsIn(l.grants, Rolled(l.budget, now).window, now - HOUR + 1);
  }

  lemma FullDay(l: Ledger, now: int)
    requires Conserved(l) && Daily(l) && NoDebts(l) && NotAfter(l, now)
    ensures Rolled(l.budget, now).spent <= StandsIn(l.grants, l.closed, now - 24 * HOUR + 1)
  {
    RollConserves(l, now);
    OwedStands(l.grants, l.closed, Rolled(l.budget, now).day, now - 24 * HOUR + 1);
  }

  // ----------------------------------------------------------------------------- late closes

  // Why the day matters: closing an open grant of an earlier day keeps the record exact only if
  // the actual cost was the estimate, or nothing is recorded and the call cost no more than that.
  lemma StaleClose(c: Limits, l: Ledger, i: nat, actual: real)
    requires Conserved(l) && l.budget.spent >= 0.0
    requires i < |l.grants| && i !in l.closed && l.grants[i].day != l.budget.day
    ensures var e := l.grants[i].estimated;
            Conserved(Apply(c, l, Close(i, actual))) <==>
            actual == e || (l.budget.spent == 0.0 && actual <= e)
  {
    OwedAfterClose(l.grants, l.closed, l.budget.day, i, actual);
  }

  // A call reserved yesterday and cancelled today takes a call of today off the record.
  lemma StaleCancelForgets()
    ensures var l := Run(Limits(10, 10.0), 0, [Reserve(0, 5.0), Reserve(DAY, 5.0), Close(0, 0.0)]);
            l.budget.spent == 0.0 && Owed(l.grants, l.closed, l.budget.day) == 5.0
  {
    var c := Limits(10, 10.0);
    var ops := [Reserve(0, 5.0), Reserve(DAY, 5.0), Close(0, 0.0)];
    assert ops[..2] == [Reserve(0, 5.0), Reserve(DAY, 5.0)] && ops[..2][..1] == [Reserve(0, 5.0)]
           && ops[..2][..1][..0] == [];
    var g0, g1 := Grant(0, 0, 0, 5.0), Grant(DAY, DAY, DAY, 5.0);
    assert Run(c, 0, []) == Ledger(Start(0), [], map[]);
    assert Run(c, 0, [Reserve(0, 5.0)]) == Ledger(State(0, 0, 1, 5.0), [g0], map[]);
    assert Run(c, 0, ops[..2]) == Ledger(State(DAY, DAY, 1, 5.0), [g0, g1], map[]);
    var l := Run(c, 0, ops);
    assert l == Ledger(State(DAY, DAY, 1, 0.0), [g0, g1], map[0 := 0.0]);
    assert [g0, g1][..1] == [g0] && [g0][..0] == [];
    assert Owed([g0], map[0 := 0.0], DAY) == 0.0;
  }
}
