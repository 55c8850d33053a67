/** The circuit breaker in front of each reputation provider, and how often it lets a failing
    provider be called. */
module Breaker {
  import opened Common

  // failures is the current run of failed calls; openUntil is when an open circuit admits again.
  datatype State = State(failures: nat, openUntil: Option<int>)

  const CLOSED: State := State(0, None)

  predicate Admits(s: State, now: int) {
    s.openUntil.None? || now >= s.openUntil.value
  }

  function AfterAllow(s: State, now: int): State {
    if s.openUntil.Some? && now >= s.openUntil.value then CLOSED else s
  }

  function AfterObserve(s: State, now: int, failed: bool, threshold: nat, cooldown: int): State {
    if !failed then CLOSED
    else if s.failures + 1 >= threshold then State(s.failures + 1, Some(now + cooldown))
    else State(s.failures + 1, s.openUntil)
  }

  class CircuitBreaker {
    var failures: nat
    var openUntil: Option<int>
    const threshold: nat
    const cooldown: int

    ghost predicate Valid()
      reads this
    {
      threshold >= 1 && cooldown > 0 && Consistent(Now(), threshold)
    }

    ghost function Now(): State
      reads this
    {
      State(failures, openUntil)
    }

    constructor (threshold: int, cooldown: int)
      ensures Valid() && Now() == CLOSED
      ensures this.threshold == if threshold < 1 then 3 else threshold
      ensures this.cooldown == if cooldown <= 0 then 30 * SECOND else cooldown
    {
      this.threshold := if threshold < 1 then 3 else threshold;
      this.cooldown := if cooldown <= 0 then 30 * SECOND else cooldown;
      failures := 0;
      openUntil := None;
    }

    method Allow(now: int) returns (ok: bool)
      requires Valid()
      modifies this
      ensures Valid() && Now() == AfterAllow(old(Now()), now)
      ensures ok == Admits(old(Now()), now)
    {
      if openUntil.None? || now >= openUntil.value {
        if openUntil.Some? {
          openUntil := None;
          failures := 0;
        }
        return true;
      }
      return false;
    }

    method Observe(now: int, failed: bool)
      requires Valid()
      modifies this
      ensures Valid() && Now() == AfterObserve(old(Now()), now, failed, threshold, cooldown)
    {
      if !failed {
        failures := 0;
        openUntil := None;
        return;
      }
      failures := failures + 1;
      if failures >= threshold {
        openUntil := Some(now + cooldown);
      }
    }

    // Reported as open until it admits again, and then as neither open nor reset.
    method Status(now: int) returns (f: nat, open: bool)
      ensures f == failures && open == !Admits(Now(), now)
    {
      return failures, openUntil.Some? && now < openUntil.value;
    }
  }

  // ------------------------------------------------------------------------------ every run

  datatype Event = Allow(t: int) | Observe(t: int, failed: bool)

  function Run(s: State, events: seq<Event>, threshold: nat, cooldown: int): State {
    if events == [] then s else
    var before := Run(s, events[..|events| - 1], threshold, cooldown);
    match events[|events| - 1]
    case Allow(t) => AfterAllow(before, t)
    case Observe(t, failed) => AfterObserve(before, t, failed, threshold, cooldown)
  }

  predicate Consistent(s: State, threshold: nat) {
    s.openUntil.Some? <==> s.failures >= threshold
  }

  // In every run, whatever order asking and observing come in, the circuit has an opening time
  // exactly while the failures stand at the threshold or above.
  lemma {:induction false} OpenIffThreshold(events: seq<Event>, threshold: nat, cooldown: int)
    requires threshold >= 1
    ensures Consistent(Run(CLOSED, events, threshold, cooldown), threshold)
  {
    if events != [] {
      OpenIffThreshold(events[..|events| - 1], threshold, cooldown);
    }
  }

  // The failures observed since the last success.
  function FailuresInARow(events: seq<Event>): nat {
    if events == [] then 0 else
    match events[|events| - 1]
    case Allow(_) => FailuresInARow(events[..|events| - 1])
    case Observe(_, failed) => if failed then FailuresInARow(events[..|events| - 1]) + 1 else 0
  }

  // A circuit counts failures in a row only, so it is never open with fewer of them than the threshold.
  lemma {:induction false} FewFailuresStayClosed(events: seq<Event>, threshold: nat, cooldown: int)
    requires threshold >= 1
    ensures var s := Run(CLOSED, events, threshold, cooldown);
            && s.failures <= FailuresInARow(events)
            && (FailuresInARow(events) < threshold ==> s.openUntil.None?)
            && (FailuresInARow(events) == 0 ==> s == CLOSED)
  {
    OpenIffThreshold(events, threshold, cooldown);
    if events != [] {
      FewFailuresStayClosed(events[..|events| - 1], threshold, cooldown);
    }
  }

  // While nothing is asked in between, every failure in a row counts; and those that fill the threshold
  // open the circuit until the cooldown after the last of them.
  lemma {:induction false} OpensWithThreshold(events: seq<Event>, threshold: nat, cooldown: int)
    requires threshold >= 1 && forall e <- events :: e.Observe?
    ensures var s := Run(CLOSED, events, threshold, cooldown);
            && s.failures == FailuresInARow(events)
            && (FailuresInARow(events) >= threshold ==> s.openUntil == Some(events[|events| - 1].t + cooldown))
  {
    if events != [] {
      assert events[|events| - 1] in events;
      OpensWithThreshold(events[..|events| - 1], threshold, cooldown);
    }
  }

  // Once the cooldown has passed, the call that is let through leaves no failure behind.
  lemma AdmittedAfresh(s: State, t: int, threshold: nat)
    requires Consistent(s, threshold)
    ensures s.openUntil.Some? && Admits(s, t) ==> AfterAllow(s, t) == State(0, None)
    ensures s.openUntil.None? || !Admits(s, t) ==> AfterAllow(s, t) == s
    ensures !Admits(s, t) <==> s.failures >= threshold && t < s.openUntil.value
  {
  }

  // ------------------------------------------------------- the rate of calls to a failing provider

  // A circuit and how many admitted calls have not yet been observed.
  datatype Busy = Busy(s: State, flying: nat)

  const IDLE: Busy := Busy(CLOSED, 0)

  function Next(b: Busy, e: Event, threshold: nat, cooldown: int): Busy {
    match e
    case Allow(t) => Busy(AfterAllow(b.s, t), if Admits(b.s, t) then b.flying + 1 else b.flying)
    case Observe(t, failed) =>
      Busy(AfterObserve(b.s, t, failed, threshold, cooldown), if b.flying > 0 then b.flying - 1 else 0)
  }

  // Time does not go back, every call that is observed was admitted and fails, and no more than so
  // many calls are in flight at once.
  predicate Failing(b: Busy, now: int, events: seq<Event>, most: nat, threshold: nat, cooldown: int)
    decreases events
  {
    b.flying <= most &&
    (events != [] ==>
       && events[0].t >= now
       && (events[0].Observe? ==> events[0].failed && b.flying > 0)
       && Failing(Next(b, events[0], threshold, cooldown), events[0].t, events[1..], most, threshold, cooldown))
  }

  function Counts(s: State, e: Event, x: int, length: nat): nat {
    if e.Allow? && Admits(s, e.t) && x <= e.t < x + length then 1 else 0
  }

  // How many calls are admitted at a time t with x <= t < x + length.
  function Admitted(s: State, events: seq<Event>, threshold: nat, cooldown: int, x: int, length: nat): nat
    decreases events
  {
    if events == [] then 0 else
    var e := events[0];
    Counts(s, e, x, length) +
    Admitted(Next(Busy(s, 0), e, threshold, cooldown).s, events[1..], threshold, cooldown, x, length)
  }

  function Times(k: int, y: int): int {
    k * y
  }

  // From time now on, with k openings behind it since x, a circuit admits nothing before
  // x + k * cooldown; and if it is open, not since a time to come.
  ghost predicate Waits(s: State, now: int, x: int, k: nat, cooldown: int) {
    && (s.openUntil.Some? ==> s.openUntil.value <= now + cooldown)
    && if now < x then k == 0
    else k == 0 || x + Times(k, cooldown) <= if s.openUntil.Some? then s.openUntil.value else now
  }

  // How many more calls a circuit can admit before it opens: each failure it still waits for, and
  // each further call that may be in flight meanwhile.
  function Batch(b: Busy, most: nat, threshold: nat): int {
    if b.s.openUntil.Some? then 0 else threshold - 1 - b.s.failures + most - b.flying
  }

  // What is left of the bound batch * (n + 1) after k whole batches, the next being under way unless
  // the circuit is open.
  function Left(batch: nat, n: nat, k: nat, open: bool, more: int): int {
    if k > n then 0 else Times(n - k, batch) + if open then batch else more
  }

  lemma NextTimes(k: int, y: int)
    ensures Times(0, y) == 0 && Times(k + 1, y) == Times(k, y) + y && (k >= 0 && y >= 0 ==> Times(k, y) >= 0)
  {
  }

  lemma PastEnd(k: nat, length: nat, cooldown: int)
    requires cooldown > 0 && k > length / cooldown
    ensures Times(k, cooldown) > length
  {
    var q := length / cooldown;
    assert length == q * cooldown + length % cooldown;
    assert k * cooldown >= (q + 1) * cooldown == q * cooldown + cooldown;
  }

  // The openings since x, after one more event.
  function Openings(k: nat, s: State, s': State, t: int, x: int): nat {
    if s.openUntil.None? && s'.openUntil.Some? && t >= x then k + 1 else k
  }

  // One event: what it admits comes off what is left.
  lemma RateStep(b: Busy, now: int, e: Event, most: nat, threshold: nat, cooldown: int, x: int, length: nat, k: nat)
    requires threshold >= 1 && cooldown > 0 && most >= 1 && b.flying <= most && e.t >= now
    requires Consistent(b.s, threshold) && Waits(b.s, now, x, k, cooldown)
    requires (e.Observe? ==> e.failed && b.flying > 0) && Next(b, e, threshold, cooldown).flying <= most
    ensures var b' := Next(b, e, threshold, cooldown);
            var k' := Openings(k, b.s, b'.s, e.t, x);
            var batch, n := threshold + most - 1, length / cooldown;
            && Consistent(b'.s, threshold) && Waits(b'.s, e.t, x, k', cooldown)
            && Counts(b.s, e, x, length)
               + Left(batch, n, k', b'.s.openUntil.Some? || e.t < x, Batch(b', most, threshold))
               <= Left(batch, n, k, b.s.openUntil.Some? || now < x, Batch(b, most, threshold))
  {
    hide Times;
    var n, batch := length / cooldown, threshold + most - 1;
    NextTimes(k, cooldown);
    NextTimes(n - (k + 1), batch);
    NextTimes(n - k, batch);
    if k > n {
      PastEnd(k, length, cooldown);
    }
  }

  lemma {:induction false} RateFrom(b: Busy, now: int, events: seq<Event>, most: nat, threshold: nat, cooldown: int,
                                    x: int, length: nat, k: nat)
    requires threshold >= 1 && cooldown > 0 && most >= 1
    requires Consistent(b.s, threshold) && Failing(b, now, events, most, threshold, cooldown)
    requires Waits(b.s, now, x, k, cooldown)
    ensures Admitted(b.s, events, threshold, cooldown, x, length)
            <= Left(threshold + most - 1, length / cooldown, k,
                    b.s.openUntil.Some? || now < x, Batch(b, most, threshold))
    decreases |events|
  {
    hide Consistent, Waits, Left, AfterAllow, AfterObserve, Admits, Counts, Openings;
    if events == [] {
      NothingLess(b, now, most, threshold, cooldown, x, length, k);
    } else {
      var e := events[0];
      var b' := Next(b, e, threshold, cooldown);
      RateStep(b, now, e, most, threshold, cooldown, x, length, k);
      RateFrom(b', e.t, events[1..], most, threshold, cooldown, x, length, Openings(k, b.s, b'.s, e.t, x));
    }
  }

  lemma NothingLess(b: Busy, now: int, most: nat, threshold: nat, cooldown: int, x: int, length: nat, k: nat)
    requires threshold >= 1 && cooldown > 0 && most >= 1 && b.flying <= most && Consistent(b.s, threshold)
    ensures 0 <= Left(threshold + most - 1, length / cooldown, k,
                      b.s.openUntil.Some? || now < x, Batch(b, most, threshold))
  {
    NextTimes(length / cooldown - k, threshold + most - 1);
  }

  // Of a provider that always fails, with at most so many calls in flight at once, at most
  // (threshold + most - 1) * (length / cooldown + 1) calls are admitted in any half-open interval of
  // that length, however long the run.
  lemma RateInFlight(events: seq<Event>, start: int, most: nat, threshold: nat, cooldown: int, x: int, length: nat)
    requires threshold >= 1 && cooldown > 0 && most >= 1 && Failing(IDLE, start, events, most, threshold, cooldown)
    ensures Admitted(CLOSED, events, threshold, cooldown, x, length)
            <= (threshold + most - 1) * (length / cooldown + 1)
  {
    RateFrom(IDLE, start, events, most, threshold, cooldown, x, length, 0);
  }

  // So if each admission is followed by its observation before the next, it is called at most
  // threshold * (length / cooldown + 1) times.
  lemma Rate(events: seq<Event>, start: int, threshold: nat, cooldown: int, x: int, length: nat)
    requires threshold >= 1 && cooldown > 0 && Failing(IDLE, start, events, 1, threshold, cooldown)
    ensures Admitted(CLOSED, events, threshold, cooldown, x, length) <= threshold * (length / cooldown + 1)
  {
    RateInFlight(events, start, 1, threshold, cooldown, x, length);
  }

  // ------------------------------------------------------------------- the rate is reached

  function Fails(t: int, n: nat, rest: seq<Event>): seq<Event> {
    if n == 0 then rest else [Observe(t, true)] + Fails(t, n - 1, rest)
  }

  function Asks(t: int, n: nat, rest: seq<Event>): seq<Event> {
    if n == 0 then rest else [Allow(t)] + Asks(t, n - 1, rest)
  }

  function Pairs(t: int, n: nat, rest: seq<Event>): seq<Event> {
    if n == 0 then rest else [Allow(t)] + ([Observe(t, true)] + Pairs(t, n - 1, rest))
  }

  // Each time the circuit admits again: one call after the other until one more failure would open
  // it, and then as many as may be in flight.
  function Busiest(t: int, rounds: nat, most: nat, threshold: nat, cooldown: int): seq<Event>
    requires threshold >= 1
    decreases rounds
  {
    if rounds == 0 then [] else
    Pairs(t, threshold - 1,
          Asks(t, most, Fails(t, most, Busiest(t + cooldown, rounds - 1, most, threshold, cooldown))))
  }

  lemma {:induction false} FailsRun(s: State, n: nat, t: int, rest: seq<Event>, most: nat, threshold: nat,
                                    cooldown: int, x: int, length: nat)
    requires n <= most && s.failures + 1 >= threshold && (n == 0 ==> s.openUntil == Some(t + cooldown))
    requires Failing(Busy(State(s.failures + n, Some(t + cooldown)), 0), t, rest, most, threshold, cooldown)
    ensures Failing(Busy(s, n), t, Fails(t, n, rest), most, threshold, cooldown)
    ensures Admitted(s, Fails(t, n, rest), threshold, cooldown, x, length)
            == Admitted(State(s.failures + n, Some(t + cooldown)), rest, threshold, cooldown, x, length)
    decreases n
  {
    if n > 0 {
      FailsRun(State(s.failures + 1, Some(t + cooldown)), n - 1, t, rest, most, threshold, cooldown, x, length);
      assert Fails(t, n, rest)[1..] == Fails(t, n - 1, rest);
    }
  }

  lemma {:induction false} AsksRun(s: State, flying: nat, n: nat, t: int, rest: seq<Event>, most: nat, threshold: nat,
                                   cooldown: int, x: int, length: nat)
    requires flying + n <= most && Admits(s, t) && x <= t < x + length
    requires var end := if n == 0 then s else AfterAllow(s, t);
             Failing(Busy(end, flying + n), t, rest, most, threshold, cooldown)
    ensures Failing(Busy(s, flying), t, Asks(t, n, rest), most, threshold, cooldown)
    ensures Admitted(s, Asks(t, n, rest), threshold, cooldown, x, length)
            == n + Admitted(if n == 0 then s else AfterAllow(s, t), rest, threshold, cooldown, x, length)
    decreases n
  {
    if n > 0 {
      AsksRun(AfterAllow(s, t), flying + 1, n - 1, t, rest, most, threshold, cooldown, x, length);
      assert Asks(t, n, rest)[1..] == Asks(t, n - 1, rest);
    }
  }

  lemma {:induction false} PairsRun(f: nat, n: nat, t: int, rest: seq<Event>, most: nat, threshold: nat, cooldown: int,
                                    x: int, length: nat)
    requires f + n < threshold && most >= 1 && x <= t < x + length
    requires Failing(Busy(State(f + n, None), 0), t, rest, most, threshold, cooldown)
    ensures Failing(Busy(State(f, None), 0), t, Pairs(t, n, rest), most, threshold, cooldown)
    ensures Admitted(State(f, None), Pairs(t, n, rest), threshold, cooldown, x, length)
            == n + Admitted(State(f + n, None), rest, threshold, cooldown, x, length)
    decreases n
  {
    if n > 0 {
      PairsRun(f + 1, n - 1, t, rest, most, threshold, cooldown, x, length);
      var more := [Observe(t, true)] + Pairs(t, n - 1, rest);
      assert Pairs(t, n, rest)[1..] == more && more[1..] == Pairs(t, n - 1, rest);
    }
  }

  // A circuit that admits again behaves as one never opened.
  lemma AsIfClosed(s: State, t: int, events: seq<Event>, most: nat, threshold: nat, cooldown: int, x: int, length: nat)
    requires Admits(s, t) && AfterAllow(s, t) == CLOSED && events != [] && events[0] == Allow(t)
    ensures Failing(Busy(s, 0), t, events, most, threshold, cooldown)
            == Failing(IDLE, t, events, most, threshold, cooldown)
    ensures Admitted(s, events, threshold, cooldown, x, length)
            == Admitted(CLOSED, events, threshold, cooldown, x, length)
  {
  }

  lemma {:induction false} BusiestRun(s: State, t: int, rounds: nat, most: nat, threshold: nat, cooldown: int,
                                      x: int, length: nat)
    requires threshold >= 1 && most >= 1 && cooldown > 0 && Admits(s, t) && AfterAllow(s, t) == CLOSED
    requires x <= t && (rounds > 0 ==> t + Times(rounds - 1, cooldown) < x + length)
    ensures var events := Busiest(t, rounds, most, threshold, cooldown);
            && Failing(Busy(s, 0), t, events, most, threshold, cooldown)
            && Admitted(s, events, threshold, cooldown, x, length) == Times(rounds, threshold + most - 1)
    decreases rounds
  {
    hide Times, Admitted;
    NextTimes(rounds - 1, threshold + most - 1);
    if rounds == 0 {
      assert Admitted(s, [], threshold, cooldown, x, length) == 0 by {
        NothingAdmitted(s, threshold, cooldown, x, length);
      }
    } else {
      NextTimes(rounds - 2, cooldown);
      NextTimes(rounds - 1, cooldown);
      if rounds == 1 {
        assert Times(0, cooldown) == 0;
      } else {
        assert Times(rounds - 2, cooldown) >= 0;
      }
      var f := threshold - 1;
      var open := State(f + most, Some(t + cooldown));
      var later := Busiest(t + cooldown, rounds - 1, most, threshold, cooldown);
      BusiestRun(open, t + cooldown, rounds - 1, most, threshold, cooldown, x, length);
      Sooner(Busy(open, 0), t, t + cooldown, later, most, threshold, cooldown);
      FailsRun(State(f, None), most, t, later, most, threshold, cooldown, x, length);
      AsksRun(State(f, None), 0, most, t, Fails(t, most, later), most, threshold, cooldown, x, length);
      var asks := Asks(t, most, Fails(t, most, later));
      PairsRun(0, f, t, asks, most, threshold, cooldown, x, length);
      AsIfClosed(s, t, Pairs(t, f, asks), most, threshold, cooldown, x, length);
    }
  }

  lemma NothingAdmitted(s: State, threshold: nat, cooldown: int, x: int, length: nat)
    ensures Admitted(s, [], threshold, cooldown, x, length) == 0
  {
  }

  lemma Sooner(b: Busy, now: int, later: int, events: seq<Event>, most: nat, threshold: nat, cooldown: int)
    requires now <= later && Failing(b, later, events, most, threshold, cooldown)
    ensures Failing(b, now, events, most, threshold, cooldown)
  {
  }

  // For every threshold, number of calls in flight and number of cooldowns, some run admits as many
  // calls as that: no smaller bound holds.
  lemma RateReached(n: nat, most: nat, threshold: nat, cooldown: int, x: int)
    requires threshold >= 1 && most >= 1 && cooldown >= 2
    ensures n * cooldown + 1 >= 0 && (n * cooldown + 1) / cooldown == n
    ensures var events := Busiest(x, n + 1, most, threshold, cooldown);
            && Failing(IDLE, x, events, most, threshold, cooldown)
            && Admitted(CLOSED, events, threshold, cooldown, x, n * cooldown + 1) == (threshold + most - 1) * (n + 1)
  {
    WholeCooldowns(n, cooldown);
    BusiestRun(CLOSED, x, n + 1, most, threshold, cooldown, x, n * cooldown + 1);
  }

  lemma WholeCooldowns(n: nat, cooldown: int)
    requires cooldown >= 2
    ensures n * cooldown >= 0 && (n * cooldown + 1) / cooldown == n
  {
    var q := (n * cooldown + 1) / cooldown;
    var r := (n * cooldown + 1) % cooldown;
    assert n * cooldown + 1 == q * cooldown + r;
    assert (n - q) * cooldown == r - 1;
    Multiple(n - q, cooldown);
  }

  lemma Multiple(d: int, y: int)
    requires y > 0
    ensures (d >= 1 ==> d * y >= y) && (d <= -1 ==> d * y <= -y)
  {
    if d >= 1 {
      assert d * y == (d - 1) * y + y;
    } else if d <= -1 {
      assert d * y == (d + 1) * y - y;
    }
  }

  // Observing between admissions is what the rate rests on: asked again before any observation, a
  // closed circuit admits any number of calls at once.
  lemma {:induction false} UnobservedUnbounded(n: nat, t: int, threshold: nat, cooldown: int)
    ensures var asks := seq(n, _ => Allow(t));
            Run(CLOSED, asks, threshold, cooldown) == CLOSED && Admits(Run(CLOSED, asks, threshold, cooldown), t)
  {
    if n > 0 {
      UnobservedUnbounded(n - 1, t, threshold, cooldown);
      assert seq(n, _ => Allow(t))[..n - 1] == seq(n - 1, _ => Allow(t));
    }
  }
}
