/** Asking the language model providers in turn, within the budget, with answers remembered. */
module LlmService {
  import opened Common
  import opened LlmBudget

  // A configured provider, and whether it can read images.
  datatype Provider = Provider(name: string, vision: bool)

  // What a call to a provider came to: an error, and whether the caller's context had ended by
  // then; or a reply, and whether its text is a valid explanation.
  datatype Outcome = Failed(contextDone: bool)
                   | Replied(text: string, valid: bool, inputTokens: int, outputTokens: int)

  datatype Explanation = Explanation(text: string, provider: string, cached: bool)

  datatype Answer = Answered(e: Explanation) | RenderFailed | OverBudget | ProviderFailed | NoProvider

  datatype Transcript = Transcribed(text: string) | VisionOverBudget | NoneSucceeded

  // What a reply costs: by its own token counts, or by those reserved where it reports none.
  function ResponseCost(o: Outcome, inputTokens: int, outputTokens: int, p: Price): (c: real)
    requires o.Replied?
    ensures NotNegative(p) ==> c >= 0.0
  {
    Cost(if o.inputTokens > 0 then o.inputTokens else inputTokens,
         if o.outputTokens > 0 then o.outputTokens else outputTokens, p)
  }

  // A thousand tokens reported, in or out, are charged whatever was reserved; where none are reported
  // those reserved are.
  lemma ResponseCharged(o: Outcome, i: nat, k: nat, p: Price)
    requires o.Replied?
    ensures o.inputTokens == 1000 && o.outputTokens == 1000 ==> ResponseCost(o, i, k, p) == p.input + p.output
    ensures o.inputTokens == 1000 && o.outputTokens <= 0 ==>
              ResponseCost(o, i, 1000 * k, p) == p.input + k as real * p.output
    ensures o.inputTokens <= 0 && o.outputTokens == 1000 ==>
              ResponseCost(o, 1000 * i, k, p) == i as real * p.input + p.output
    ensures o.inputTokens <= 0 && o.outputTokens <= 0 ==>
              ResponseCost(o, 1000 * i, 1000 * k, p) == i as real * p.input + k as real * p.output
  {
    hide Cost;
    CostPerThousand(1, 1, p);
    CostPerThousand(1, k, p);
    CostPerThousand(i, 1, p);
    CostPerThousand(i, k, p);
  }

  // ------------------------------------------------------------------------ remembered answers

  datatype Entry = Entry(value: Explanation, expires: int)

  class Cache {
    const ttl: int
    const max: nat
    var items: map<string, Entry>
    ghost var latest: map<string, Entry>

    // Never more than max entries, each the one last stored under its key.
    ghost predicate Valid()
      reads this
    {
      |items| <= max && max >= 1 && forall k <- items :: k in latest && items[k] == latest[k]
    }

    constructor (ttl: int, max: nat)
      requires max >= 1
      ensures Valid() && latest == map[] && this.ttl == ttl && this.max == max
    {
      this.ttl, this.max, items, latest := ttl, max, map[], map[];
    }

    method Get(k: string, now: int) returns (r: Option<Explanation>)
      requires Valid()
      modifies this`items
      ensures Valid()
      ensures r.Some? <==> k in old(items) && now <= old(items[k]).expires
      ensures r.Some? ==> k in latest && r.value == latest[k].value && now <= latest[k].expires && items == old(items)
      ensures items.Keys == old(items).Keys - if r.Some? then {} else {k}
    {
      if k !in items || now > items[k].expires {
        items := items - {k};
        return None;
      }
      return Some(items[k].value);
    }

    method Set(k: string, v: Explanation, now: int)
      requires Valid()
      modifies this
      ensures Valid() && latest == old(latest)[k := Entry(v, now + ttl)]
      ensures k in items && items.Keys <= old(items).Keys + {k}
      ensures |old(items)| < max ==> items == old(items)[k := Entry(v, now + ttl)]
      ensures |old(items)| >= max ==>
                exists victim :: victim in old(items) && items == (old(items) - {victim})[k := Entry(v, now + ttl)]
    {
      if |items| >= max {
        var victim :| victim in items;
        Without(items, victim);
        items := items - {victim};
      }
      With(items, k, Entry(v, now + ttl));
      items := items[k := Entry(v, now + ttl)];
      latest := latest[k := Entry(v, now + ttl)];
    }
  }

  // One key is added to the remembered ones, of which none is lost below the limit.
  predicate Adds(before: map<string, Entry>, after: map<string, Entry>, key: string, max: nat) {
    && key in after && after.Keys <= before.Keys + {key}
    && (|before| < max ==> after.Keys == before.Keys + {key})
  }

  lemma AddsAfterDrop(before: map<string, Entry>, mid: map<string, Entry>, after: map<string, Entry>,
                      key: string, max: nat)
    requires mid.Keys == before.Keys - {key} && Adds(mid, after, key, max)
    ensures Adds(before, after, key, max)
  {
    KeysAtMost(mid, before);
    assert mid.Keys + {key} == before.Keys + {key};
  }

  lemma KeysAtMost(m: map<string, Entry>, n: map<string, Entry>)
    requires m.Keys <= n.Keys
    ensures |m| <= |n|
  {
    assert |m.Keys| == |m| && |n.Keys| == |n|;
    var rest := n.Keys - m.Keys;
    assert n.Keys == m.Keys + rest;
  }

  lemma Without<K, V>(m: map<K, V>, k: K)
    requires k in m
    ensures |m - {k}| == |m| - 1
  {
  }

  lemma With<K, V>(m: map<K, V>, k: K, v: V)
    ensures |m[k := v]| <= |m| + 1
  {
  }

  // ------------------------------------------------------------------------------ accountability

  // Why the next provider is asked: the call failed before the caller's context ended, or the reply
  // was not valid.
  predicate PassedOver(o: Outcome) {
    if o.Failed? then !o.contextDone else !o.valid
  }

  // After asking the first n providers in vain there is no reason to go on: all have been asked, or
  // the caller's context ended with the last call.
  predicate GaveUp(outcomes: seq<Outcome>, n: nat) {
    && 1 <= n <= |outcomes| && (forall i | 0 <= i < n - 1 :: PassedOver(outcomes[i]))
    && if outcomes[n - 1].Failed? && outcomes[n - 1].contextDone then true
       else n == |outcomes| && PassedOver(outcomes[n - 1])
  }

  // The reservations in a trace, one after the other: granted at these estimates, and then perhaps one
  // more refused.
  ghost predicate Opened(trace: seq<Event>, estimates: seq<real>, denied: bool) {
    && |trace| == 2 * |estimates| + (if denied then 1 else 0)
    && (forall i | 0 <= i < |estimates| :: trace[2 * i] == Granted(estimates[i]))
    && (denied ==> trace[2 * |estimates|] == Denied)
  }

  lemma OpenedNext(trace: seq<Event>, estimates: seq<real>, cost: real, close: Event)
    requires Opened(trace, estimates, false)
    ensures Opened(trace + [Granted(cost), close], estimates + [cost], false)
  {
  }

  lemma OpenedDenied(trace: seq<Event>, estimates: seq<real>)
    requires Opened(trace, estimates, false)
    ensures Opened(trace + [Denied], estimates, true)
  {
  }

  predicate IsClose(e: Event, estimated: real) {
    (e.Cancelled? || e.Settled?) && e.estimated == estimated
  }

  // Every grant is closed, right after it was made and by its own estimate; nothing is closed that
  // was not granted just before; and only the last grant can be settled.
  ghost predicate ClosedOnce(trace: seq<Event>) {
    && (forall i | 0 <= i < |trace| && trace[i].Granted? ::
          i + 1 < |trace| && IsClose(trace[i + 1], trace[i].estimated))
    && (forall i | 0 <= i < |trace| && (trace[i].Cancelled? || trace[i].Settled?) ::
          i > 0 && trace[i - 1].Granted? && IsClose(trace[i], trace[i - 1].estimated))
    && (forall i | 0 <= i < |trace| && trace[i].Settled? :: i == |trace| - 1)
  }

  lemma ExtendTrace(trace: seq<Event>, cost: real, close: Event)
    requires ClosedOnce(trace) && NoneSettled(trace) && IsClose(close, cost)
    ensures ClosedOnce(trace + [Granted(cost), close])
    ensures close.Cancelled? ==> NoneSettled(trace + [Granted(cost), close])
    ensures close.Settled? ==> SettledAt(trace + [Granted(cost), close], close.actual)
  {
  }

  lemma DenyTrace(trace: seq<Event>)
    requires ClosedOnce(trace) && NoneSettled(trace)
    ensures ClosedOnce(trace + [Denied]) && NoneSettled(trace + [Denied])
  {
  }

  lemma EmptyTrace()
    ensures ClosedOnce([]) && NoneSettled([])
  {
  }

  // From state s0 to s the day's spending grew by paid, where a new day starts from nothing.
  ghost predicate Spent(s0: State, s: State, paid: real) {
    s.spent >= 0.0 && s.day >= s0.day && s.spent == (if s.day == s0.day then s0.spent else 0.0) + paid
  }

  lemma SpentNothing(s: State)
    requires s.spent >= 0.0
    ensures Spent(s, s, 0.0)
  {
  }

  lemma SpentKeepsSign(s0: State, s: State)
    ensures forall paid :: Spent(s0, s, paid) ==> s.spent >= 0.0
  {
  }

  lemma ReserveSpends(c: Limits, s0: State, s: State, now: int, cost: real)
    requires Spent(s0, s, 0.0) && cost >= 0.0
    ensures var t := AfterReserve(c, s, now, cost);
            if Grants(c, s, now, cost)
            then forall actual | actual >= 0.0 :: Spent(s0, AfterClose(t, cost, actual), actual)
            else Spent(s0, t, 0.0)
  {
  }

  ghost predicate NoneSettled(trace: seq<Event>) {
    forall e <- trace :: !e.Settled?
  }

  ghost predicate SettledAt(trace: seq<Event>, actual: real) {
    trace != [] && trace[|trace| - 1].Settled? && trace[|trace| - 1].actual == actual
  }

  class Service {
    const providers: seq<Provider>
    const prices: map<string, Price>
    const budget: Budget
    const cache: Cache
    const clock: Clock

    ghost predicate Valid()
      reads budget, cache
    {
      && (forall n <- prices :: NotNegative(prices[n]))
      && budget.Now().spent >= 0.0
      && cache.Valid()
    }

    // A provider without a price is free of charge.
    function PriceOf(name: string): (p: Price)
      ensures (forall n <- prices :: NotNegative(prices[n])) ==> NotNegative(p)
      ensures if name in prices then p == prices[name] else p.input == 0.0 == p.output
    {
      if name in prices then prices[name] else Price(0.0, 0.0)
    }

    constructor (providers: seq<Provider>, prices: map<string, Price>, budget: Budget, cache: Cache, clock: Clock)
      requires (forall n <- prices :: NotNegative(prices[n])) && budget.spentUSD >= 0.0 && cache.Valid()
      ensures Valid() && this.providers == providers && this.prices == prices
      ensures this.budget == budget && this.cache == cache && this.clock == clock
    {
      this.providers, this.prices, this.budget, this.cache, this.clock := providers, prices, budget, cache, clock;
    }

    // Reserves for one call, makes it, and closes the reservation: settled at the reply's cost if the
    // reply is accepted, cancelled otherwise.
    method CallOnce(price: Price, inputTokens: int, maxTokens: int, o: Outcome, accepted: bool,
                    ghost s0: State, ghost log0: seq<Event>, ghost before: seq<Event>, ghost estimates: seq<real>)
      returns (granted: bool, ghost trace: seq<Event>)
      requires NotNegative(price) && (accepted ==> o.Replied?)
      requires budget.log == log0 + before && ClosedOnce(before) && NoneSettled(before)
      requires Opened(before, estimates, false)
      requires Spent(s0, budget.Now(), 0.0)
      modifies budget, clock
      ensures budget.log == log0 + trace && ClosedOnce(trace) && clock.now >= old(clock.now)
      ensures granted && accepted ==>
                var cost := ResponseCost(o, inputTokens, maxTokens, price);
                SettledAt(trace, cost) && Spent(s0, budget.Now(), cost)
      ensures !(granted && accepted) ==> NoneSettled(trace) && Spent(s0, budget.Now(), 0.0)
      ensures if granted then Opened(trace, estimates + [Cost(inputTokens, maxTokens, price)], false)
              else Opened(trace, estimates, true)
    {
      hide Cost, ResponseCost, ClosedOnce, AfterReserve, AfterClose, Grants, Spent, Opened;
      var now := clock.Now();
      ghost var cost := Cost(inputTokens, maxTokens, price);
      ReserveSpends(budget.Limit(), s0, budget.Now(), now, cost);
      var reserved := budget.EstimateAndReserve(now, inputTokens, maxTokens, price);
      if !reserved.ok {
        DenyTrace(before);
        OpenedDenied(before, estimates);
        return false, before + [Denied];
      }
      if accepted {
        var actual := ResponseCost(o, reserved.inputTokens, reserved.outputTokens, price);
        budget.Settle(reserved, actual);
        ExtendTrace(before, cost, Settled(cost, actual));
        OpenedNext(before, estimates, cost, Settled(cost, actual));
        return true, before + [Granted(cost), Settled(cost, actual)];
      }
      budget.Cancel(reserved);
      ExtendTrace(before, cost, Cancelled(cost));
      OpenedNext(before, estimates, cost, Cancelled(cost));
      return true, before + [Granted(cost), Cancelled(cost)];
    }

    // What is reserved for asking the first n providers, or those of them that are able to see.
    ghost function Estimates(n: nat, visual: bool, inputTokens: int, maxTokens: int): seq<real>
      requires n <= |providers|
    {
      if n == 0 then [] else
      Estimates(n - 1, visual, inputTokens, maxTokens) +
      if visual && !providers[n - 1].vision then []
      else [Cost(inputTokens, maxTokens, PriceOf(providers[n - 1].name))]
    }

    // What the reply of one provider costs.
    ghost function CostOf(who: nat, inputTokens: int, maxTokens: int, outcomes: seq<Outcome>): real
      requires who < |providers| == |outcomes|
    {
      if outcomes[who].Replied?
      then ResponseCost(outcomes[who], inputTokens, maxTokens, PriceOf(providers[who].name)) else 0.0
    }

    // The explanation is that of the first provider with a valid reply, settled at what it costs.
    ghost predicate AnsweredBy(who: nat, e: Explanation, trace: seq<Event>, inputTokens: int, maxTokens: int,
                               outcomes: seq<Outcome>)
      requires |outcomes| == |providers|
    {
      && who < |providers| && outcomes[who].Replied? && outcomes[who].valid
      && (forall i | 0 <= i < who :: PassedOver(outcomes[i]))
      && Opened(trace, Estimates(who + 1, false, inputTokens, maxTokens), false)
      && e == Explanation(outcomes[who].text, providers[who].name, false)
      && SettledAt(trace, CostOf(who, inputTokens, maxTokens, outcomes))
    }

    // Why no provider answered: there was none; the first few were passed over and the budget refused
    // the next; or asking was given up after some.
    ghost predicate Unanswered(answer: Answer, who: nat, trace: seq<Event>, inputTokens: int, maxTokens: int,
                               outcomes: seq<Outcome>)
      requires |outcomes| == |providers|
    {
      && NoneSettled(trace) && who <= |providers|
      && match answer
         case NoProvider => providers == [] && trace == []
         case OverBudget =>
           && who < |providers| && (forall i | 0 <= i < who :: PassedOver(outcomes[i]))
           && Opened(trace, Estimates(who, false, inputTokens, maxTokens), true)
         case ProviderFailed =>
           GaveUp(outcomes, who) && Opened(trace, Estimates(who, false, inputTokens, maxTokens), false)
         case _ => false
    }

    // Asks the providers in turn until one reply is valid.
    method AskInTurn(inputTokens: int, maxTokens: int, outcomes: seq<Outcome>)
      returns (answer: Answer, ghost trace: seq<Event>, ghost who: nat)
      requires Valid() && |outcomes| == |providers|
      modifies budget, clock
      ensures Valid() && clock.now >= old(clock.now)
      ensures budget.log == old(budget.log) + trace && ClosedOnce(trace)
      ensures if answer.Answered? then AnsweredBy(who, answer.e, trace, inputTokens, maxTokens, outcomes)
              else Unanswered(answer, who, trace, inputTokens, maxTokens, outcomes)
      ensures Spent(old(budget.Now()), budget.Now(),
                    if answer.Answered?
                    then CostOf(who, inputTokens, maxTokens, outcomes) else 0.0)
    {
      hide Cost, ResponseCost, ClosedOnce, AfterReserve, AfterClose, Grants, Spent;
      ghost var s0, log0 := budget.Now(), budget.log;
      EmptyTrace();
      SpentNothing(s0);
      trace, who := [], 0;
      answer := NoProvider;
      for i := 0 to |providers|
        invariant Valid() && clock.now >= old(clock.now)
        invariant budget.log == log0 + trace && ClosedOnce(trace) && NoneSettled(trace)
        invariant Opened(trace, Estimates(i, false, inputTokens, maxTokens), false)
        invariant forall j | 0 <= j < i :: PassedOver(outcomes[j])
        invariant answer == (if i == 0 then NoProvider else ProviderFailed) && who == i
        invariant Spent(s0, budget.Now(), 0.0)
      {
        var accepted := outcomes[i].Replied? && outcomes[i].valid;
        var granted;
        granted, trace := CallOnce(PriceOf(providers[i].name), inputTokens, maxTokens, outcomes[i], accepted,
                                   s0, log0, trace, Estimates(i, false, inputTokens, maxTokens));
        SpentKeepsSign(s0, budget.Now());
        if !granted {
          return OverBudget, trace, i;
        }
        if accepted {
          return Answered(Explanation(outcomes[i].text, providers[i].name, false)), trace, i;
        }
        answer, who := ProviderFailed, i + 1;
        if outcomes[i].Failed? && outcomes[i].contextDone {
          return;
        }
      }
    }

    // Explains a message: from memory if it holds an answer that has not expired when it is looked up;
    // otherwise, if the prompt can be rendered, by the first provider whose reply is valid, which is
    // then remembered. Whatever the providers do, every reservation is closed, and the day's spending
    // grows by what the answering provider's reply cost, or by nothing.
    method Explain(key: string, rendered: bool, inputTokens: int, maxTokens: int, outcomes: seq<Outcome>)
      returns (answer: Answer, ghost trace: seq<Event>, ghost who: nat, ghost looked: int)
      requires Valid() && |outcomes| == |providers|
      modifies budget, cache, clock
      ensures Valid() && old(clock.now) <= looked <= clock.now
      ensures budget.log == old(budget.log) + trace && ClosedOnce(trace)
      ensures if key in old(cache.items) && looked <= old(cache.items)[key].expires then
                && answer == Answered(old(cache.items)[key].value.(cached := true)) && trace == []
                && old(cache.items)[key] == old(cache.latest)[key]
              else if !rendered then answer == RenderFailed && trace == []
              else if answer.Answered? then
                && AnsweredBy(who, answer.e, trace, inputTokens, maxTokens, outcomes)
                && cache.latest == old(cache.latest)[key := Entry(answer.e, clock.now + cache.ttl)]
                && Adds(old(cache.items), cache.items, key, cache.max)
              else Unanswered(answer, who, trace, inputTokens, maxTokens, outcomes)
      ensures var asked := answer.Answered? && !answer.e.cached;
              && Spent(old(budget.Now()), budget.Now(),
                       if asked then CostOf(who, inputTokens, maxTokens, outcomes) else 0.0)
              && (!asked ==> NoneSettled(trace) && cache.latest == old(cache.latest))
    {
      hide CostOf, ClosedOnce, Spent, AnsweredBy, Unanswered, NoneSettled, NotNegative, Adds;
      EmptyTrace();
      SpentNothing(budget.Now());
      var now := clock.Now();
      var hit := cache.Get(key, now);
      if hit.Some? {
        return Answered(hit.value.(cached := true)), [], 0, now;
      }
      if !rendered {
        return RenderFailed, [], 0, now;
      }
      looked := now;
      ghost var items := cache.items;
      answer, trace, who := AskAndRemember(key, inputTokens, maxTokens, outcomes);
      if answer.Answered? {
        AddsAfterDrop(old(cache.items), items, cache.items, key, cache.max);
      }
    }

    // Asks the providers in turn, and remembers the answer.
    method AskAndRemember(key: string, inputTokens: int, maxTokens: int, outcomes: seq<Outcome>)
      returns (answer: Answer, ghost trace: seq<Event>, ghost who: nat)
      requires Valid() && |outcomes| == |providers|
      modifies budget, cache, clock
      ensures Valid() && clock.now >= old(clock.now)
      ensures budget.log == old(budget.log) + trace && ClosedOnce(trace)
      ensures if answer.Answered? then
                && AnsweredBy(who, answer.e, trace, inputTokens, maxTokens, outcomes) && !answer.e.cached
                && cache.latest == old(cache.latest)[key := Entry(answer.e, clock.now + cache.ttl)]
                && Adds(old(cache.items), cache.items, key, cache.max)
              else
                && Unanswered(answer, who, trace, inputTokens, maxTokens, outcomes) && NoneSettled(trace)
                && cache.latest == old(cache.latest)
      ensures Spent(old(budget.Now()), budget.Now(),
                    if answer.Answered? then CostOf(who, inputTokens, maxTokens, outcomes) else 0.0)
    {
      hide CostOf, ClosedOnce, Spent, AnsweredBy, Unanswered, NoneSettled, NotNegative;
      answer, trace, who := AskInTurn(inputTokens, maxTokens, outcomes);
      if answer.Answered? {
        AnswerIsNew(who, answer.e, trace, inputTokens, maxTokens, outcomes);
        var now := clock.Now();
        cache.Set(key, answer.e, now);
      } else {
        NothingSettled(answer, who, trace, inputTokens, maxTokens, outcomes);
      }
    }

    lemma AnswerIsNew(who: nat, e: Explanation, trace: seq<Event>, inputTokens: int, maxTokens: int,
                      outcomes: seq<Outcome>)
      requires |outcomes| == |providers| && AnsweredBy(who, e, trace, inputTokens, maxTokens, outcomes)
      ensures !e.cached
    {
    }

    lemma NothingSettled(answer: Answer, who: nat, trace: seq<Event>, inputTokens: int, maxTokens: int,
                         outcomes: seq<Outcome>)
      requires |outcomes| == |providers| && Unanswered(answer, who, trace, inputTokens, maxTokens, outcomes)
      ensures NoneSettled(trace)
    {
    }

    // Transcribes an image by the first provider able to see that returns any text. Those not able to
    // see are not asked.
    method Vision(inputTokens: int, outcomes: seq<Outcome>)
      returns (answer: Transcript, ghost trace: seq<Event>, ghost who: nat)
      requires Valid() && |outcomes| == |providers|
      modifies budget, clock
      ensures Valid() && who <= |providers|
      ensures budget.log == old(budget.log) + trace && ClosedOnce(trace)
      ensures forall i | 0 <= i < who :: !Transcribes(i, outcomes)
      ensures match answer
              case Transcribed(text) =>
                && who < |providers| && Transcribes(who, outcomes) && text == outcomes[who].text
                && Opened(trace, Estimates(who + 1, true, inputTokens, 1200), false)
                && SettledAt(trace, CostOf(who, inputTokens, 1200, outcomes))
              case VisionOverBudget =>
                && who < |providers| && providers[who].vision
                && Opened(trace, Estimates(who, true, inputTokens, 1200), true)
              case NoneSucceeded =>
                who == |providers| && Opened(trace, Estimates(who, true, inputTokens, 1200), false)
      ensures !answer.Transcribed? ==> NoneSettled(trace)
      ensures Spent(old(budget.Now()), budget.Now(),
                    if answer.Transcribed? then CostOf(who, inputTokens, 1200, outcomes) else 0.0)
    {
      hide Cost, ResponseCost, ClosedOnce, AfterReserve, AfterClose, Grants, Spent, TrimSpace;
      ghost var s0, log0 := budget.Now(), budget.log;
      EmptyTrace();
      SpentNothing(s0);
      trace, who := [], 0;
      for i := 0 to |providers|
        invariant Valid()
        invariant budget.log == log0 + trace && ClosedOnce(trace) && NoneSettled(trace)
        invariant Opened(trace, Estimates(i, true, inputTokens, 1200), false)
        invariant forall j | 0 <= j < i :: !Transcribes(j, outcomes)
        invariant Spent(s0, budget.Now(), 0.0)
      {
        if providers[i].vision {
          var accepted := outcomes[i].Replied? && TrimSpace(outcomes[i].text) != "";
          var granted;
          granted, trace := CallOnce(PriceOf(providers[i].name), inputTokens, 1200, outcomes[i], accepted,
                                     s0, log0, trace, Estimates(i, true, inputTokens, 1200));
          SpentKeepsSign(s0, budget.Now());
          if !granted {
            return VisionOverBudget, trace, i;
          }
          if accepted {
            return Transcribed(outcomes[i].text), trace, i;
          }
        }
      }
      return NoneSucceeded, trace, |providers|;
    }

    ghost predicate Transcribes(i: nat, outcomes: seq<Outcome>)
      requires i < |providers| == |outcomes|
    {
      providers[i].vision && outcomes[i].Replied? && TrimSpace(outcomes[i].text) != ""
    }
  }

  // ----------------------------------------------------------------- what a trace adds up to

  function Count(trace: seq<Event>, kind: Event -> bool): nat {
    if trace == [] then 0
    else Count(trace[..|trace| - 1], kind) + if kind(trace[|trace| - 1]) then 1 else 0
  }

  // In a trace of this kind grants and closes are equally many, and at most one close settles.
  lemma {:induction false} AsManyClosedAsGranted(trace: seq<Event>)
    requires ClosedOnce(trace)
    ensures Count(trace, (e: Event) => e.Granted?) == Count(trace, (e: Event) => e.Cancelled? || e.Settled?)
    ensures Count(trace, (e: Event) => e.Settled?) <= 1
  {
    NoSettledBefore(trace);
    PairsCancel(trace, |trace|);
    assert trace[..|trace|] == trace;
  }

  lemma {:induction false} NoSettledBefore(trace: seq<Event>)
    requires forall i | 0 <= i < |trace| && trace[i].Settled? :: i == |trace| - 1
    ensures Count(trace, (e: Event) => e.Settled?) <= 1
  {
    if trace != [] {
      var front := trace[..|trace| - 1];
      NoneCounted(front);
    }
  }

  lemma {:induction false} NoneCounted(trace: seq<Event>)
    requires forall e <- trace :: !e.Settled?
    ensures Count(trace, (e: Event) => e.Settled?) == 0
  {
    if trace != [] {
      NoneCounted(trace[..|trace| - 1]);
    }
  }

  lemma {:induction false} PairsCancel(trace: seq<Event>, n: nat)
    requires ClosedOnce(trace) && n <= |trace|
    ensures Count(trace[..n], (e: Event) => e.Granted?) ==
            Count(trace[..n], (e: Event) => e.Cancelled? || e.Settled?) +
            if n > 0 && trace[n - 1].Granted? then 1 else 0
  {
    if n > 0 {
      PairsCancel(trace, n - 1);
      assert trace[..n][..n - 1] == trace[..n - 1];
    }
  }
}
