/** Whole runs of the reputation client, restarts included: every answer goes back to what providers
    said in some call for the same address or domain, not too long ago. */
module ReputationRuns {
  import opened Common
  import opened ReputationCache
  import opened Reputation
  import B = Breaker

  // What is asked of a client, what providers say in case they are asked, and whether the database
  // answers.
  datatype Call =
    | IsDomainListed(domain: string, outcomes: map<string, Reply>, db: Database)
    | IsIPListed(ip: string, address: Address, lookups: seq<Lookup>, abuse: Reply, db: Database)
    | HowOld(domain: string, outcome: Option<int>, db: Database)
    | Block(domain: string)
  {
    function Key(): string {
      match this
      case IsDomainListed(domain, _, _) => "domain-listed:" + domain
      case IsIPListed(ip, _, _, _, _) => "dnsbl:" + ip
      case HowOld(domain, _, _) => "rdap:" + domain
      case Block(_) => ""
    }
  }

  datatype Response = Listing(answer: Answer) | AgeIs(age: Option<int>) | Done

  // A call from start to end, on the client of some session: what it heard from providers, and what
  // had been found and how the breakers stood before and after it.
  datatype Step = Step(session: nat, cfg: Config, local: set<string>, call: Call, reports: seq<Report>,
                       response: Response, start: int, now: int, before: set<Entry>, after: set<Entry>,
                       circuits: map<string, B.State>, circuits': map<string, B.State>)

  // What a client can be asked for: an outcome for each feed and each zone it may have to ask.
  predicate Fits(c: Config, call: Call) {
    match call
    case IsDomainListed(_, outcomes, _) => HasFeeds(outcomes)
    case IsIPListed(_, _, lookups, abuse, _) => |lookups| == |c.zones| && !abuse.CircuitOpen?
    case _ => true
  }

  // ------------------------------------------------------------- what providers say in one call

  predicate SaysListed(c: Config, call: Call, provider: string) {
    match call
    case IsDomainListed(_, outcomes, _) =>
      && ((provider == "urlhaus" && c.urlhaus) || (provider == "openphish" && c.openPhish)
          || (provider == "safebrowsing" && c.safeBrowsing))
      && provider in outcomes && outcomes[provider] == Said(true)
    case IsIPListed(_, _, lookups, abuse, _) =>
      || (exists i | 0 <= i < |lookups| && i < |c.zones| :: c.zones[i] == provider && SomeAddressLists(lookups[i]))
      || (c.abuseIPDB && provider == "abuseipdb" && abuse == Said(true))
    case _ => false
  }

  predicate AllSayUnlisted(c: Config, call: Call) {
    match call
    case IsDomainListed(_, outcomes, _) =>
      && (c.urlhaus ==> "urlhaus" in outcomes && outcomes["urlhaus"] == Said(false))
      && (c.openPhish ==> "openphish" in outcomes && outcomes["openphish"] == Said(false))
      && (c.safeBrowsing ==> "safebrowsing" in outcomes && outcomes["safebrowsing"] == Said(false))
    case IsIPListed(_, _, lookups, abuse, _) =>
      && (forall i | 0 <= i < |lookups| :: NoAddressLists(lookups[i]))
      && (c.abuseIPDB ==> abuse == Said(false))
    case _ => false
  }

  // The reports of providers that all clear what is asked about, none failing or being kept from by
  // an open circuit.
  function Cleared(providers: seq<string>): seq<Report> {
    seq(|providers|, i requires 0 <= i < |providers| => Report(providers[i], Said(false)))
  }

  // What is heard from providers in a call amounts to this value, and is what they say: some enabled
  // provider lists what is asked about, or every one of them clears it, or the registry gives an age.
  predicate Yields(c: Config, call: Call, reports: seq<Report>, v: Value) {
    match v
    case ListResult(listed, source) =>
      if listed then Report(source, Said(true)) in reports && SaysListed(c, call, source)
      else reports == Cleared(Enabled(c, call.Key())) && AllSayUnlisted(c, call)
    case Age(age) => call.HowOld? && call.outcome == Some(age)
  }

  // How long what a call yields is good for: a listed domain twelve hours, any other listing six, and
  // an age as long as configured, or seven days.
  function LifetimeOf(c: Config, call: Call, v: Value): int {
    if v.Age? then if c.rdapTTL > 0 then c.rdapTTL else 7 * 24 * HOUR
    else if call.IsDomainListed? && v.listed then 12 * HOUR
    else 6 * HOUR
  }

  lemma ListingLifetime(c: Config, call: Call, listed: bool, source: string)
    requires call.IsDomainListed? || call.IsIPListed?
    ensures Lifetime(call.Key(), listed) == LifetimeOf(c, call, ListResult(listed, source))
  {
    if call.IsDomainListed? {
      assert call.Key()[1] == 'o';
    }
  }

  // ---------------------------------------------------------------------------------- one step

  // What was heard is what providers say, except where their breakers prevented asking.
  ghost predicate Heard(s: Step) {
    match s.call
    case IsDomainListed(_, outcomes, _) => Told(s.reports, outcomes, s.circuits, s.circuits', s.start, s.now)
    case IsIPListed(_, _, lookups, abuse, _) =>
      ToldAddress(s.reports, lookups, abuse, s.circuits, s.circuits', s.start, s.now)
    case _ => s.reports == []
  }

  // A value rests on an unexpired finding, or is what providers say in this call and is remembered.
  ghost predicate Rests(s: Step, v: Value) {
    || (s.after == s.before && exists e :: e in s.before && Supports(e, s.call.Key(), v, s.now))
    || (Yields(s.cfg, s.call, s.reports, v)
        && s.after == s.before + {Entry(s.call.Key(), Item(v, s.now + LifetimeOf(s.cfg, s.call, v)))})
  }

  // The value a call gives that has to rest on something: none if it fails, is the local list's, or
  // needs no asking.
  function Given(s: Step): Option<Value> {
    match (s.call, s.response)
    case (IsDomainListed(domain, _, _), Listing(a)) =>
      if a.failed || domain in s.local then None else Some(ListResult(a.listed, a.source))
    case (IsIPListed(_, address, _, _, _), Listing(a)) =>
      if a.failed || s.cfg.zones == [] || !address.Public? then None else Some(ListResult(a.listed, a.source))
    case (HowOld(_, _, _), AgeIs(age)) => if age.None? then None else Some(Age(age.value))
    case _ => None
  }

  // A domain on the local list of the client.
  predicate Local(s: Step) {
    s.call.IsDomainListed? && s.call.domain in s.local
  }

  // What any step keeps to: a call that gives no such value remembers nothing, and lists nothing
  // unless the local list does, which it does without more ado.
  ghost predicate Took(s: Step) {
    && s.start <= s.now && Heard(s)
    && match Given(s)
       case Some(v) => Rests(s, v)
       case None =>
         && s.after == s.before
         && (Local(s) ==> s.response == Listing(Answer(true, "local", false)))
         && (!Local(s) ==> s.response.Listing? ==> !s.response.answer.listed)
  }

  // ------------------------------------------------------------ what the client's methods ensure

  lemma AskedInTurn(l: ReputationCache.Levels, after: ReputationCache.Levels, key: string, db: Database, a: Answer,
                    reports: seq<Report>, providers: seq<string>, from: int, to: int)
    requires Looked(l, after, key, db, a, reports, providers, from, to) && reports != [] && !a.failed
    ensures InTurn(reports, providers, if a.listed then Some(a.source) else None, false)
            || (a.listed && InTurn(reports, providers, Some(a.source), true))
  {
    hide Get, AfterGet, Concluded, InTurn;
  }

  lemma AllCleared(reports: seq<Report>, providers: seq<string>)
    requires |reports| == |providers| && forall r <- reports :: r.reply == Said(false)
    requires forall i | 0 <= i < |reports| :: reports[i].provider == providers[i]
    ensures reports == Cleared(providers)
  {
    forall i | 0 <= i < |reports| ensures reports[i] == Cleared(providers)[i] {
      assert reports[i] in reports;
    }
  }

  lemma NoneToClear(reports: seq<Report>, providers: seq<string>)
    requires forall p <- providers :: Report(p, Said(false)) in reports
    ensures reports == [] ==> providers == []
  {
    if providers != [] {
      assert Report(providers[0], Said(false)) in reports;
    }
  }

  lemma OfDomain(c: Config, call: Call, a: Answer, l: ReputationCache.Levels, l': ReputationCache.Levels,
                 db: Database, reports: seq<Report>, was: map<string, B.State>, now: map<string, B.State>,
                 from: int, to: int)
    requires call.IsDomainListed? && !a.failed && Told(reports, call.outcomes, was, now, from, to)
    requires Looked(l, l', call.Key(), db, a, reports, DomainFeeds(c), from, to)
    requires Justified(call.Key(), ListResult(a.listed, a.source), Evidence(c, reports))
    ensures Yields(c, call, reports, ListResult(a.listed, a.source))
  {
    hide Gated, Looked;
    DomainKey(c, call.domain);
    if a.listed {
      AskedInTurn(l, l', call.Key(), db, a, reports, DomainFeeds(c), from, to);
      var i :| 0 <= i < |reports| && reports[i] == Report(a.source, Said(true));
      assert reports[i] in reports && reports[i].provider == DomainFeeds(c)[i];
    } else {
      forall p | p in DomainFeeds(c) ensures p in call.outcomes && call.outcomes[p] == Said(false) {
        assert Report(p, Said(false)) in reports;
      }
      NoneToClear(reports, DomainFeeds(c));
      if reports != [] {
        AskedInTurn(l, l', call.Key(), db, a, reports, DomainFeeds(c), from, to);
      }
      AllCleared(reports, DomainFeeds(c));
    }
  }

  lemma OfAddress(c: Config, call: Call, a: Answer, l: ReputationCache.Levels, l': ReputationCache.Levels,
                  db: Database, reports: seq<Report>, was: map<string, B.State>, now: map<string, B.State>,
                  from: int, to: int)
    requires call.IsIPListed? && !a.failed && |call.lookups| == |c.zones| > 0
    requires ToldAddress(reports, call.lookups, call.abuse, was, now, from, to)
    requires Looked(l, l', call.Key(), db, a, reports, AddressProviders(c), from, to)
    requires Justified(call.Key(), ListResult(a.listed, a.source), Evidence(c, reports))
    ensures Yields(c, call, reports, ListResult(a.listed, a.source))
  {
    hide Gated, Looked, ZoneSays, SomeAddressLists, NoAddressLists;
    AddressKey(c, call.ip);
    var lookups, abuse := call.lookups, call.abuse;
    assert AddressProviders(c)[0] == c.zones[0];
    assert reports != [] by {
      assert !a.listed ==> Report(c.zones[0], Said(false)) in reports;
    }
    AskedInTurn(l, l', call.Key(), db, a, reports, AddressProviders(c), from, to);
    forall i | 0 <= i < |reports| && reports[i].reply.Said?
      ensures i < |lookups| ==> reports[i].reply == ZoneSays(lookups[i])
      ensures i >= |lookups| ==> c.abuseIPDB && i == |lookups| && reports[i].reply == abuse
    {
      ReplyOf(reports, lookups, abuse, was, now, from, to, i);
    }
    if a.listed {
      var i :| 0 <= i < |reports| && reports[i] == Report(a.source, Said(true));
      assert reports[i].provider == AddressProviders(c)[i];
      if i < |lookups| {
        ZoneSaysAt(lookups[i]);
      }
    } else {
      forall i | 0 <= i < |lookups| ensures NoAddressLists(lookups[i]) {
        assert reports[i] in reports;
        ZoneSaysAt(lookups[i]);
      }
      if c.abuseIPDB {
        assert reports[|lookups|] in reports;
      }
      AllCleared(reports, AddressProviders(c));
    }
  }

  // What a report says of a zone or of the address database is what that says in the call.
  lemma ReplyOf(reports: seq<Report>, lookups: seq<Lookup>, abuse: Reply, was: map<string, B.State>,
                now: map<string, B.State>, from: int, to: int, i: nat)
    requires ToldAddress(reports, lookups, abuse, was, now, from, to) && i < |reports| && reports[i].reply.Said?
    ensures if i < |lookups| then reports[i].reply == ZoneSays(lookups[i])
            else i == |lookups| && reports[i].reply == abuse
  {
    hide Gated, ZoneSays;
    if |reports| > |lookups| {
      var zones := reports[..|lookups|];
      var mid, t :| && from <= t <= to && ToldZones(zones, lookups, was, mid, from, t)
                    && Asked(reports[|lookups|], abuse, mid, now, t, to) && Others("abuseipdb", mid, now);
      if i < |lookups| {
        assert zones[i] == reports[i];
      }
    }
  }

  // ------------------------------------------------------------------------------- whole runs

  // The domains added to the local list in a session.
  function Blocked(steps: seq<Step>, session: nat): set<string> {
    set i | 0 <= i < |steps| && steps[i].call.Block? && steps[i].session == session :: steps[i].call.domain
  }

  // A run from nothing found to these findings, over by this time. A local list has just what was
  // added to it in its session.
  ghost predicate Leads(steps: seq<Step>, found: set<Entry>, now: int) {
    if steps == [] then found == {} else
    var front, s := steps[..|steps| - 1], steps[|steps| - 1];
    && Took(s) && s.after == found && s.now <= now && s.local == Blocked(front, s.session)
    && Leads(front, s.before, s.start)
  }

  lemma LeadsOn(steps: seq<Step>, s: Step, now: int)
    requires Leads(steps, s.before, now) && Took(s) && now <= s.start && s.local == Blocked(steps, s.session)
    ensures Leads(steps + [s], s.after, s.now)
    ensures Blocked(steps + [s], s.session) == Blocked(steps, s.session) + if s.call.Block? then {s.call.domain} else {}
  {
    hide Given, Heard, Rests;
    var more := steps + [s];
    assert more[..|more| - 1] == steps;
    LeadsLater(steps, s.before, now, s.start);
    BlockedOn(steps, s);
  }

  lemma BlockedOn(steps: seq<Step>, s: Step)
    ensures Blocked(steps + [s], s.session) == Blocked(steps, s.session) + if s.call.Block? then {s.call.domain} else {}
  {
    var more, k := steps + [s], s.session;
    assert forall i | 0 <= i < |steps| :: more[i] == steps[i];
    forall d | d in Blocked(more, k) ensures d in Blocked(steps, k) + if s.call.Block? then {s.call.domain} else {} {
      var i :| 0 <= i < |more| && more[i].call.Block? && more[i].session == k && more[i].call.domain == d;
    }
    forall d | d in Blocked(steps, k) ensures d in Blocked(more, k) {
      var i :| 0 <= i < |steps| && steps[i].call.Block? && steps[i].session == k && steps[i].call.domain == d;
      assert more[i].call.Block?;
    }
    assert s.call.Block? ==> more[|steps|].call.Block? && more[|steps|].call.domain in Blocked(more, k);
  }

  lemma LeadsLater(steps: seq<Step>, found: set<Entry>, now: int, later: int)
    requires Leads(steps, found, now) && now <= later
    ensures Leads(steps, found, later)
  {
    hide Took;
  }

  // The step at which an entry was found.
  ghost predicate Origin(s: Step, e: Entry) {
    && s.call.Key() == e.key && Yields(s.cfg, s.call, s.reports, e.item.value)
    && e.item.expires == s.now + LifetimeOf(s.cfg, s.call, e.item.value)
  }

  lemma {:induction false} EveryFindingHasOrigin(steps: seq<Step>, found: set<Entry>, now: int, e: Entry)
    returns (j: nat)
    requires Leads(steps, found, now) && e in found
    ensures j < |steps| && Origin(steps[j], e) && steps[j].now <= now
  {
    hide Yields, Blocked, LifetimeOf, Heard;
    var front, s := steps[..|steps| - 1], steps[|steps| - 1];
    if e in s.before {
      j := EveryFindingHasOrigin(front, s.before, s.start, e);
    } else {
      j := |steps| - 1;
    }
  }

  // In every run, restarts included, a value given by a call, listed or not or an age, is what the
  // providers said in that call or an earlier one under the same key, and its lifetime since then has
  // not passed.
  lemma {:induction false} AnswersTraceToProviders(steps: seq<Step>, found: set<Entry>, now: int, i: nat)
    returns (j: nat)
    requires Leads(steps, found, now) && i < |steps| && Given(steps[i]).Some?
    ensures j <= i && steps[j].call.Key() == steps[i].call.Key()
    ensures var v := Given(steps[i]).value;
            && Yields(steps[j].cfg, steps[j].call, steps[j].reports, v)
            && steps[j].now <= steps[i].now <= steps[j].now + LifetimeOf(steps[j].cfg, steps[j].call, v)
    decreases |steps|
  {
    hide Yields, Blocked, Given, Heard;
    var front, s := steps[..|steps| - 1], steps[|steps| - 1];
    if i < |front| {
      j := AnswersTraceToProviders(front, s.before, s.start, i);
    } else {
      var v := Given(s).value;
      if e :| s.after == s.before && e in s.before && Supports(e, s.call.Key(), v, s.now) {
        j := EveryFindingHasOrigin(front, s.before, s.start, e);
      } else {
        j := i;
      }
    }
  }

  // And anything is listed without that exactly if it is a domain added to the client's local list
  // before.
  lemma {:induction false} LocalAnswersTrace(steps: seq<Step>, found: set<Entry>, now: int, i: nat)
    requires Leads(steps, found, now) && i < |steps|
    ensures Given(steps[i]).None? && steps[i].response.Listing? && steps[i].response.answer.listed <==>
            exists j :: 0 <= j < i && Blocks(steps[j], steps[i])
    ensures (exists j :: 0 <= j < i && Blocks(steps[j], steps[i])) ==>
              steps[i].response == Listing(Answer(true, "local", false))
    decreases |steps|
  {
    hide Yields, Heard, Rests;
    var front, s := steps[..|steps| - 1], steps[|steps| - 1];
    if i < |front| {
      LocalAnswersTrace(front, s.before, s.start, i);
      assert forall j | 0 <= j < i :: front[j] == steps[j];
    } else {
      LocalIsBlocked(front, s);
      assert forall j | 0 <= j < i :: front[j] == steps[j];
    }
  }

  // The one step adds to the local list the domain that the other asks its client about.
  predicate Blocks(b: Step, s: Step) {
    b.call.Block? && b.session == s.session && s.call.IsDomainListed? && b.call.domain == s.call.domain
  }

  lemma LocalIsBlocked(front: seq<Step>, s: Step)
    requires s.local == Blocked(front, s.session)
    ensures Local(s) <==> exists j :: 0 <= j < |front| && Blocks(front[j], s)
  {
    if Local(s) {
      var j :| 0 <= j < |front| && front[j].call.Block? && front[j].session == s.session
               && front[j].call.domain == s.call.domain;
      assert Blocks(front[j], s);
    }
  }

  // ------------------------------------------------------------------- the client's own runs

  lemma NewFinding(before: map<Entry, Evidence>, after: map<Entry, Evidence>, e: Entry, ev: Evidence)
    requires Sound(after) && after == before[e := ev]
    ensures after.Keys == before.Keys + {e} && Justified(e.key, e.item.value, ev)
  {
    hide Justified, Kinded;
    assert after[e] == ev;
  }

  lemma TookDomain(s: Step, before: map<Entry, Evidence>, after: map<Entry, Evidence>, l: ReputationCache.Levels,
                   l': ReputationCache.Levels, db: Database)
    requires s.call.IsDomainListed? && s.response.Listing? && s.start <= s.now && Heard(s)
    requires s.before == before.Keys && s.after == after.Keys && Sound(after)
    requires var a := s.response.answer;
             if s.call.domain in s.local then a == Answer(true, "local", false) && after == before
             else
               && Answered(before, after, s.call.Key(), a, Evidence(s.cfg, s.reports), s.now)
               && Looked(l, l', s.call.Key(), db, a, s.reports, DomainFeeds(s.cfg), s.start, s.now)
    ensures Took(s)
  {
    hide Justified, Told, ToldAddress, Looked, Yields, Sound, Lifetime;
    var a, key := s.response.answer, s.call.Key();
    ListingLifetime(s.cfg, s.call, a.listed, a.source);
    if s.call.domain !in s.local && !a.failed && FoundNow(before, after, key, a, Evidence(s.cfg, s.reports), s.now) {
      NewFinding(before, after, Entry(key, Item(ListResult(a.listed, a.source), s.now + Lifetime(key, a.listed))),
                 Evidence(s.cfg, s.reports));
      OfDomain(s.cfg, s.call, a, l, l', db, s.reports, s.circuits, s.circuits', s.start, s.now);
    }
  }

  lemma TookAddress(s: Step, before: map<Entry, Evidence>, after: map<Entry, Evidence>, l: ReputationCache.Levels,
                    l': ReputationCache.Levels, db: Database)
    requires s.call.IsIPListed? && s.response.Listing? && s.start <= s.now && Heard(s)
    requires s.before == before.Keys && s.after == after.Keys && Sound(after)
    requires Fits(s.cfg, s.call)
    requires var a := s.response.answer;
             if s.cfg.zones == [] || !s.call.address.Public? then a == Answer(false, "", false) && after == before
             else
               && Answered(before, after, s.call.Key(), a, Evidence(s.cfg, s.reports), s.now)
               && Looked(l, l', s.call.Key(), db, a, s.reports, AddressProviders(s.cfg), s.start, s.now)
    ensures Took(s)
  {
    hide Justified, Told, ToldAddress, Looked, Yields, Sound, Lifetime;
    var a, key := s.response.answer, s.call.Key();
    ListingLifetime(s.cfg, s.call, a.listed, a.source);
    if s.cfg.zones != [] && s.call.address.Public? && !a.failed
       && FoundNow(before, after, key, a, Evidence(s.cfg, s.reports), s.now) {
      NewFinding(before, after, Entry(key, Item(ListResult(a.listed, a.source), s.now + Lifetime(key, a.listed))),
                 Evidence(s.cfg, s.reports));
      OfAddress(s.cfg, s.call, a, l, l', db, s.reports, s.circuits, s.circuits', s.start, s.now);
    }
  }

  method ServeDomain(c: Client, call: Call, ghost k: nat) returns (r: Response, ghost s: Step)
    requires c.Accounted() && c.Guarded() && Fits(c.cfg, call) && call.IsDomainListed?
    modifies c`breakers, c`findings, c.clock, c.cache, c.store, c.breakers.Values
    ensures c.Accounted() && c.Guarded() && c.clock.now >= old(c.clock.now) && c.local == old(c.local)
    ensures fresh(c.breakers.Values - old(c.breakers.Values))
    ensures Took(s) && s == Step(k, c.cfg, old(c.local), call, s.reports, r, old(c.clock.now), c.clock.now,
                                 old(c.findings.Keys), c.findings.Keys, old(c.Circuits()), c.Circuits())
  {
    hide Told, Looked, Answered, Took, Sound, Client.Guarded, Client.Circuits, AllIn;
    var a;
    ghost var reports;
    a, reports := c.DomainListed(call.domain, call.outcomes, call.db);
    r := Listing(a);
    s := Step(k, c.cfg, c.local, call, reports, r, old(c.clock.now), c.clock.now, old(c.findings.Keys), c.findings.Keys,
              old(c.Circuits()), c.Circuits());
    TookDomain(s, old(c.findings), c.findings, old(c.Levels()), c.Levels(), c.Answering(call.db));
  }

  method ServeAddress(c: Client, call: Call, ghost k: nat) returns (r: Response, ghost s: Step)
    requires c.Accounted() && c.Guarded() && Fits(c.cfg, call) && call.IsIPListed?
    modifies c`breakers, c`findings, c.clock, c.cache, c.store, c.breakers.Values
    ensures c.Accounted() && c.Guarded() && c.clock.now >= old(c.clock.now) && c.local == old(c.local)
    ensures fresh(c.breakers.Values - old(c.breakers.Values))
    ensures Took(s) && s == Step(k, c.cfg, old(c.local), call, s.reports, r, old(c.clock.now), c.clock.now,
                                 old(c.findings.Keys), c.findings.Keys, old(c.Circuits()), c.Circuits())
  {
    hide ToldAddress, Looked, Answered, Took, Sound, Client.Guarded, Client.Circuits, AllIn;
    var a;
    ghost var reports;
    a, reports := c.IPListed(call.ip, call.address, call.lookups, call.abuse, call.db);
    r := Listing(a);
    s := Step(k, c.cfg, c.local, call, reports, r, old(c.clock.now), c.clock.now, old(c.findings.Keys), c.findings.Keys,
              old(c.Circuits()), c.Circuits());
    TookAddress(s, old(c.findings), c.findings, old(c.Levels()), c.Levels(), c.Answering(call.db));
  }

  method ServeAge(c: Client, call: Call, ghost k: nat) returns (r: Response, ghost s: Step)
    requires c.Accounted() && c.Guarded() && call.HowOld?
    modifies c`breakers, c`findings, c.clock, c.cache, c.store, c.breakers.Values
    ensures c.Accounted() && c.Guarded() && c.clock.now >= old(c.clock.now) && c.local == old(c.local)
    ensures fresh(c.breakers.Values - old(c.breakers.Values))
    ensures Took(s) && s == Step(k, c.cfg, old(c.local), call, s.reports, r, old(c.clock.now), c.clock.now,
                                 old(c.findings.Keys), c.findings.Keys, old(c.Circuits()), c.Circuits())
  {
    hide LookedAge, Client.Accounted, Client.Guarded, Client.Circuits, Others;
    var age := c.DomainAge(call.domain, call.outcome, call.db);
    r := AgeIs(age);
    s := Step(k, c.cfg, c.local, call, [], r, old(c.clock.now), c.clock.now, old(c.findings.Keys), c.findings.Keys,
              old(c.Circuits()), c.Circuits());
  }

  // Any one call is a step as the theorems take it.
  method Serve(c: Client, call: Call, ghost k: nat) returns (r: Response, ghost s: Step)
    requires c.Accounted() && c.Guarded() && Fits(c.cfg, call)
    modifies c`breakers, c`findings, c`local, c.clock, c.cache, c.store, c.breakers.Values
    ensures c.Accounted() && c.Guarded() && c.clock.now >= old(c.clock.now)
    ensures fresh(c.breakers.Values - old(c.breakers.Values))
    ensures c.local == old(c.local) + if call.Block? then {call.domain} else {}
    ensures Took(s) && s == Step(k, c.cfg, old(c.local), call, s.reports, r, old(c.clock.now), c.clock.now,
                                 old(c.findings.Keys), c.findings.Keys, old(c.Circuits()), c.Circuits())
  {
    hide Fits, Client.Accounted, Client.Guarded;
    match call {
      case IsDomainListed(_, _, _) => r, s := ServeDomain(c, call, k);
      case IsIPListed(_, _, _, _, _) => r, s := ServeAddress(c, call, k);
      case HowOld(_, _, _) => r, s := ServeAge(c, call, k);
      case Block(domain) =>
        c.AddLocalBlock(domain);
        r, s := Done, Step(k, c.cfg, old(c.local), call, [], Done, c.clock.now, c.clock.now, c.findings.Keys,
                           c.findings.Keys, c.Circuits(), c.Circuits());
    }
  }

  predicate Answers(s: Step, k: nat, c: Config, call: Call, r: Response) {
    s.session == k && s.cfg == c && s.call == call && s.response == r
  }

  // Any calls, one after the other, on top of what went before.
  method ServeAll(c: Client, calls: seq<Call>, ghost k: nat, ghost past: seq<Step>)
    returns (rs: seq<Response>, ghost steps: seq<Step>)
    requires c.Accounted() && c.Guarded() && forall call <- calls :: Fits(c.cfg, call)
    requires Leads(past, c.findings.Keys, c.clock.now) && c.local == Blocked(past, k)
    modifies c`breakers, c`findings, c`local, c.clock, c.cache, c.store, c.breakers.Values
    ensures c.Accounted() && c.clock.now >= old(c.clock.now)
    ensures Leads(steps, c.findings.Keys, c.clock.now)
    ensures past <= steps && |rs| == |calls| && |steps| == |past| + |calls|
    ensures forall i | 0 <= i < |calls| :: Answers(steps[|past| + i], k, c.cfg, calls[i], rs[i])
  {
    hide Took, Leads, Blocked, Fits, Client.Accounted, Client.Guarded;
    rs, steps := [], past;
    for i := 0 to |calls|
      invariant c.Accounted() && c.Guarded() && c.clock.now >= old(c.clock.now)
      invariant fresh(c.breakers.Values - old(c.breakers.Values))
      invariant Leads(steps, c.findings.Keys, c.clock.now) && c.local == Blocked(steps, k)
      invariant past <= steps && |rs| == i && |steps| == |past| + i
      invariant forall j | 0 <= j < i :: Answers(steps[|past| + j], k, c.cfg, calls[j], rs[j])
    {
      ghost var before := c.clock.now;
      var r;
      ghost var s;
      r, s := Serve(c, calls[i], k);
      LeadsOn(steps, s, before);
      rs, steps := rs + [r], steps + [s];
    }
  }

  // A client is set up, and serves calls; memory and local list end with it.
  datatype Session = Session(cfg: Config, calls: seq<Call>)

  // All calls, with the number and configuration of the session each is made in.
  function AllCalls(sessions: seq<Session>): seq<(nat, Config, Call)> {
    if sessions == [] then [] else
    var k := |sessions| - 1;
    AllCalls(sessions[..k]) + Numbered(k, sessions[k])
  }

  function Numbered(k: nat, s: Session): seq<(nat, Config, Call)> {
    seq(|s.calls|, i requires 0 <= i < |s.calls| => (k, s.cfg, s.calls[i]))
  }

  predicate AllAnswered(steps: seq<Step>, calls: seq<(nat, Config, Call)>, rs: seq<Response>) {
    && |steps| == |calls| == |rs|
    && forall i | 0 <= i < |steps| :: Answers(steps[i], calls[i].0, calls[i].1, calls[i].2, rs[i])
  }

  lemma NoCalls(sessions: seq<Session>)
    ensures AllAnswered([], AllCalls(sessions[..0]), [])
  {
  }

  // In a session yet to come nothing has been blocked.
  lemma {:induction false} NoneBlocked(steps: seq<Step>, sessions: seq<Session>, k: nat, rs: seq<Response>)
    requires k <= |sessions| && AllAnswered(steps, AllCalls(sessions[..k]), rs)
    ensures Blocked(steps, k) == {}
  {
    EarlierSessions(sessions[..k]);
    forall i | 0 <= i < |steps| ensures steps[i].session < k {
      assert Answers(steps[i], AllCalls(sessions[..k])[i].0, AllCalls(sessions[..k])[i].1,
                     AllCalls(sessions[..k])[i].2, rs[i]);
    }
  }

  lemma {:induction false} EarlierSessions(sessions: seq<Session>)
    ensures forall i | 0 <= i < |AllCalls(sessions)| :: AllCalls(sessions)[i].0 < |sessions|
  {
    if sessions != [] {
      EarlierSessions(sessions[..|sessions| - 1]);
    }
  }

  lemma AnsweredNext(past: seq<Step>, steps: seq<Step>, sessions: seq<Session>, k: nat, rs: seq<Response>,
                     more: seq<Response>)
    requires k < |sessions| && AllAnswered(past, AllCalls(sessions[..k]), rs) && past <= steps
    requires var s := sessions[k];
             && |more| == |s.calls| && |steps| == |past| + |s.calls|
             && forall i | 0 <= i < |s.calls| :: Answers(steps[|past| + i], k, s.cfg, s.calls[i], more[i])
    ensures AllAnswered(steps, AllCalls(sessions[..k + 1]), rs + more)
  {
    hide Answers;
    var new' := Numbered(k, sessions[k]);
    assert sessions[..k + 1][..k] == sessions[..k];
    var before, calls := AllCalls(sessions[..k]), AllCalls(sessions[..k + 1]);
    assert calls == before + new';
    forall i | 0 <= i < |steps| ensures Answers(steps[i], calls[i].0, calls[i].1, calls[i].2, (rs + more)[i]) {
      if i < |past| {
        assert steps[i] == past[i] && calls[i] == before[i];
      } else {
        assert steps[i] == steps[|past| + (i - |past|)] && calls[i] == new'[i - |past|];
      }
    }
  }

  // Clients one after the other over one table, in a database that answers or not as it likes: every
  // call is answered in a run as above.
  method ServeSessions(sessions: seq<Session>, store: Store?, clock: Clock)
    returns (rs: seq<Response>, ghost steps: seq<Step>)
    requires store != null ==> store.rows == map[]
    requires forall session <- sessions :: forall call <- session.calls :: Fits(session.cfg, call)
    modifies store, clock
    ensures exists found: set<Entry> :: Leads(steps, found, clock.now)
    ensures AllAnswered(steps, AllCalls(sessions), rs)
  {
    hide Took, Leads, Blocked, Fits, Sound, Answers, AllCalls, AllAnswered, Client.Guarded;
    rs, steps := [], [];
    NoCalls(sessions);
    ghost var findings: map<Entry, Evidence> := map[];
    NothingYetServed(clock.now);
    assert findings.Keys == {};
    for i := 0 to |sessions|
      invariant store != null ==> AllIn(store.rows, findings.Keys)
      invariant Sound(findings) && Leads(steps, findings.Keys, clock.now)
      invariant AllAnswered(steps, AllCalls(sessions[..i]), rs)
    {
      var s := sessions[i];
      var c := new Client(s.cfg, store, clock, findings);
      var more;
      ghost var past := steps;
      NoneBlocked(past, sessions, i, rs);
      more, steps := ServeAll(c, s.calls, i, past);
      findings := c.findings;
      AnsweredNext(past, steps, sessions, i, rs, more);
      rs := rs + more;
    }
    assert sessions[..|sessions|] == sessions;
  }

  lemma NothingYetServed(now: int)
    ensures Leads([], {}, now) && Sound(map[])
  {
  }
}
