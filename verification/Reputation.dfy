/** Asking whether an address or a domain is listed: local list, cache, then the providers, each
    behind its circuit breaker. */
module Reputation {
  import opened Common
  import opened ReputationCache
  import B = Breaker

  // What a provider came to in one call.
  datatype Reply = Said(listed: bool) | Errored | CircuitOpen

  predicate Failed(r: Reply) {
    !r.Said?
  }

  datatype Report = Report(provider: string, reply: Reply)

  datatype Config = Config(zones: seq<string>, abuseIPDB: bool, urlhaus: bool, openPhish: bool, safeBrowsing: bool,
                           rdap: bool, rdapTTL: int)

  // What an answer rests on: the configuration of the call that gave it, and what each provider
  // asked in that call came to.
  datatype Evidence = Evidence(cfg: Config, reports: seq<Report>)

  // The feeds that a domain is looked up in, in the order they are asked.
  function DomainFeeds(c: Config): seq<string> {
    (if c.urlhaus then ["urlhaus"] else []) + (if c.openPhish then ["openphish"] else [])
    + (if c.safeBrowsing then ["safebrowsing"] else [])
  }

  // Those that are switched on, each once, and in this order.
  lemma FeedsByFlags(c: Config)
    ensures forall p :: p in DomainFeeds(c) <==>
              || (p == "urlhaus" && c.urlhaus) || (p == "openphish" && c.openPhish)
              || (p == "safebrowsing" && c.safeBrowsing)
    ensures forall i, j | 0 <= i < j < |DomainFeeds(c)| ::
              && DomainFeeds(c)[i] != DomainFeeds(c)[j]
              && DomainFeeds(c)[i] != "safebrowsing" && DomainFeeds(c)[j] != "urlhaus"
  {
  }

  // The zones and providers that an address is looked up in, in the order they are asked.
  function AddressProviders(c: Config): seq<string> {
    c.zones + if c.abuseIPDB then ["abuseipdb"] else []
  }

  // The providers that a lookup under a key has to ask.
  function Enabled(c: Config, key: string): seq<string> {
    if "dnsbl:" <= key then AddressProviders(c) else DomainFeeds(c)
  }

  // A positive answer is what some provider said; a negative one is what every provider said.
  predicate Justified(key: string, v: Value, ev: Evidence) {
    v.ListResult? ==>
      if v.listed then Report(v.source, Said(true)) in ev.reports
      else
        && (forall r <- ev.reports :: r.reply == Said(false))
        && (forall p <- Enabled(ev.cfg, key) :: Report(p, Said(false)) in ev.reports)
  }

  predicate Kinded(key: string, v: Value) {
    KeyOfKind(key, if v.ListResult? then ListKind else AgeKind)
  }

  // Every finding is of its key's kind, and justified by its evidence.
  ghost predicate Sound(findings: map<Entry, Evidence>) {
    forall e <- findings :: Kinded(e.key, e.item.value) && Justified(e.key, e.item.value, findings[e])
  }

  datatype Answer = Answer(listed: bool, source: string, failed: bool)

  // A name server's answer for one zone.
  datatype Lookup = NotFound | LookupFailed | Addresses(addresses: seq<string>)

  // An address in 127/8 means listed, except in 127.255/16, where it means the query was refused.
  // Whichever comes first counts.
  function AddressesSay(addresses: seq<string>): (r: Reply)
    ensures !r.CircuitOpen?
  {
    if addresses == [] then Said(false)
    else if "127.255." <= addresses[0] then Errored
    else if "127." <= addresses[0] then Said(true)
    else AddressesSay(addresses[1..])
  }

  function ZoneSays(l: Lookup): (r: Reply)
    ensures !r.CircuitOpen?
  {
    match l
    case NotFound => Said(false)
    case LookupFailed => Errored
    case Addresses(addresses) => AddressesSay(addresses)
  }

  // An answer in 127/8 outside 127.255/16, with none in 127/8 before.
  predicate ListsAt(addresses: seq<string>, i: nat)
    requires i < |addresses|
  {
    && "127." <= addresses[i] && !("127.255." <= addresses[i])
    && forall j | 0 <= j < i :: !("127." <= addresses[j])
  }

  // A zone lists an address by such an answer.
  predicate SomeAddressLists(l: Lookup) {
    l.Addresses? && exists i | 0 <= i < |l.addresses| :: ListsAt(l.addresses, i)
  }

  // It clears an address it does not know, or for which it answers nothing in 127/8.
  predicate NoAddressLists(l: Lookup) {
    l.NotFound? || (l.Addresses? && forall i | 0 <= i < |l.addresses| :: !("127." <= l.addresses[i]))
  }

  lemma {:induction false} AddressesSayAt(addresses: seq<string>)
    ensures AddressesSay(addresses) == Said(true) <==> SomeAddressLists(Addresses(addresses))
    ensures AddressesSay(addresses) == Said(false) <==> NoAddressLists(Addresses(addresses))
  {
    hide SomeAddressLists, NoAddressLists;
    NoAddressYet();
    if addresses != [] {
      AddressesSayAt(addresses[1..]);
      RefusedIsLocal(addresses[0]);
      NextAddress(addresses);
    }
  }

  lemma NoAddressYet()
    ensures !SomeAddressLists(Addresses([])) && NoAddressLists(Addresses([]))
  {
  }

  lemma NextAddress(addresses: seq<string>)
    requires addresses != []
    ensures var more := Addresses(addresses[1..]);
            && (NoAddressLists(Addresses(addresses)) <==> !("127." <= addresses[0]) && NoAddressLists(more))
            && (SomeAddressLists(Addresses(addresses)) <==>
                  if "127." <= addresses[0] then !("127.255." <= addresses[0]) else SomeAddressLists(more))
  {
    var a, more := addresses[0], addresses[1..];
    assert forall i | 0 <= i < |more| :: more[i] == addresses[i + 1];
    if "127." <= a {
      assert ListsAt(addresses, 0) <==> !("127.255." <= a);
    } else {
      forall i | 0 <= i < |more| ensures ListsAt(more, i) <==> ListsAt(addresses, i + 1) {
        LaterListsAt(addresses, i);
      }
      assert !ListsAt(addresses, 0);
      if i :| 0 <= i < |addresses| && ListsAt(addresses, i) {
        assert ListsAt(more, i - 1);
      }
    }
  }

  lemma LaterListsAt(addresses: seq<string>, i: nat)
    requires i + 1 < |addresses| && !("127." <= addresses[0])
    ensures ListsAt(addresses[1..], i) <==> ListsAt(addresses, i + 1)
  {
    var more := addresses[1..];
    if ListsAt(addresses, i + 1) {
      assert forall j | 0 <= j < i :: more[j] == addresses[j + 1];
    }
    if ListsAt(more, i) {
      assert forall j | 0 <= j < i + 1 :: j == 0 || addresses[j] == more[j - 1];
    }
  }

  lemma RefusedIsLocal(a: string)
    ensures "127.255." <= a ==> "127." <= a
  {
    if "127.255." <= a {
      assert a[..4] == "127.255."[..4];
    }
  }

  // What a zone says: it fails only if the name server does, or refuses.
  lemma ZoneSaysAt(l: Lookup)
    ensures ZoneSays(l) == Said(true) <==> SomeAddressLists(l)
    ensures ZoneSays(l) == Said(false) <==> NoAddressLists(l)
  {
    hide AddressesSay;
    if l.Addresses? {
      AddressesSayAt(l.addresses);
    }
  }

  // Whether the database answers the lookup and the write that one call may need.
  datatype Database = Database(readable: bool, writable: bool)

  datatype Address = Unparsable | Internal | Public

  class Client {
    const cfg: Config
    const cache: TtlCache
    const store: Store?
    const clock: Clock
    var local: set<string>
    var breakers: map<string, B.CircuitBreaker>
    ghost var findings: map<Entry, Evidence>

    ghost function Levels(): ReputationCache.Levels
      reads cache, store
    {
      ReputationCache.Levels(cache.items, if store == null then map[] else store.rows)
    }

    // A client without a table is one whose database never answers.
    ghost function Answering(db: Database): Database {
      if store == null then Database(false, false) else db
    }

    // Everything remembered, at either level, was found by a call whose evidence justifies it.
    ghost predicate Accounted()
      reads this`findings, cache, store
    {
      && AllIn(Levels().memory, findings.Keys) && AllIn(Levels().table, findings.Keys)
      && Sound(findings)
    }

    ghost predicate Guarded()
      reads this`breakers, breakers.Values
    {
      && (forall n <- breakers ::
            breakers[n].Valid() && breakers[n].threshold == 3 && breakers[n].cooldown == 30 * SECOND)
      && (forall n, m | n in breakers && m in breakers && n != m :: breakers[n] != breakers[m])
    }

    ghost function Circuits(): map<string, B.State>
      reads this`breakers, breakers.Values
    {
      map n | n in breakers :: breakers[n].Now()
    }

    // The state of the breaker of a provider.
    ghost function BreakerOf(n: string): B.State
      reads this`breakers, breakers.Values
    {
      CircuitOf(Circuits(), n)
    }

    // A client over a table left by earlier clients, whose findings it inherits.
    constructor (cfg: Config, store: Store?, clock: Clock, ghost past: map<Entry, Evidence>)
      requires store != null ==> AllIn(store.rows, past.Keys)
      requires Sound(past)
      ensures Accounted() && Guarded() && fresh(cache) && findings == past && local == {} && breakers == map[]
      ensures this.cfg == cfg && this.store == store && this.clock == clock
      ensures Levels() == ReputationCache.Levels(map[], if store == null then map[] else store.rows)
    {
      this.cfg, this.store, this.clock := cfg, store, clock;
      cache := new TtlCache();
      local, breakers, findings := {}, map[], past;
    }

    // ------------------------------------------------------------------------------ breakers

    method AllowProvider(name: string) returns (ok: bool)
      requires Guarded()
      modifies this`breakers, clock, breakers.Values
      ensures Guarded() && breakers.Keys == old(breakers.Keys) + {name}
      ensures fresh(breakers.Values - old(breakers.Values))
      ensures ok == B.Admits(old(BreakerOf(name)), clock.now) && clock.now >= old(clock.now)
      ensures BreakerOf(name) == B.AfterAllow(old(BreakerOf(name)), clock.now)
      ensures Others(name, old(Circuits()), Circuits())
    {
      hide B.AfterAllow, B.Admits, B.Consistent;
      if name !in breakers {
        var b := new B.CircuitBreaker(3, 30 * SECOND);
        breakers := breakers[name := b];
      }
      var now := clock.Now();
      ok := breakers[name].Allow(now);
    }

    method ObserveProvider(name: string, failed: bool)
      requires Guarded()
      modifies clock, breakers.Values
      ensures Guarded() && clock.now >= old(clock.now)
      ensures name in breakers ==>
                BreakerOf(name) == B.AfterObserve(old(BreakerOf(name)), clock.now, failed, 3, 30 * SECOND)
      ensures Others(name, old(Circuits()), Circuits())
    {
      if name in breakers {
        var now := clock.Now();
        breakers[name].Observe(now, failed);
      }
    }

    // One call to a provider, unless its circuit is open.
    method Ask(name: string, outcome: Reply) returns (r: Reply)
      requires Guarded() && !outcome.CircuitOpen?
      modifies this`breakers, clock, breakers.Values
      ensures Guarded() && breakers.Keys == old(breakers.Keys) + {name} && clock.now >= old(clock.now)
      ensures fresh(breakers.Values - old(breakers.Values))
      ensures r == outcome || r.CircuitOpen?
      ensures Gated(old(BreakerOf(name)), BreakerOf(name), !r.CircuitOpen?, Failed(outcome), old(clock.now), clock.now)
      ensures Others(name, old(Circuits()), Circuits())
    {
      hide Guarded, Gated, Circuits;
      var ok := AllowProvider(name);
      ghost var asked := clock.now;
      if !ok {
        GatedOut(old(BreakerOf(name)), asked, Failed(outcome), old(clock.now), clock.now);
        return CircuitOpen;
      }
      ObserveProvider(name, Failed(outcome));
      GatedThrough(old(BreakerOf(name)), asked, Failed(outcome), old(clock.now), clock.now);
      return outcome;
    }

    // --------------------------------------------------------------------------------- cache

    method GetCached(k: string, kind: Kind, db: Database) returns (r: Option<Value>)
      requires Accounted() && KeyOfKind(k, kind)
      modifies clock, cache, store
      ensures Accounted() && clock.now >= old(clock.now)
      ensures Levels() == AfterGet(old(Levels()), k, kind, clock.now, Answering(db).readable)
      ensures Get(old(Levels()), k, kind, clock.now, Answering(db).readable) == if r.Some? then Hit(r.value) else Miss
      ensures r.Some? ==> OfKind(r.value, kind) && exists e :: e in findings && Supports(e, k, r.value, clock.now)
    {
      hide KeyOfKind, Sound;
      ghost var before := Levels();
      var now := clock.Now();
      HeldKind(before, findings, k, kind);
      var hit := cache.Get(k, now);
      if hit.Some? {
        assert Supports(Entry(k, before.memory[k]), k, hit.value, now);
        return hit;
      }
      KeepsDropped(before.memory, k, findings.Keys);
      if store == null {
        return None;
      }
      var row := store.GetReputationCache(k, now, db.readable);
      KeepsDropped(before.table, k, findings.Keys);
      if row.None? || !OfKind(row.value.value, kind) {
        return None;
      }
      assert Supports(Entry(k, before.table[k]), k, row.value.value, now);
      RememberKeeps(cache.items, k, row.value, findings.Keys);
      cache.Set(k, row.value.value, now, row.value.expires - now);
      return Some(row.value.value);
    }

    method SetCached(k: string, v: Value, ttl: int, db: Database, ghost ev: Evidence)
      requires Accounted()
      requires Kinded(k, v) && Justified(k, v, ev)
      modifies this`findings, clock, cache, store
      ensures Accounted() && clock.now >= old(clock.now)
      ensures var item := Item(v, clock.now + ttl);
              && Levels() == AfterSet(old(Levels()), k, item, Answering(db).writable)
              && findings == old(findings)[Entry(k, item) := ev]
    {
      hide KeyOfKind, Justified;
      var now := clock.Now();
      ghost var item := Item(v, now + ttl);
      findings := findings[Entry(k, item) := ev];
      RememberKeeps(cache.items, k, item, findings.Keys);
      cache.Set(k, v, now, ttl);
      if store != null {
        var ok := store.PutReputationCache(k, v, now + ttl, db.writable);
      }
    }

    // ------------------------------------------------------------------------------- domains

    // Asks one more provider after others that listed nothing. Ghost arguments: what those said, in
    // which order, and the circuits at the time the first was asked.
    method AskNext(name: string, outcomes: map<string, Reply>, failed: bool, ghost reports: seq<Report>,
                   ghost order: seq<string>, ghost was: map<string, B.State>, ghost start: int)
      returns (listed: bool, failed': bool, ghost reports': seq<Report>)
      requires Guarded() && name in outcomes && !outcomes[name].CircuitOpen? && name !in order && start <= clock.now
      requires InTurn(reports, order, None, failed) && Told(reports, outcomes, was, Circuits(), start, clock.now)
      modifies this`breakers, clock, breakers.Values
      ensures Guarded() && fresh(breakers.Values - old(breakers.Values)) && clock.now >= old(clock.now)
      ensures InTurn(reports', order + [name], if listed then Some(name) else None, failed')
      ensures Told(reports', outcomes, was, Circuits(), start, clock.now)
    {
      hide Guarded, InTurn, Told, Gated, Circuits;
      ghost var circuits := Circuits();
      var reply := Ask(name, outcomes[name]);
      NextInTurn(reports, order, failed, name, reply);
      NextTold(reports, order, failed, outcomes, was, circuits, Circuits(), start, old(clock.now), clock.now,
               Report(name, reply));
      return reply == Said(true), failed || Failed(reply), reports + [Report(name, reply)];
    }

    // Asks the enabled feeds in turn, up to the first that lists the domain.
    method AskFeeds(outcomes: map<string, Reply>)
      returns (lister: Option<string>, failed: bool, ghost reports: seq<Report>)
      requires Guarded() && HasFeeds(outcomes)
      modifies this`breakers, clock, breakers.Values
      ensures Guarded() && fresh(breakers.Values - old(breakers.Values)) && clock.now >= old(clock.now)
      ensures InTurn(reports, DomainFeeds(cfg), lister, failed)
      ensures Told(reports, outcomes, old(Circuits()), Circuits(), old(clock.now), clock.now)
    {
      hide Guarded, InTurn, Told, Circuits;
      ghost var was, start, order := Circuits(), clock.now, [];
      NothingYet();
      NothingTold(outcomes, was, start, start);
      var listed;
      lister, failed, reports := None, false, [];
      if cfg.urlhaus {
        listed, failed, reports := AskNext("urlhaus", outcomes, failed, reports, order, was, start);
        order := order + ["urlhaus"];
        if listed {
          StopsEarly(reports, order, DomainFeeds(cfg), "urlhaus", failed);
          return Some("urlhaus"), failed, reports;
        }
      }
      if cfg.openPhish {
        listed, failed, reports := AskNext("openphish", outcomes, failed, reports, order, was, start);
        order := order + ["openphish"];
        if listed {
          StopsEarly(reports, order, DomainFeeds(cfg), "openphish", failed);
          return Some("openphish"), failed, reports;
        }
      }
      if cfg.safeBrowsing {
        listed, failed, reports := AskNext("safebrowsing", outcomes, failed, reports, order, was, start);
        order := order + ["safebrowsing"];
        if listed {
          StopsEarly(reports, order, DomainFeeds(cfg), "safebrowsing", failed);
          return Some("safebrowsing"), failed, reports;
        }
      }
      assert order == DomainFeeds(cfg);
    }

    // Remembers what the providers said about a key, unless one failed and none listed it.
    method Conclude(key: string, lister: Option<string>, failed: bool, ttl: int, db: Database,
                    ghost reports: seq<Report>)
      returns (answer: Answer)
      requires Accounted() && KeyOfKind(key, ListKind) && ttl == Lifetime(key, true)
      requires InTurn(reports, Enabled(cfg, key), lister, failed)
      modifies this`findings, clock, cache, store
      ensures Accounted() && clock.now >= old(clock.now)
      ensures answer == if lister.Some? then Answer(true, lister.value, false) else Answer(false, "", failed)
      ensures answer.failed ==> exists r :: r in reports && Failed(r.reply)
      ensures if answer.failed then findings == old(findings)
              else FoundNow(old(findings), findings, key, answer, Evidence(cfg, reports), clock.now)
      ensures Levels() == Concluded(old(Levels()), key, answer, clock.now, Answering(db).writable)
    {
      hide AllIn, Enabled, KeyOfKind, AfterSet, InTurn, Justified;
      InTurnJustifies(reports, key, cfg, lister, failed);
      KindsApart(key);
      if lister.Some? {
        SetCached(key, ListResult(true, lister.value), ttl, db, Evidence(cfg, reports));
        return Answer(true, lister.value, false);
      }
      if !failed {
        SetCached(key, ListResult(false, ""), 6 * HOUR, db, Evidence(cfg, reports));
      }
      return Answer(false, "", failed);
    }

    // Whether a domain is listed. The local list comes first, then what is remembered; only if there
    // is nothing there are the feeds asked, in turn. A failure remembers nothing; any other answer is
    // the local list's, rests on an unexpired finding for this domain, or was found now.
    method DomainListed(domain: string, outcomes: map<string, Reply>, db: Database)
      returns (answer: Answer, ghost reports: seq<Report>)
      requires Accounted() && Guarded() && HasFeeds(outcomes)
      modifies this`breakers, this`findings, clock, cache, store, breakers.Values
      ensures Accounted() && Guarded() && local == old(local)
      ensures fresh(breakers.Values - old(breakers.Values)) && clock.now >= old(clock.now)
      ensures Told(reports, outcomes, old(Circuits()), Circuits(), old(clock.now), clock.now)
      ensures var key := "domain-listed:" + domain;
              if domain in local
              then answer == Answer(true, "local", false) && findings == old(findings) && reports == []
                   && Levels() == old(Levels())
              else
                && Answered(old(findings), findings, key, answer, Evidence(cfg, reports), clock.now)
                && Looked(old(Levels()), Levels(), key, Answering(db), answer, reports, DomainFeeds(cfg),
                          old(clock.now), clock.now)
    {
      hide Enabled, InTurn, Told, Accounted, Guarded, Circuits, Looked, Concluded, AfterGet, Get, KeyOfKind, Supports,
           DomainFeeds, Levels, Answering, FoundNow, Failed;
      reports := [];
      if domain in local {
        NothingTold(outcomes, Circuits(), clock.now, clock.now);
        return Answer(true, "local", false), [];
      }
      var key := "domain-listed:" + domain;
      DomainKey(cfg, domain);
      var hit := GetCached(key, ListKind, db);
      if hit.Some? {
        NothingTold(outcomes, Circuits(), old(clock.now), clock.now);
        LookedHit(old(Levels()), key, Answering(db), hit.value, DomainFeeds(cfg), old(clock.now), clock.now,
                  clock.now);
        return Answer(hit.value.listed, hit.value.source, false), [];
      }
      ghost var asked := clock.now;
      var lister, failed;
      lister, failed, reports := AskFeeds(outcomes);
      ghost var told := clock.now;
      answer := Conclude(key, lister, failed, 12 * HOUR, db, reports);
      LookedMiss(old(Levels()), key, Answering(db), lister, failed, answer, reports, DomainFeeds(cfg),
                 old(clock.now), asked, clock.now);
      ToldWithin(reports, outcomes, old(Circuits()), Circuits(), asked, told, old(clock.now), clock.now);
    }

    // ------------------------------------------------------------------------------ addresses

    // What a name server's addresses for a zone mean.
    method ScanAddresses(addresses: seq<string>) returns (r: Reply)
      ensures r == AddressesSay(addresses)
    {
      for i := 0 to |addresses|
        invariant AddressesSay(addresses) == AddressesSay(addresses[i..])
      {
        assert addresses[i..][1..] == addresses[i + 1..];
        if "127.255." <= addresses[i] { return Errored; }
        if "127." <= addresses[i] { return Said(true); }
      }
      return Said(false);
    }

    // Looks the address up in each zone in turn, up to the first that lists it.
    method LookUpZones(lookups: seq<Lookup>) returns (lister: Option<string>, failed: bool, ghost reports: seq<Report>)
      requires |lookups| == |cfg.zones|
      ensures InTurn(reports, cfg.zones, lister, failed) && |reports| <= |lookups|
      ensures forall i | 0 <= i < |reports| :: reports[i].reply == ZoneSays(lookups[i])
    {
      hide InTurn, AddressesSay;
      lister, failed, reports := None, false, [];
      NothingYet();
      assert cfg.zones[..0] == [];
      for i := 0 to |cfg.zones|
        invariant |reports| == i && InTurn(reports, cfg.zones[..i], None, failed)
        invariant forall j | 0 <= j < i :: reports[j].reply == ZoneSays(lookups[j])
      {
        var reply;
        match lookups[i] {
          case NotFound => reply := Said(false);
          case LookupFailed => reply := Errored;
          case Addresses(addresses) => reply := ScanAddresses(addresses);
        }
        NextInTurn(reports, cfg.zones[..i], failed, cfg.zones[i], reply);
        assert cfg.zones[..i] + [cfg.zones[i]] == cfg.zones[..i + 1];
        reports, failed := reports + [Report(cfg.zones[i], reply)], failed || Failed(reply);
        if reply == Said(true) {
          StopsEarly(reports, cfg.zones[..i + 1], cfg.zones, cfg.zones[i], failed);
          return Some(cfg.zones[i]), failed, reports;
        }
      }
      assert cfg.zones[..|cfg.zones|] == cfg.zones;
    }

    // Asks the zones, behind the breaker they share: it learns of a failure only if no zone lists the
    // address. If the circuit is open, all of them count as failed.
    method AskZones(lookups: seq<Lookup>) returns (lister: Option<string>, failed: bool, ghost reports: seq<Report>)
      requires Guarded() && |lookups| == |cfg.zones| > 0
      modifies this`breakers, clock, breakers.Values
      ensures Guarded() && fresh(breakers.Values - old(breakers.Values)) && clock.now >= old(clock.now)
      ensures InTurn(reports, cfg.zones, lister, failed)
      ensures ToldZones(reports, lookups, old(Circuits()), Circuits(), old(clock.now), clock.now)
    {
      hide Guarded, InTurn, ZoneSays, Circuits, Gated;
      var ok := AllowProvider("dnsbl");
      ghost var asked := clock.now;
      if !ok {
        RefusedInTurn(cfg.zones);
        GatedOut(old(BreakerOf("dnsbl")), asked, ZonesFail(Refused(cfg.zones)), old(clock.now), clock.now);
        return None, true, Refused(cfg.zones);
      }
      lister, failed, reports := LookUpZones(lookups);
      ZonesAsked(reports, cfg.zones, lister, failed);
      ObserveProvider("dnsbl", lister.None? && failed);
      GatedThrough(old(BreakerOf("dnsbl")), asked, ZonesFail(reports), old(clock.now), clock.now);
    }

    // The zones, and then the address database if they list nothing.
    method AskAddressProviders(lookups: seq<Lookup>, abuse: Reply)
      returns (lister: Option<string>, failed: bool, ghost reports: seq<Report>)
      requires Guarded() && |lookups| == |cfg.zones| > 0 && !abuse.CircuitOpen?
      modifies this`breakers, clock, breakers.Values
      ensures Guarded() && fresh(breakers.Values - old(breakers.Values)) && clock.now >= old(clock.now)
      ensures InTurn(reports, AddressProviders(cfg), lister, failed)
      ensures ToldAddress(reports, lookups, abuse, old(Circuits()), Circuits(), old(clock.now), clock.now)
    {
      hide Guarded, InTurn, Gated, Circuits, ToldZones;
      lister, failed, reports := AskZones(lookups);
      ghost var then', circuits := clock.now, Circuits();
      if lister.Some? {
        StopsEarly(reports, cfg.zones, AddressProviders(cfg), lister.value, failed);
        ZonesTold(reports, lookups, abuse, old(Circuits()), circuits, old(clock.now), clock.now);
        return;
      }
      if cfg.abuseIPDB {
        var reply := Ask("abuseipdb", abuse);
        AllAsked(reports, cfg.zones, failed);
        DatabaseTold(reports, lookups, abuse, reply, old(Circuits()), circuits, Circuits(), old(clock.now), then',
                     clock.now);
        NextInTurn(reports, cfg.zones, failed, "abuseipdb", reply);
        reports, failed := reports + [Report("abuseipdb", reply)], failed || Failed(reply);
        if reply == Said(true) {
          return Some("abuseipdb"), failed, reports;
        }
      } else {
        assert AddressProviders(cfg) == cfg.zones;
        ZonesTold(reports, lookups, abuse, old(Circuits()), circuits, old(clock.now), clock.now);
      }
    }

    // Whether an address is on a block list. Without zones nothing is asked at all, and addresses
    // that are not public are never listed; otherwise as for domains.
    method IPListed(ip: string, address: Address, lookups: seq<Lookup>, abuse: Reply, db: Database)
      returns (answer: Answer, ghost reports: seq<Report>)
      requires Accounted() && Guarded() && |lookups| == |cfg.zones| && !abuse.CircuitOpen?
      modifies this`breakers, this`findings, clock, cache, store, breakers.Values
      ensures Accounted() && Guarded() && local == old(local)
      ensures fresh(breakers.Values - old(breakers.Values)) && clock.now >= old(clock.now)
      ensures ToldAddress(reports, lookups, abuse, old(Circuits()), Circuits(), old(clock.now), clock.now)
      ensures var key := "dnsbl:" + ip;
              if cfg.zones == [] || !address.Public?
              then answer == Answer(false, "", false) && findings == old(findings) && reports == []
                   && Levels() == old(Levels())
              else
                && Answered(old(findings), findings, key, answer, Evidence(cfg, reports), clock.now)
                && Looked(old(Levels()), Levels(), key, Answering(db), answer, reports, AddressProviders(cfg),
                          old(clock.now), clock.now)
    {
      hide Enabled, InTurn, ToldAddress, Accounted, Guarded, Circuits, Looked, Concluded, AfterGet, Get, KeyOfKind,
           Supports, AddressProviders, Levels, Answering, FoundNow, Failed;
      if |cfg.zones| == 0 || !address.Public? {
        NothingToldAddress(lookups, abuse, Circuits(), clock.now, clock.now);
        return Answer(false, "", false), [];
      }
      var key := "dnsbl:" + ip;
      AddressKey(cfg, ip);
      var hit := GetCached(key, ListKind, db);
      if hit.Some? {
        NothingToldAddress(lookups, abuse, Circuits(), old(clock.now), clock.now);
        LookedHit(old(Levels()), key, Answering(db), hit.value, AddressProviders(cfg), old(clock.now), clock.now,
                  clock.now);
        return Answer(hit.value.listed, hit.value.source, false), [];
      }
      ghost var asked := clock.now;
      var lister, failed;
      lister, failed, reports := AskAddressProviders(lookups, abuse);
      ghost var told := clock.now;
      answer := Conclude(key, lister, failed, 6 * HOUR, db, reports);
      LookedMiss(old(Levels()), key, Answering(db), lister, failed, answer, reports, AddressProviders(cfg),
                 old(clock.now), asked, clock.now);
      ToldAddressWithin(reports, lookups, abuse, old(Circuits()), Circuits(), asked, told, old(clock.now), clock.now);
    }

    // --------------------------------------------------------------------------- ages of domains

    // How long a domain has been registered, if that is known. A failure is no answer, and is not
    // remembered.
    method DomainAge(domain: string, outcome: Option<int>, db: Database) returns (age: Option<int>)
      requires Accounted() && Guarded()
      modifies this`breakers, this`findings, clock, cache, store, breakers.Values
      ensures Accounted() && Guarded() && local == old(local) && Others("rdap", old(Circuits()), Circuits())
      ensures fresh(breakers.Values - old(breakers.Values)) && clock.now >= old(clock.now)
      ensures AgeAnswered(old(findings), findings, "rdap:" + domain, age, outcome, Evidence(cfg, []), AgeLifetime(cfg),
                          clock.now)
      ensures if cfg.rdap
              then LookedAge(old(Levels()), Levels(), "rdap:" + domain, Answering(db), age, outcome,
                             AgeLifetime(cfg), old(BreakerOf("rdap")), BreakerOf("rdap"), old(clock.now), clock.now)
              else age.None? && findings == old(findings) && Levels() == old(Levels()) && Circuits() == old(Circuits())
    {
      hide KeyOfKind, Accounted, Guarded, Circuits, LookedAge, AfterGet, Get, AfterSet, Supports, Gated;
      if !cfg.rdap { return None; }
      var key := "rdap:" + domain;
      AgeKey(domain);
      var hit := GetCached(key, AgeKind, db);
      ghost var asked := clock.now;
      if hit.Some? {
        LookedAgeHit(old(Levels()), key, Answering(db), hit.value.age, outcome, AgeLifetime(cfg), BreakerOf("rdap"),
                     old(clock.now), asked, asked);
        return Some(hit.value.age);
      }
      ghost var admitted, told;
      age, admitted, told := AskRegistry(key, outcome, db);
      LookedAgeMiss(old(Levels()), Levels(), key, Answering(db), outcome, AgeLifetime(cfg), old(BreakerOf("rdap")),
                    BreakerOf("rdap"), admitted, old(clock.now), asked, told, clock.now);
    }

    // Asks the registry, unless its circuit is open, and remembers the age it gives.
    method AskRegistry(key: string, outcome: Option<int>, db: Database)
      returns (age: Option<int>, ghost admitted: bool, ghost told: int)
      requires Accounted() && Guarded() && KeyOfKind(key, AgeKind)
      modifies this`breakers, this`findings, clock, cache, store, breakers.Values
      ensures Accounted() && Guarded() && fresh(breakers.Values - old(breakers.Values))
      ensures old(clock.now) <= told <= clock.now && age == (if admitted then outcome else None)
      ensures Others("rdap", old(Circuits()), Circuits())
      ensures Gated(old(BreakerOf("rdap")), BreakerOf("rdap"), admitted, outcome.None?, old(clock.now), told)
      ensures if age.None? then findings == old(findings) && Levels() == old(Levels())
              else
                var item := Item(Age(age.value), clock.now + AgeLifetime(cfg));
                && findings == old(findings)[Entry(key, item) := Evidence(cfg, [])]
                && Levels() == AfterSet(old(Levels()), key, item, Answering(db).writable)
    {
      hide KeyOfKind, Accounted, Guarded, Circuits, AfterSet, Gated, Others;
      var reply := Ask("rdap", if outcome.None? then Errored else Said(false));
      admitted, told := !reply.CircuitOpen?, clock.now;
      if reply.Said? {
        RememberAge(key, outcome.value, AgeLifetime(cfg), db);
        return outcome, admitted, told;
      }
      return None, admitted, told;
    }

    method RememberAge(key: string, age: int, ttl: int, db: Database)
      requires Accounted() && KeyOfKind(key, AgeKind) && ttl > 0
      modifies this`findings, clock, cache, store
      ensures Accounted() && clock.now >= old(clock.now)
      ensures findings == old(findings)[Entry(key, Item(Age(age), clock.now + ttl)) := Evidence(cfg, [])]
      ensures Levels() == AfterSet(old(Levels()), key, Item(Age(age), clock.now + ttl), Answering(db).writable)
    {
      SetCached(key, Age(age), ttl, db, Evidence(cfg, []));
    }

    // Adds a domain to the local list.
    method AddLocalBlock(domain: string)
      modifies this`local
      ensures local == old(local) + {domain}
    {
      local := local + {domain};
    }
  }

  lemma DomainKey(c: Config, domain: string)
    ensures var key := "domain-listed:" + domain;
            KeyOfKind(key, ListKind) && Enabled(c, key) == DomainFeeds(c) && Lifetime(key, true) == 12 * HOUR
  {
    var key := "domain-listed:" + domain;
    assert key[1] == 'o';
    assert key[..|"domain-listed:"|] == "domain-listed:";
  }

  lemma AddressKey(c: Config, ip: string)
    ensures var key := "dnsbl:" + ip; KeyOfKind(key, ListKind) && Enabled(c, key) == AddressProviders(c)
  {
  }

  lemma AgeKey(domain: string)
    ensures KeyOfKind("rdap:" + domain, AgeKind)
  {
  }

  // ------------------------------------------------------------------------ asking in turn

  // A breaker never asked is closed.
  ghost function CircuitOf(circuits: map<string, B.State>, n: string): B.State {
    if n in circuits then circuits[n] else B.CLOSED
  }

  // No other provider's breaker has moved.
  ghost predicate Others(name: string, was: map<string, B.State>, now: map<string, B.State>) {
    forall n | n != name :: CircuitOf(now, n) == CircuitOf(was, n)
  }

  // Asking moved a breaker from one state to another: it admitted the call or not at one time, and
  // if it did, learned at a later time whether the call failed.
  ghost predicate Gated(before: B.State, after: B.State, admitted: bool, failed: bool, from: int, to: int) {
    if admitted then
      exists t, u :: && from <= t <= u <= to && B.Admits(before, t)
                     && after == B.AfterObserve(B.AfterAllow(before, t), u, failed, 3, 30 * SECOND)
    else after == before && exists t :: from <= t <= to && !B.Admits(before, t)
  }

  lemma GatedThrough(before: B.State, asked: int, failed: bool, from: int, to: int)
    requires from <= asked <= to && B.Admits(before, asked)
    ensures Gated(before, B.AfterObserve(B.AfterAllow(before, asked), to, failed, 3, 30 * SECOND), true, failed,
                  from, to)
  {
  }

  lemma GatedOut(before: B.State, asked: int, failed: bool, from: int, to: int)
    requires from <= asked <= to && !B.Admits(before, asked)
    ensures Gated(before, B.AfterAllow(before, asked), false, failed, from, to)
  {
  }

  lemma GatedWithin(before: B.State, after: B.State, admitted: bool, failed: bool, from: int, to: int, start: int,
                    end: int)
    requires Gated(before, after, admitted, failed, from, to) && start <= from && to <= end
    ensures Gated(before, after, admitted, failed, start, end)
  {
  }

  // Providers were asked in this order, up to the first that lists what is asked about, and if there
  // is none up to the end.
  ghost predicate InTurn(reports: seq<Report>, order: seq<string>, lister: Option<string>, failed: bool) {
    && |reports| <= |order|
    && (forall i | 0 <= i < |reports| :: reports[i].provider == order[i])
    && (forall i | 0 <= i < |reports| :: reports[i].reply == Said(true) <==> lister.Some? && i == |reports| - 1)
    && (if lister.Some? then reports != [] && reports[|reports| - 1].provider == lister.value else |reports| == |order|)
    && (failed <==> exists i :: 0 <= i < |reports| && Failed(reports[i].reply))
  }

  // A provider's answer is what it says when asked, unless its breaker prevented the call; and its
  // breaker has learned of it.
  ghost predicate Asked(r: Report, outcome: Reply, was: map<string, B.State>, now: map<string, B.State>, from: int,
                        to: int)
  {
    && (r.reply == outcome || r.reply.CircuitOpen?)
    && Gated(CircuitOf(was, r.provider), CircuitOf(now, r.provider), !r.reply.CircuitOpen?, Failed(outcome), from, to)
  }

  function Providers(reports: seq<Report>): set<string> {
    set r <- reports :: r.provider
  }

  // So it is for each of these reports, and no other breaker has moved.
  ghost predicate Told(reports: seq<Report>, outcomes: map<string, Reply>, was: map<string, B.State>,
                       now: map<string, B.State>, from: int, to: int)
  {
    && (forall r <- reports :: r.provider in outcomes && Asked(r, outcomes[r.provider], was, now, from, to))
    && (forall n | n !in Providers(reports) :: CircuitOf(now, n) == CircuitOf(was, n))
  }

  predicate ZonesFail(reports: seq<Report>) {
    (forall r <- reports :: r.reply != Said(true)) && exists r <- reports :: Failed(r.reply)
  }

  // The zones share one breaker: it admits all of them or none, and learns whether they came to a
  // failure as a whole.
  ghost predicate ToldZones(reports: seq<Report>, lookups: seq<Lookup>, was: map<string, B.State>,
                            now: map<string, B.State>, from: int, to: int)
  {
    && 1 <= |reports| <= |lookups|
    && var admitted := !reports[0].reply.CircuitOpen?;
    && (forall i | 0 <= i < |reports| :: reports[i].reply == if admitted then ZoneSays(lookups[i]) else CircuitOpen)
    && Gated(CircuitOf(was, "dnsbl"), CircuitOf(now, "dnsbl"), admitted, ZonesFail(reports), from, to)
    && Others("dnsbl", was, now)
  }

  // First the zones, then the address database.
  ghost predicate ToldAddress(reports: seq<Report>, lookups: seq<Lookup>, abuse: Reply, was: map<string, B.State>,
                              now: map<string, B.State>, from: int, to: int)
  {
    if reports == [] then now == was
    else if |reports| <= |lookups| then ToldZones(reports, lookups, was, now, from, to)
    else
      && |reports| == |lookups| + 1
      && exists mid, t ::
           && from <= t <= to && ToldZones(reports[..|lookups|], lookups, was, mid, from, t)
           && Asked(reports[|lookups|], abuse, mid, now, t, to)
           && Others("abuseipdb", mid, now)
  }

  predicate HasFeeds(outcomes: map<string, Reply>) {
    {"urlhaus", "openphish", "safebrowsing"} <= outcomes.Keys && forall p <- outcomes :: !outcomes[p].CircuitOpen?
  }

  // The reports of zones kept from by their open circuit.
  function Refused(zones: seq<string>): seq<Report> {
    seq(|zones|, i requires 0 <= i < |zones| => Report(zones[i], CircuitOpen))
  }

  lemma RefusedInTurn(zones: seq<string>)
    requires zones != []
    ensures InTurn(Refused(zones), zones, None, true)
  {
    assert Failed(Refused(zones)[0].reply);
  }

  lemma ZonesAsked(reports: seq<Report>, order: seq<string>, lister: Option<string>, failed: bool)
    requires InTurn(reports, order, lister, failed) && order != []
    ensures reports != [] && (ZonesFail(reports) <==> lister.None? && failed)
  {
    if lister.Some? {
      assert reports[|reports| - 1].reply == Said(true);
    }
  }

  lemma AllAsked(reports: seq<Report>, order: seq<string>, failed: bool)
    requires InTurn(reports, order, None, failed)
    ensures |reports| == |order|
  {
  }

  lemma ZonesTold(reports: seq<Report>, lookups: seq<Lookup>, abuse: Reply, was: map<string, B.State>,
                  now: map<string, B.State>, from: int, to: int)
    requires ToldZones(reports, lookups, was, now, from, to)
    ensures ToldAddress(reports, lookups, abuse, was, now, from, to)
  {
  }

  lemma DatabaseTold(reports: seq<Report>, lookups: seq<Lookup>, abuse: Reply, reply: Reply, was: map<string, B.State>,
                     mid: map<string, B.State>, now: map<string, B.State>, from: int, then': int, to: int)
    requires |reports| == |lookups| && ToldZones(reports, lookups, was, mid, from, then') && from <= then' <= to
    requires Asked(Report("abuseipdb", reply), abuse, mid, now, then', to)
    requires Others("abuseipdb", mid, now)
    ensures ToldAddress(reports + [Report("abuseipdb", reply)], lookups, abuse, was, now, from, to)
  {
    hide Asked, ToldZones;
    assert (reports + [Report("abuseipdb", reply)])[..|lookups|] == reports;
  }

  lemma NothingYet()
    ensures InTurn([], [], None, false)
  {
  }

  lemma NothingTold(outcomes: map<string, Reply>, circuits: map<string, B.State>, from: int, to: int)
    ensures Told([], outcomes, circuits, circuits, from, to)
  {
  }

  lemma ToldWithin(reports: seq<Report>, outcomes: map<string, Reply>, was: map<string, B.State>,
                   now: map<string, B.State>, from: int, to: int, start: int, end: int)
    requires Told(reports, outcomes, was, now, from, to) && start <= from && to <= end
    ensures Told(reports, outcomes, was, now, start, end)
  {
    hide Gated, CircuitOf;
    forall r | r in reports ensures Asked(r, outcomes[r.provider], was, now, start, end) {
      AskedWithin(r, outcomes[r.provider], was, now, from, to, start, end);
    }
  }

  lemma AskedWithin(r: Report, outcome: Reply, was: map<string, B.State>, now: map<string, B.State>,
                    from: int, to: int, start: int, end: int)
    requires Asked(r, outcome, was, now, from, to) && start <= from && to <= end
    ensures Asked(r, outcome, was, now, start, end)
  {
    GatedWithin(CircuitOf(was, r.provider), CircuitOf(now, r.provider), !r.reply.CircuitOpen?, Failed(outcome),
                from, to, start, end);
  }

  lemma ToldAddressWithin(reports: seq<Report>, lookups: seq<Lookup>, abuse: Reply, was: map<string, B.State>,
                          now: map<string, B.State>, from: int, to: int, start: int, end: int)
    requires ToldAddress(reports, lookups, abuse, was, now, from, to) && start <= from && to <= end
    ensures ToldAddress(reports, lookups, abuse, was, now, start, end)
  {
    hide Gated, CircuitOf, Asked;
    if reports == [] {
    } else if |reports| <= |lookups| {
      ToldZonesWithin(reports, lookups, was, now, from, to, start, end);
    } else {
      var zones := reports[..|lookups|];
      var mid, t :| && from <= t <= to && ToldZones(zones, lookups, was, mid, from, t)
                    && Asked(reports[|lookups|], abuse, mid, now, t, to) && Others("abuseipdb", mid, now);
      ToldZonesWithin(zones, lookups, was, mid, from, t, start, t);
      AskedWithin(reports[|lookups|], abuse, mid, now, t, to, t, end);
    }
  }

  lemma ToldZonesWithin(reports: seq<Report>, lookups: seq<Lookup>, was: map<string, B.State>,
                        now: map<string, B.State>, from: int, to: int, start: int, end: int)
    requires ToldZones(reports, lookups, was, now, from, to) && start <= from && to <= end
    ensures ToldZones(reports, lookups, was, now, start, end)
  {
    GatedWithin(CircuitOf(was, "dnsbl"), CircuitOf(now, "dnsbl"), !reports[0].reply.CircuitOpen?, ZonesFail(reports),
                from, to, start, end);
  }

  lemma NothingToldAddress(lookups: seq<Lookup>, abuse: Reply, circuits: map<string, B.State>, from: int, to: int)
    ensures ToldAddress([], lookups, abuse, circuits, circuits, from, to)
  {
  }

  lemma NextTold(reports: seq<Report>, order: seq<string>, failed: bool, outcomes: map<string, Reply>,
                 was: map<string, B.State>, mid: map<string, B.State>, now: map<string, B.State>, from: int,
                 then': int, to: int, r: Report)
    requires InTurn(reports, order, None, failed) && r.provider !in order
    requires Told(reports, outcomes, was, mid, from, then') && from <= then' <= to
    requires r.provider in outcomes && Asked(r, outcomes[r.provider], mid, now, then', to)
    requires Others(r.provider, mid, now)
    ensures Told(reports + [r], outcomes, was, now, from, to)
  {
    hide Gated, CircuitOf;
    assert r.provider !in Providers(reports);
    forall q | q in reports + [r] ensures q.provider in outcomes && Asked(q, outcomes[q.provider], was, now, from, to) {
      if q in reports {
        AskedWithin(q, outcomes[q.provider], was, mid, from, then', from, to);
        assert q.provider in Providers(reports);
      } else {
        AskedWithin(q, outcomes[q.provider], mid, now, then', to, from, to);
      }
    }
    forall n | n !in Providers(reports + [r]) ensures CircuitOf(now, n) == CircuitOf(was, n) {
      assert r in reports + [r] && forall q <- reports :: q in reports + [r];
    }
  }

  lemma NextInTurn(reports: seq<Report>, order: seq<string>, failed: bool, name: string, reply: Reply)
    requires InTurn(reports, order, None, failed)
    ensures InTurn(reports + [Report(name, reply)], order + [name], if reply == Said(true) then Some(name) else None,
                   failed || Failed(reply))
  {
    var more := reports + [Report(name, reply)];
    assert more[|reports|] == Report(name, reply);
    assert forall i | 0 <= i < |reports| :: more[i] == reports[i];
  }

  lemma StopsEarly(reports: seq<Report>, order: seq<string>, whole: seq<string>, lister: string, failed: bool)
    requires InTurn(reports, order, Some(lister), failed) && order <= whole
    ensures InTurn(reports, whole, Some(lister), failed)
  {
  }

  lemma InTurnJustifies(reports: seq<Report>, key: string, c: Config, lister: Option<string>, failed: bool)
    requires InTurn(reports, Enabled(c, key), lister, failed)
    ensures lister.Some? ==> Justified(key, ListResult(true, lister.value), Evidence(c, reports))
    ensures lister.None? && !failed ==> Justified(key, ListResult(false, ""), Evidence(c, reports))
    ensures lister.None? && failed ==> exists r :: r in reports && Failed(r.reply)
  {
    hide Enabled;
    var order := Enabled(c, key);
    if lister.None? && !failed {
      forall p | p in order ensures Report(p, Said(false)) in reports {
        var i :| 0 <= i < |order| && order[i] == p;
        assert !Failed(reports[i].reply);
        assert reports[i] == Report(p, Said(false));
      }
      forall r | r in reports ensures r.reply == Said(false) {
        var i :| 0 <= i < |reports| && reports[i] == r;
        assert !Failed(reports[i].reply);
      }
    }
  }

  // ------------------------------------------------------------------------------- answers

  // An answer that is not a failure is remembered at both levels.
  ghost function Concluded(l: ReputationCache.Levels, key: string, a: Answer, now: int, reachable: bool)
    : ReputationCache.Levels
  {
    if a.failed then l
    else AfterSet(l, key, Item(ListResult(a.listed, a.source), now + Lifetime(key, a.listed)), reachable)
  }

  // So what was concluded is found from then on for as long as it is good, whatever the database does;
  // a failure changes nothing.
  lemma ConclusionFound(l: ReputationCache.Levels, key: string, a: Answer, now: int, reachable: bool,
                        t: int, answers: bool)
    requires now <= t
    ensures var m := Concluded(l, key, a, now, reachable);
            if a.failed then m == l
            else
              && (t <= now + Lifetime(key, a.listed) ==>
                    Get(m, key, ListKind, t, answers) == Hit(ListResult(a.listed, a.source)))
              && (reachable && key != "" && t < now + Lifetime(key, a.listed) ==>
                    Get(m.(memory := map[]), key, ListKind, t, true) == Hit(ListResult(a.listed, a.source)))
  {
  }

  // What is remembered comes before asking: if something is, it is the answer, and nobody is asked;
  // otherwise the providers are asked in turn, and the answer is remembered.
  ghost predicate Looked(l: ReputationCache.Levels, after: ReputationCache.Levels, key: string, db: Database,
                         a: Answer, reports: seq<Report>, providers: seq<string>, from: int, to: int)
  {
    exists t :: from <= t <= to &&
      match Get(l, key, ListKind, t, db.readable)
      case Hit(v) => v == ListResult(a.listed, a.source) && !a.failed && reports == []
                     && after == AfterGet(l, key, ListKind, t, db.readable)
      case Miss => && (exists lister: Option<string>, failed :: InTurn(reports, providers, lister, failed) &&
                         a == if lister.Some? then Answer(true, lister.value, false) else Answer(false, "", failed))
                   && after == Concluded(AfterGet(l, key, ListKind, t, db.readable), key, a, to, db.writable)
      case Fault => false
  }

  lemma LookedHit(l: ReputationCache.Levels, key: string, db: Database, v: Value, providers: seq<string>,
                  from: int, t: int, to: int)
    requires from <= t <= to && v.ListResult? && Get(l, key, ListKind, t, db.readable) == Hit(v)
    ensures Looked(l, AfterGet(l, key, ListKind, t, db.readable), key, db, Answer(v.listed, v.source, false), [],
                   providers, from, to)
  {
    hide Get, AfterGet, Concluded;
  }

  lemma LookedMiss(l: ReputationCache.Levels, key: string, db: Database, lister: Option<string>, failed: bool,
                   a: Answer, reports: seq<Report>, providers: seq<string>, from: int, t: int, to: int)
    requires from <= t <= to && Get(l, key, ListKind, t, db.readable) == Miss
             && InTurn(reports, providers, lister, failed)
    requires a == if lister.Some? then Answer(true, lister.value, false) else Answer(false, "", failed)
    ensures Looked(l, Concluded(AfterGet(l, key, ListKind, t, db.readable), key, a, to, db.writable), key, db, a,
                   reports, providers, from, to)
  {
    hide Get, AfterGet, Concluded, InTurn;
  }

  // The same for an age; whether the registry is asked is for its breaker to say.
  ghost predicate LookedAge(l: ReputationCache.Levels, after: ReputationCache.Levels, key: string, db: Database,
                            age: Option<int>, outcome: Option<int>, ttl: int, was: B.State, now: B.State, from: int,
                            to: int)
  {
    exists t :: from <= t <= to &&
      match Get(l, key, AgeKind, t, db.readable)
      case Hit(v) => age.Some? && v == Age(age.value) && now == was
                     && after == AfterGet(l, key, AgeKind, t, db.readable)
      case Miss => && (exists admitted :: Gated(was, now, admitted, outcome.None?, from, to)
                                          && age == if admitted then outcome else None)
                   && var missed := AfterGet(l, key, AgeKind, t, db.readable);
                      after == if age.None? then missed
                               else AfterSet(missed, key, Item(Age(age.value), to + ttl), db.writable)
      case Fault => false
  }

  lemma LookedAgeHit(l: ReputationCache.Levels, key: string, db: Database, age: int, outcome: Option<int>, ttl: int,
                     circuit: B.State, from: int, t: int, to: int)
    requires from <= t <= to && Get(l, key, AgeKind, t, db.readable) == Hit(Age(age))
    ensures LookedAge(l, AfterGet(l, key, AgeKind, t, db.readable), key, db, Some(age), outcome, ttl, circuit,
                      circuit, from, to)
  {
    hide Get, AfterGet;
  }

  lemma LookedAgeMiss(l: ReputationCache.Levels, after: ReputationCache.Levels, key: string, db: Database,
                      outcome: Option<int>, ttl: int, was: B.State, now: B.State, admitted: bool,
                      from: int, t: int, told: int, to: int)
    requires from <= t <= told <= to && Get(l, key, AgeKind, t, db.readable) == Miss
    requires Gated(was, now, admitted, outcome.None?, t, told)
    requires after == var missed := AfterGet(l, key, AgeKind, t, db.readable);
                      if admitted && outcome.Some?
                      then AfterSet(missed, key, Item(Age(outcome.value), to + ttl), db.writable) else missed
    ensures LookedAge(l, after, key, db, if admitted then outcome else None, outcome, ttl, was, now, from, to)
  {
    hide Get, AfterGet, AfterSet, Gated;
    GatedWithin(was, now, admitted, outcome.None?, t, told, from, to);
  }

  // How long an answer is remembered: twelve hours for a listed domain, six for anything else.
  function Lifetime(key: string, listed: bool): int {
    if listed && !("dnsbl:" <= key) then 12 * HOUR else 6 * HOUR
  }

  function AgeLifetime(c: Config): int {
    if c.rdapTTL <= 0 then 7 * DAY else c.rdapTTL
  }

  // The answer has just been remembered, with its evidence, for its lifetime.
  ghost predicate FoundNow(before: map<Entry, Evidence>, after: map<Entry, Evidence>, key: string, a: Answer,
                           ev: Evidence, now: int)
  {
    after == before[Entry(key, Item(ListResult(a.listed, a.source), now + Lifetime(key, a.listed))) := ev]
  }

  // A failure is not remembered and lists nothing; any other answer rests on an earlier finding, or
  // was found and remembered now.
  ghost predicate Answered(before: map<Entry, Evidence>, after: map<Entry, Evidence>, key: string, a: Answer,
                           ev: Evidence, now: int)
  {
    if a.failed then !a.listed && after == before && exists r :: r in ev.reports && Failed(r.reply)
    else
      || (after == before && exists e :: e in before && Supports(e, key, ListResult(a.listed, a.source), now))
      || FoundNow(before, after, key, a, ev, now)
  }

  // No age is not remembered; any other rests on an earlier finding, or is the registry's and
  // remembered now.
  ghost predicate AgeAnswered(before: map<Entry, Evidence>, after: map<Entry, Evidence>, key: string, age: Option<int>,
                              outcome: Option<int>, ev: Evidence, ttl: int, now: int)
  {
    if age.None? then after == before
    else
      || (after == before && exists e :: e in before && Supports(e, key, Age(age.value), now))
      || (age == outcome && after == before[Entry(key, Item(Age(age.value), now + ttl)) := ev])
  }

  // An unexpired finding under a key.
  ghost predicate Supports(e: Entry, key: string, v: Value, now: int) {
    e.key == key && e.item.value == v && now <= e.item.expires
  }

  lemma HeldKind(l: Levels, findings: map<Entry, Evidence>, k: string, kind: Kind)
    requires AllIn(l.memory, findings.Keys) && Sound(findings) && KeyOfKind(k, kind)
    ensures k in l.memory ==> OfKind(l.memory[k].value, kind) && Entry(k, l.memory[k]) in findings
  {
    if k in l.memory {
      assert Entry(k, l.memory[k]) in findings.Keys;
      if KeyOfKind(k, ListKind) {
        KindsApart(k);
      }
    }
  }

  lemma KeepsDropped(m: map<string, Item>, k: string, ever: set<Entry>)
    requires AllIn(m, ever)
    ensures AllIn(m - {k}, ever)
  {
  }
}
