/** The two levels of the reputation cache: a map in memory in front of a table that outlives it. */
module ReputationCache {
  import opened Common

  // A provider's answer about a list, or the age of a domain.
  datatype Value = ListResult(listed: bool, source: string) | Age(age: int)

  datatype Kind = ListKind | AgeKind

  predicate OfKind(v: Value, kind: Kind) {
    if kind.ListKind? then v.ListResult? else v.Age?
  }

  datatype Item = Item(value: Value, expires: int)

  datatype Levels = Levels(memory: map<string, Item>, table: map<string, Item>)

  const MEMORY_MAX: nat := 50000

  // -------------------------------------------------------------------- specification of a step

  predicate Fresh(memory: map<string, Item>, k: string, now: int) {
    k in memory && now <= memory[k].expires
  }

  predicate Stored(table: map<string, Item>, k: string, now: int) {
    k in table && now < table[k].expires
  }

  function Remember(memory: map<string, Item>, k: string, item: Item): map<string, Item> {
    (if |memory| > MEMORY_MAX then map[] else memory)[k := item]
  }

  // A lookup finds an answer of the kind asked for, finds none, or comes upon one of the other kind
  // in memory, which is a fault.
  datatype Found = Hit(value: Value) | Miss | Fault

  function Get(l: Levels, k: string, kind: Kind, now: int, reachable: bool): Found {
    if Fresh(l.memory, k, now) then
      if OfKind(l.memory[k].value, kind) then Hit(l.memory[k].value) else Fault
    else if reachable && Stored(l.table, k, now) && OfKind(l.table[k].value, kind) then Hit(l.table[k].value)
    else Miss
  }

  // Expired entries are dropped as they are come upon, and an answer found in the table is
  // remembered until it expires there.
  function AfterGet(l: Levels, k: string, kind: Kind, now: int, reachable: bool): Levels {
    if Fresh(l.memory, k, now) then l
    else
      var memory := l.memory - {k};
      if !reachable then Levels(memory, l.table)
      else if !Stored(l.table, k, now) then Levels(memory, l.table - {k})
      else if !OfKind(l.table[k].value, kind) then Levels(memory, l.table)
      else Levels(Remember(memory, k, l.table[k]), l.table)
  }

  function AfterSet(l: Levels, k: string, item: Item, reachable: bool): Levels {
    Levels(Remember(l.memory, k, item), if reachable && k != "" then l.table[k := item] else l.table)
  }

  // -------------------------------------------------------------------------------- the classes

  class TtlCache {
    var items: map<string, Item>

    constructor ()
      ensures items == map[]
    {
      items := map[];
    }

    method Get(k: string, now: int) returns (r: Option<Value>)
      modifies this
      ensures r == if Fresh(old(items), k, now) then Some(old(items)[k].value) else None
      ensures items == if Fresh(old(items), k, now) then old(items) else old(items) - {k}
    {
      if k !in items || now > items[k].expires {
        items := items - {k};
        return None;
      }
      return Some(items[k].value);
    }

    method Set(k: string, v: Value, now: int, ttl: int)
      modifies this
      ensures items == Remember(old(items), k, Item(v, now + ttl))
    {
      if |items| > MEMORY_MAX {
        items := map[];
      }
      items := items[k := Item(v, now + ttl)];
    }
  }

  // The table, in a database that answers some operations and not others.
  class Store {
    var rows: map<string, Item>

    method GetReputationCache(k: string, now: int, reachable: bool) returns (r: Option<Item>)
      modifies this`rows
      ensures r == if reachable && Stored(old(rows), k, now) then Some(old(rows)[k]) else None
      ensures rows == if reachable && !Stored(old(rows), k, now) then old(rows) - {k} else old(rows)
    {
      if !reachable {
        return None;
      }
      if k !in rows {
        assert rows - {k} == rows;
        return None;
      }
      if now >= rows[k].expires {
        rows := rows - {k};
        return None;
      }
      return Some(rows[k]);
    }

    method PutReputationCache(k: string, v: Value, expires: int, reachable: bool) returns (ok: bool)
      modifies this`rows
      ensures ok == (reachable && k != "")
      ensures rows == if ok then old(rows)[k := Item(v, expires)] else old(rows)
    {
      if k == "" || !reachable {
        return false;
      }
      rows := rows[k := Item(v, expires)];
      return true;
    }
  }

  // ---------------------------------------------------------------------------- runs of both levels

  // Keys of the two kinds of lookup begin differently.
  predicate KeyOfKind(k: string, kind: Kind) {
    match kind
    case ListKind => "dnsbl:" <= k || "domain-listed:" <= k
    case AgeKind => "rdap:" <= k
  }

  lemma KindsApart(k: string)
    requires KeyOfKind(k, ListKind)
    ensures !KeyOfKind(k, AgeKind) && k != ""
  {
    assert k[0] == 'd';
  }

  // Setting or getting, with the database reachable or not; losing what is in memory, as on a restart.
  datatype Op = DoSet(key: string, value: Value, now: int, ttl: int, reachable: bool)
              | DoGet(key: string, kind: Kind, now: int, reachable: bool)
              | Forget

  datatype Entry = Entry(key: string, item: Item)

  // Both levels, the latest set for each key, the latest of those that reached the table, and
  // everything ever set.
  datatype World = World(levels: Levels, latest: map<string, Item>, reached: map<string, Item>, ever: set<Entry>)

  const EMPTY: World := World(Levels(map[], map[]), map[], map[], {})

  function Apply(w: World, op: Op): World {
    match op
    case DoSet(k, v, now, ttl, reachable) =>
      var item := Item(v, now + ttl);
      World(AfterSet(w.levels, k, item, reachable), w.latest[k := item],
            if reachable && k != "" then w.reached[k := item] else w.reached, w.ever + {Entry(k, item)})
    case DoGet(k, kind, now, reachable) => w.(levels := AfterGet(w.levels, k, kind, now, reachable))
    case Forget => w.(levels := w.levels.(memory := map[]))
  }

  function Run(ops: seq<Op>): World {
    if ops == [] then EMPTY else Apply(Run(ops[..|ops| - 1]), ops[|ops| - 1])
  }

  // Each key is set and asked for as what it is.
  predicate WellKinded(op: Op) {
    match op
    case DoSet(k, v, _, _, _) => (v.ListResult? && KeyOfKind(k, ListKind)) || (v.Age? && KeyOfKind(k, AgeKind))
    case DoGet(k, kind, _, _) => KeyOfKind(k, kind)
    case Forget => true
  }

  predicate Timed(op: Op) {
    !op.Forget?
  }

  // The clock never goes back.
  predicate InOrder(ops: seq<Op>) {
    forall i, j | 0 <= i < j < |ops| && Timed(ops[i]) && Timed(ops[j]) :: ops[i].now <= ops[j].now
  }

  // Whatever is held was set, and is of its key's kind.
  ghost predicate Traced(w: World) {
    && AllIn(w.levels.memory, w.ever) && AllIn(w.levels.table, w.ever)
    && (forall e <- w.ever :: KeyOfKind(e.key, if e.item.value.ListResult? then ListKind else AgeKind))
  }

  lemma TracedStart()
    ensures Traced(EMPTY)
  {
  }

  lemma TracedKept(w: World, op: Op)
    requires Traced(w) && WellKinded(op)
    ensures Traced(Apply(w, op))
  {
    hide KeyOfKind, Fresh, OfKind;
    match op {
      case DoSet(k, v, now, ttl, reachable) =>
        var item := Item(v, now + ttl);
        RememberKeeps(w.levels.memory, k, item, w.ever + {Entry(k, item)});
      case DoGet(k, kind, now, reachable) =>
        if k in w.levels.table {
          RememberKeeps(w.levels.memory - {k}, k, w.levels.table[k], w.ever);
        }
      case Forget =>
    }
  }

  ghost predicate AllIn(m: map<string, Item>, ever: set<Entry>) {
    forall k <- m :: Entry(k, m[k]) in ever
  }

  lemma RememberKeeps(m: map<string, Item>, k: string, item: Item, ever: set<Entry>)
    requires AllIn(m, ever) && Entry(k, item) in ever
    ensures AllIn(Remember(m, k, item), ever)
  {
  }

  lemma {:induction false} AlwaysTraced(ops: seq<Op>)
    requires forall op <- ops :: WellKinded(op)
    ensures Traced(Run(ops))
  {
    hide Traced, WellKinded, Apply;
    TracedStart();
    if ops != [] {
      AlwaysTraced(ops[..|ops| - 1]);
      TracedKept(Run(ops[..|ops| - 1]), ops[|ops| - 1]);
    }
  }

  // Whatever fails and however often memory is lost, a lookup never comes upon the wrong kind, and
  // what it finds was set under its key and has not expired.
  lemma HitWasSet(ops: seq<Op>, k: string, kind: Kind, now: int, reachable: bool)
    requires (forall op <- ops :: WellKinded(op)) && KeyOfKind(k, kind)
    ensures var w := Run(ops); var r := Get(w.levels, k, kind, now, reachable);
            && !r.Fault?
            && (r.Hit? ==> OfKind(r.value, kind) && exists item: Item ::
                  Entry(k, item) in w.ever && item.value == r.value && now <= item.expires)
  {
    AlwaysTraced(ops);
    var w := Run(ops);
    if KeyOfKind(k, ListKind) {
      KindsApart(k);
    }
    if Fresh(w.levels.memory, k, now) {
      assert Entry(k, w.levels.memory[k]) in w.ever;
    } else if Stored(w.levels.table, k, now) {
      assert Entry(k, w.levels.table[k]) in w.ever;
    }
  }

  // Memory holds the latest set for a key, or the latest that reached the table; the table holds the
  // latter only, and all of those that have not expired.
  ghost predicate Follows(w: World, now: int) {
    && (forall k <- w.levels.memory ::
          IsItem(w.latest, k, w.levels.memory[k]) || IsItem(w.reached, k, w.levels.memory[k]))
    && (forall k <- w.levels.table :: IsItem(w.reached, k, w.levels.table[k]))
    && (forall k <- w.reached :: now < w.reached[k].expires ==> k in w.levels.table)
    && w.reached.Keys <= w.latest.Keys
    && AllIn(w.latest, w.ever) && AllIn(w.reached, w.ever)
  }

  predicate IsItem(m: map<string, Item>, k: string, item: Item) {
    k in m && m[k] == item
  }

  lemma FollowsStart(now: int)
    ensures Follows(EMPTY, now)
  {
  }

  lemma FollowsLater(w: World, now: int, later: int)
    requires Follows(w, now) && now <= later
    ensures Follows(w, later)
  {
  }

  lemma FollowsKept(w: World, op: Op, now: int)
    requires Follows(w, now) && WellKinded(op) && (Timed(op) ==> op.now == now)
    ensures Follows(Apply(w, op), now)
  {
    hide KeyOfKind, OfKind, Follows, AfterSet, AfterGet;
    match op {
      case DoSet(_, _, _, _, _) => SetFollows(w, op, now);
      case DoGet(k, kind, _, reachable) => GetFollows(w, k, kind, now, reachable);
      case Forget => ForgetFollows(w, now);
    }
  }

  lemma SetFollows(w: World, op: Op, now: int)
    requires Follows(w, now) && op.DoSet?
    ensures Follows(Apply(w, op), now)
  {
  }

  lemma GetFollows(w: World, k: string, kind: Kind, now: int, reachable: bool)
    requires Follows(w, now)
    ensures Follows(w.(levels := AfterGet(w.levels, k, kind, now, reachable)), now)
  {
    hide OfKind;
  }

  lemma ForgetFollows(w: World, now: int)
    requires Follows(w, now)
    ensures Follows(w.(levels := w.levels.(memory := map[])), now)
  {
  }

  lemma {:induction false} AlwaysFollows(ops: seq<Op>, now: int)
    requires (forall op <- ops :: WellKinded(op)) && InOrder(ops) && forall op <- ops :: Timed(op) ==> op.now <= now
    ensures Follows(Run(ops), now)
  {
    hide Follows, WellKinded, Apply;
    FollowsStart(now);
    if ops != [] {
      var front, op := ops[..|ops| - 1], ops[|ops| - 1];
      var at := if Timed(op) then op.now else now;
      AlwaysFollows(front, at);
      FollowsKept(Run(front), op, at);
      FollowsLater(Run(ops), at, now);
    }
  }

  // What a map to items answers: the item's value until it expires.
  function Kept(m: map<string, Item>, k: string, now: int): Found {
    if k in m && now < m[k].expires then Hit(m[k].value) else Miss
  }

  // A value set under a key is of the kind its key is asked for.
  lemma SetOfKind(w: World, k: string, item: Item, kind: Kind)
    requires Traced(w) && Entry(k, item) in w.ever && KeyOfKind(k, kind)
    ensures OfKind(item.value, kind)
  {
    if KeyOfKind(k, ListKind) {
      KindsApart(k);
    }
  }

  // Whatever has failed before, once memory is lost the table is one map: to the latest set for each
  // key of those that reached it.
  lemma {:induction false} AfterLoss(ops: seq<Op>, k: string, kind: Kind, now: int)
    requires (forall op <- ops :: WellKinded(op)) && InOrder(ops) && forall op <- ops :: Timed(op) ==> op.now <= now
    requires KeyOfKind(k, kind)
    ensures var w := Run(ops + [Forget]);
            && Get(w.levels, k, kind, now, true) == Kept(w.reached, k, now)
            && Get(w.levels, k, kind, now, false) == Miss
            && w.latest == Run(ops).latest && w.reached == Run(ops).reached
  {
    AlwaysFollows(ops, now);
    AlwaysTraced(ops);
    var w := Run(ops);
    assert (ops + [Forget])[..|ops|] == ops;
    assert Run(ops + [Forget]) == Apply(w, Forget);
    if k in w.reached {
      SetOfKind(w, k, w.reached[k], kind);
    }
  }

  // So, exactly when the latest set that reached the table is still unexpired and not the value of
  // the latest set, does a lookup come back with another value once memory is lost.
  lemma StaleAfterLossIff(ops: seq<Op>, k: string, kind: Kind, now: int)
    requires (forall op <- ops :: WellKinded(op)) && InOrder(ops) && forall op <- ops :: Timed(op) ==> op.now <= now
    requires KeyOfKind(k, kind)
    ensures var w, r := Run(ops), Get(Run(ops + [Forget]).levels, k, kind, now, true);
            && r == Kept(w.reached, k, now) && w.reached.Keys <= w.latest.Keys
            && ((r.Hit? && !(k in w.latest && r.value == w.latest[k].value)) <==>
                k in w.reached && now < w.reached[k].expires && w.reached[k].value != w.latest[k].value)
  {
    AlwaysFollows(ops, now);
    AfterLoss(ops, k, kind, now);
  }

  // What has been found is found again until it expires, even if the database no longer answers.
  lemma FoundAgain(l: Levels, k: string, kind: Kind, now: int, reachable: bool, later: int)
    requires Get(l, k, kind, now, reachable).Hit?
    ensures var m := AfterGet(l, k, kind, now, reachable);
            && k in m.memory && now <= m.memory[k].expires
            && (later <= m.memory[k].expires ==>
                  Get(m, k, kind, later, false) == Get(l, k, kind, now, reachable))
  {
  }

  // What has expired is dropped as it is come upon, and nothing else is; the table, only if it can be
  // reached.
  lemma ExpiredDropped(l: Levels, k: string, kind: Kind, now: int, reachable: bool)
    ensures var m := AfterGet(l, k, kind, now, reachable);
            && (k in m.memory ==> now <= m.memory[k].expires)
            && (forall j | j != k :: IsKept(l.table, m.table, j))
            && (k in l.table && (!reachable || Fresh(l.memory, k, now) || now < l.table[k].expires) ==>
                  IsKept(l.table, m.table, k))
            && (reachable && !Fresh(l.memory, k, now) && k in m.table ==> now < m.table[k].expires)
            && (Get(l, k, kind, now, reachable).Miss? ==>
                  k !in m.memory && forall j | j != k :: IsKept(l.memory, m.memory, j))
  {
  }

  predicate IsKept(before: map<string, Item>, after: map<string, Item>, k: string) {
    (k in before <==> k in after) && (k in before ==> after[k] == before[k])
  }

  // Memory never holds more than one key above its limit.
  lemma {:induction false} MemoryBounded(ops: seq<Op>)
    ensures |Run(ops).levels.memory| <= 50_001
  {
    if ops != [] {
      var w, op := Run(ops[..|ops| - 1]), ops[|ops| - 1];
      MemoryBounded(ops[..|ops| - 1]);
      match op {
        case DoSet(k, v, now, ttl, _) => RememberBounded(w.levels.memory, k, Item(v, now + ttl));
        case DoGet(k, _, _, _) =>
          KeysBound(w.levels.memory - {k}, w.levels.memory);
          if k in w.levels.table {
            RememberBounded(w.levels.memory - {k}, k, w.levels.table[k]);
          }
        case Forget =>
      }
    }
  }

  lemma RememberBounded(m: map<string, Item>, k: string, item: Item)
    ensures |Remember(m, k, item)| <= 50_001
  {
  }

  // Memory holds the latest set of every key until it expires.
  ghost predicate Held(w: World, now: int) {
    && w.levels.memory.Keys <= w.latest.Keys
    && forall k <- w.latest :: now <= w.latest[k].expires ==> IsItem(w.levels.memory, k, w.latest[k])
  }

  lemma HeldKept(w: World, op: Op, now: int)
    requires Held(w, now) && Follows(w, now) && !op.Forget? && op.now == now && |w.latest| <= 50_000
    ensures Held(Apply(w, op), now)
  {
    hide Held, AfterSet, AfterGet, Follows;
    match op {
      case DoSet(_, _, _, _, _) => SetHeld(w, op, now);
      case DoGet(k, kind, _, reachable) => GetHeld(w, k, kind, now, reachable);
    }
  }

  lemma SetHeld(w: World, op: Op, now: int)
    requires Held(w, now) && op.DoSet? && |w.latest| <= 50_000
    ensures Held(Apply(w, op), now)
  {
    KeysBound(w.levels.memory, w.latest);
  }

  lemma GetHeld(w: World, k: string, kind: Kind, now: int, reachable: bool)
    requires Held(w, now) && Follows(w, now) && |w.latest| <= 50_000
    ensures Held(w.(levels := AfterGet(w.levels, k, kind, now, reachable)), now)
  {
    hide Held, Follows;
    if !Fresh(w.levels.memory, k, now) {
      DropHeld(w, k, now);
      var dropped := w.(levels := w.levels.(memory := w.levels.memory - {k}));
      OtherTableHeld(dropped, AfterGet(w.levels, k, kind, now, reachable).table, now);
      if reachable && Stored(w.levels.table, k, now) {
        RepopulateHeld(w, k, now);
      }
    }
  }

  lemma DropHeld(w: World, k: string, now: int)
    requires Held(w, now) && !Fresh(w.levels.memory, k, now)
    ensures Held(w.(levels := w.levels.(memory := w.levels.memory - {k})), now)
  {
  }

  lemma OtherTableHeld(w: World, table: map<string, Item>, now: int)
    requires Held(w, now)
    ensures Held(w.(levels := w.levels.(table := table)), now)
  {
  }

  lemma RepopulateHeld(w: World, k: string, now: int)
    requires Held(w, now) && Follows(w, now) && !Fresh(w.levels.memory, k, now) && |w.latest| <= 50_000
    requires k in w.levels.table
    ensures Held(w.(levels := w.levels.(memory := Remember(w.levels.memory - {k}, k, w.levels.table[k]))), now)
  {
    KeysBound(w.levels.memory - {k}, w.latest);
  }

  lemma KeysBound(m: map<string, Item>, n: map<string, Item>)
    requires m.Keys <= n.Keys
    ensures |m| <= |n|
  {
    assert |m.Keys| == |m| && |n.Keys| == |n|;
    var rest := n.Keys - m.Keys;
    assert n.Keys == m.Keys + rest;
  }

  lemma {:induction false} AlwaysHeld(ops: seq<Op>, now: int)
    requires (forall op <- ops :: WellKinded(op) && !op.Forget?) && InOrder(ops) && forall op <- ops :: op.now <= now
    requires |Run(ops).latest| <= 50_000
    ensures Held(Run(ops), now)
  {
    hide Follows, WellKinded, Held;
    if ops == [] {
      NothingHeld(now);
    } else {
      var front, op := ops[..|ops| - 1], ops[|ops| - 1];
      LatestGrows(Run(front), op);
      AlwaysHeld(front, op.now);
      AlwaysFollows(front, op.now);
      HeldKept(Run(front), op, op.now);
      HeldLater(Run(ops), op.now, now);
    }
  }

  lemma NothingHeld(now: int)
    ensures Held(EMPTY, now)
  {
  }

  lemma HeldLater(w: World, now: int, later: int)
    requires Held(w, now) && now <= later
    ensures Held(w, later)
  {
  }

  lemma LatestGrows(w: World, op: Op)
    ensures |w.latest| <= |Apply(w, op).latest|
  {
    KeysBound(w.latest, Apply(w, op).latest);
  }

  // Memory alone answers, whatever the database does: as long as it is not lost and no more than fifty
  // thousand keys have been set, the latest set of each is found until it expires.
  lemma {:induction false} MemoryAnswers(ops: seq<Op>, k: string, kind: Kind, now: int, reachable: bool)
    requires (forall op <- ops :: WellKinded(op) && !op.Forget?) && InOrder(ops) && forall op <- ops :: op.now <= now
    requires |Run(ops).latest| <= 50_000 && KeyOfKind(k, kind)
    ensures var w := Run(ops);
            k in w.latest && now <= w.latest[k].expires ==>
              Get(w.levels, k, kind, now, reachable) == Hit(w.latest[k].value)
  {
    AlwaysHeld(ops, now);
    AlwaysTraced(ops);
    AlwaysFollows(ops, now);
    var w := Run(ops);
    if k in w.latest {
      SetOfKind(w, k, w.latest[k], kind);
    }
  }

  // Nor does it take a loss of memory: once the latest set has expired, what a lookup finds is an
  // older answer, the latest that reached the table, and while that has not expired it is found.
  lemma {:induction false} AfterExpiry(ops: seq<Op>, k: string, kind: Kind, now: int)
    requires (forall op <- ops :: WellKinded(op)) && InOrder(ops) && forall op <- ops :: Timed(op) ==> op.now <= now
    requires KeyOfKind(k, kind)
    requires k in Run(ops).latest && Run(ops).latest[k].expires < now
    ensures var w := Run(ops); var r := Get(w.levels, k, kind, now, true);
            && (r.Hit? ==> HasValue(w.reached, k, r.value, now) && w.reached[k] != w.latest[k])
            && (k in w.reached && now != w.reached[k].expires ==> r == Kept(w.reached, k, now))
  {
    AlwaysFollows(ops, now);
    AlwaysTraced(ops);
    var w := Run(ops);
    if k in w.reached {
      SetOfKind(w, k, w.reached[k], kind);
    }
    HitIsLatestOrReached(ops, k, kind, now, true);
  }

  // Whatever has failed and however often memory was lost: what a lookup finds is the latest set for
  // the key or the latest that reached the table, and has not expired; while the table can be
  // reached, it finds the latter at least.
  lemma {:induction false} HitIsLatestOrReached(ops: seq<Op>, k: string, kind: Kind, now: int, reachable: bool)
    requires (forall op <- ops :: WellKinded(op)) && InOrder(ops) && forall op <- ops :: Timed(op) ==> op.now <= now
    requires KeyOfKind(k, kind)
    ensures var w := Run(ops); var r := Get(w.levels, k, kind, now, reachable);
            && !r.Fault?
            && (r.Hit? ==> HasValue(w.latest, k, r.value, now) || HasValue(w.reached, k, r.value, now))
            && (reachable && Kept(w.reached, k, now).Hit? ==> r.Hit?)
  {
    AlwaysFollows(ops, now);
    AlwaysTraced(ops);
    var w := Run(ops);
    if k in w.latest {
      SetOfKind(w, k, w.latest[k], kind);
    }
    if k in w.reached {
      SetOfKind(w, k, w.reached[k], kind);
    }
  }

  predicate HasValue(m: map<string, Item>, k: string, v: Value, now: int) {
    k in m && m[k].value == v && now <= m[k].expires
  }

  // The last set for a key, if there is any, found the database answering.
  predicate LastReached(ops: seq<Op>, k: string) {
    if ops == [] then true else
    var op := ops[|ops| - 1];
    if op.DoSet? && op.key == k then op.reachable else LastReached(ops[..|ops| - 1], k)
  }

  lemma {:induction false} LastReachedAgrees(ops: seq<Op>, k: string)
    requires LastReached(ops, k) && k != ""
    ensures var w := Run(ops); Agree(w.latest, w.reached, k)
  {
    if ops != [] {
      var op := ops[|ops| - 1];
      if !(op.DoSet? && op.key == k) {
        LastReachedAgrees(ops[..|ops| - 1], k);
      }
    }
  }

  predicate Agree(m: map<string, Item>, n: map<string, Item>, k: string) {
    (k in m <==> k in n) && (k in m ==> m[k] == n[k])
  }

  // If the database answered when a key was last set, then whatever failed before or elsewhere, the
  // two levels are for this key one map to the latest set, across losses of memory: what is found is
  // its value, not after it expires; and before it expires it is found.
  lemma {:induction false} RefinesOneMap(ops: seq<Op>, k: string, kind: Kind, now: int, reachable: bool)
    requires (forall op <- ops :: WellKinded(op)) && InOrder(ops) && forall op <- ops :: Timed(op) ==> op.now <= now
    requires KeyOfKind(k, kind) && LastReached(ops, k)
    ensures var w := Run(ops); var r := Get(w.levels, k, kind, now, reachable);
            && !r.Fault?
            && (r.Hit? ==> HasValue(w.latest, k, r.value, now))
            && (reachable && k in w.latest && now < w.latest[k].expires ==> r == Hit(w.latest[k].value))
  {
    hide Get, Run, WellKinded, InOrder, KeyOfKind;
    NotEmptyKey(k, kind);
    LastReachedAgrees(ops, k);
    HitIsLatestOrReached(ops, k, kind, now, reachable);
  }

  lemma NotEmptyKey(k: string, kind: Kind)
    requires KeyOfKind(k, kind)
    ensures k != ""
  {
  }

  // Otherwise an older answer can come back, by a loss of memory or by the expiry of the newer one
  // there: the shortest runs in which it does.
  lemma MissedSetComesBack(k: string, old1: Value, new2: Value)
    requires KeyOfKind(k, ListKind) && old1.ListResult? && new2.ListResult? && old1 != new2
    ensures var ops := MissedSet(k, old1, new2); var w := Run(ops + [Forget]);
            && (forall op <- ops :: WellKinded(op)) && InOrder(ops)
            && Get(w.levels, k, ListKind, 2, true) == Hit(old1)
            && Get(Run(ops).levels, k, ListKind, 50, true) == Hit(old1)
            && k in w.latest && w.latest[k].value == new2
  {
    hide KeyOfKind, AfterSet, Get;
    NotEmptyKey(k, ListKind);
    var ops := MissedSet(k, old1, new2);
    RunTwo(ops[0], ops[1]);
    assert Run(ops).reached == map[k := Item(old1, 100)] && Run(ops).latest == map[k := Item(new2, 11)];
    AfterLoss(ops, k, ListKind, 2);
    AfterExpiry(ops, k, ListKind, 50);
  }

  lemma RunTwo(a: Op, b: Op)
    ensures Run([a, b]) == Apply(Apply(EMPTY, a), b)
  {
    hide Apply;
    assert [a, b][..1] == [a] && [a][..0] == [];
    assert Run([a]) == Apply(Run([]), a);
  }

  function MissedSet(k: string, old1: Value, new2: Value): seq<Op> {
    [DoSet(k, old1, 0, 100, true), DoSet(k, new2, 1, 10, false)]
  }
}
