/**
 The discovery cache: a local copy of the registry, rebuilt from a snapshot after
 every reconnect and then kept up to date entry by entry. Whatever happens to it is
 published as Upsert and Remove events.
 */
module Discovery {
  import opened Ordering

  datatype Registration = Registration(fields: string)

  type Cache = map<string, Registration>

  datatype Op = Put(value: string) | Delete | Purge

  datatype Entry = Entry(key: string, op: Op)

  datatype Event = Upsert(key: string, registration: Registration) | Remove(key: string)

  /** Registrations are decoded from bytes; malformed ones have no decoding. */
  type Decoder = string -> Option<Registration>

  /** What one connection delivers: nothing, a snapshot that breaks off, or a snapshot and then live entries. */
  datatype Session =
    | NoWatch
    | Broken(snapshot: seq<Entry>)
    | Watched(snapshot: seq<Entry>, live: seq<Entry>)

  /** The effect of one entry; a malformed one is skipped. */
  function ApplyEntry(decode: Decoder, m: Cache, e: Entry): (Cache, Option<Event>) {
    match e.op
    case Put(value) =>
      var reg := decode(value);
      if reg.None? then (m, None)
      else (m[e.key := reg.value], if e.key in m && m[e.key] == reg.value then None else Some(Upsert(e.key, reg.value)))
    case _ => if e.key in m then (m - {e.key}, Some(Remove(e.key))) else (m, None)
  }

  /** What the registry holds after a history of entries, malformed ones left out. */
  function Fold(decode: Decoder, m: Cache, entries: seq<Entry>): Cache
    decreases |entries|
  {
    if entries == [] then m else Fold(decode, ApplyEntry(decode, m, entries[0]).0, entries[1..])
  }

  /** A subscriber's copy after one event. */
  function Follow(m: Cache, e: Event): Cache {
    match e
    case Upsert(key, reg) => m[key := reg]
    case Remove(key) => m - {key}
  }

  function FollowAll(m: Cache, events: seq<Event>): Cache
    decreases |events|
  {
    if events == [] then m else FollowAll(Follow(m, events[0]), events[1..])
  }

  /** Every event changes the copy of a subscriber that followed the ones before it. */
  ghost predicate NoIdleEvents(m: Cache, events: seq<Event>)
    decreases |events|
  {
    events == [] || (Follow(m, events[0]) != m && NoIdleEvents(Follow(m, events[0]), events[1..]))
  }

  /** `events` take a copy of `m` to `m'`, each of them changing it. */
  ghost predicate Leads(m: Cache, events: seq<Event>, m': Cache) {
    FollowAll(m, events) == m' && NoIdleEvents(m, events)
  }

  lemma {:induction false} LeadsOn(m: Cache, events: seq<Event>, m': Cache, e: Event)
    requires Leads(m, events, m') && Follow(m', e) != m'
    ensures Leads(m, events + [e], Follow(m', e))
    decreases |events|
  {
    if events == [] {
      assert [e][1..] == [];
    } else {
      assert (events + [e])[1..] == events[1..] + [e];
      LeadsOn(Follow(m, events[0]), events[1..], m', e);
    }
  }

  /** An entry publishes an event exactly when it changes the cache, and the event says how. */
  lemma EntryPublishes(decode: Decoder, m: Cache, e: Entry)
    ensures var (m', event) := ApplyEntry(decode, m, e);
            (event.None? <==> m' == m) && (event.Some? ==> Follow(m, event.value) == m')
  {
    var (m', event) := ApplyEntry(decode, m, e);
    if event.Some? && event.value.Upsert? { assert m'[e.key] == event.value.registration; }
  }

  lemma {:induction false} FoldAppend(decode: Decoder, m: Cache, a: seq<Entry>, b: seq<Entry>)
    ensures Fold(decode, m, a + b) == Fold(decode, Fold(decode, m, a), b)
    decreases |a|
  {
    if a == [] {
      assert a + b == b;
    } else {
      assert (a + b)[1..] == a[1..] + b;
      FoldAppend(decode, ApplyEntry(decode, m, a[0]).0, a[1..], b);
    }
  }

  /** What the last entry for a key says, malformed ones not counted. */
  function Latest(decode: Decoder, entries: seq<Entry>, key: string): Option<Registration> {
    if entries == [] then None
    else
      var e := entries[|entries| - 1];
      if e.key != key || (e.op.Put? && decode(e.op.value).None?) then Latest(decode, entries[..|entries| - 1], key)
      else if e.op.Put? then decode(e.op.value)
      else None
  }

  /** The registry's contents are, key by key, what its last well-formed entry says. */
  lemma {:induction false} FoldIsLatest(decode: Decoder, entries: seq<Entry>, key: string)
    ensures var m := Fold(decode, map[], entries);
            Latest(decode, entries, key) == if key in m then Some(m[key]) else None
  {
    if entries != [] {
      var init, last := entries[..|entries| - 1], entries[|entries| - 1];
      assert entries == init + [last];
      FoldAppend(decode, map[], init, [last]);
      assert [last][1..] == [];
      FoldIsLatest(decode, init, key);
    }
  }

  /** The cache after a session: untouched by a failed one, otherwise everything the watch delivered. */
  function AfterSession(decode: Decoder, m: Cache, s: Session): Cache {
    if s.Watched? then Fold(decode, map[], s.snapshot + s.live) else m
  }

  function AfterSessions(decode: Decoder, m: Cache, sessions: seq<Session>): Cache
    decreases |sessions|
  {
    if sessions == [] then m else AfterSessions(decode, AfterSession(decode, m, sessions[0]), sessions[1..])
  }

  // ---------------------------------------------------------------------
  // The difference between two caches, keys in any order
  // ---------------------------------------------------------------------

  /** The keys whose registration is new or has changed. */
  function Changed(m: Cache, staging: Cache): set<string> {
    set k | k in staging && !(k in m && m[k] == staging[k])
  }

  /** `m` with the changes of `staging` made, except for `todo`. */
  ghost function Partly(m: Cache, staging: Cache, todo: set<string>): Cache {
    map k | k in staging && (k in m || k !in todo) :: if k in todo then m[k] else staging[k]
  }

  /** `m` without what `staging` has dropped, except for `todo`. */
  ghost function Trimmed(m: Cache, staging: Cache, todo: set<string>): Cache {
    map k | k in m && (k in staging || k in todo) :: m[k]
  }

  lemma RemoveStep(m: Cache, staging: Cache, todo: set<string>, k: string)
    requires k in todo && todo <= m.Keys - staging.Keys
    ensures var copy := Trimmed(m, staging, todo);
            Follow(copy, Remove(k)) == Trimmed(m, staging, todo - {k}) && Follow(copy, Remove(k)) != copy
  {
    assert k in Trimmed(m, staging, todo);
  }

  lemma AllTrimmed(m: Cache, staging: Cache)
    ensures Trimmed(m, staging, m.Keys - staging.Keys) == m
    ensures Trimmed(m, staging, {}) == Partly(m, staging, Changed(m, staging))
  {}

  method Removals(m: Cache, staging: Cache) returns (events: seq<Event>)
    ensures Leads(m, events, Partly(m, staging, Changed(m, staging)))
    ensures |events| == |m.Keys - staging.Keys|
  {
    events := [];
    var todo := m.Keys - staging.Keys;
    AllTrimmed(m, staging);
    while todo != {}
      invariant todo <= m.Keys - staging.Keys && |events| == |m.Keys - staging.Keys| - |todo|
      invariant Leads(m, events, Trimmed(m, staging, todo))
      decreases |todo|
    {
      var k :| k in todo;
      RemoveStep(m, staging, todo, k);
      LeadsOn(m, events, Trimmed(m, staging, todo), Remove(k));
      events, todo := events + [Remove(k)], todo - {k};
    }
  }

  method Upserts(m: Cache, staging: Cache, removals: seq<Event>) returns (events: seq<Event>)
    requires Leads(m, removals, Partly(m, staging, Changed(m, staging)))
    ensures Leads(m, events, staging)
    ensures |events| == |removals| + |Changed(m, staging)|
  {
    events := removals;
    var todo := Changed(m, staging);
    while todo != {}
      invariant todo <= Changed(m, staging) && |events| == |removals| + |Changed(m, staging)| - |todo|
      invariant Leads(m, events, Partly(m, staging, todo))
      decreases |todo|
    {
      var k :| k in todo;
      UpsertStep(m, staging, todo, k);
      LeadsOn(m, events, Partly(m, staging, todo), Upsert(k, staging[k]));
      events, todo := events + [Upsert(k, staging[k])], todo - {k};
    }
    assert Partly(m, staging, {}) == staging;
  }

  lemma UpsertStep(m: Cache, staging: Cache, todo: set<string>, k: string)
    requires k in todo && todo <= Changed(m, staging)
    ensures var copy := Partly(m, staging, todo);
            Follow(copy, Upsert(k, staging[k])) == Partly(m, staging, todo - {k}) && Follow(copy, Upsert(k, staging[k])) != copy
  {
    var copy := Partly(m, staging, todo);
    assert k in copy ==> copy[k] != staging[k];
    assert copy[k := staging[k]][k] == staging[k];
  }

  class DiscoveryCache {
    const decode: Decoder
    var cache: Cache
    var published: seq<Event>

    constructor (decode: Decoder)
      ensures this.decode == decode && cache == map[] && published == []
    {
      this.decode, cache, published := decode, map[], [];
    }

    /** Collect the snapshot away from the cache that readers see. */
    method Stage(entries: seq<Entry>) returns (staging: Cache)
      ensures staging == Fold(decode, map[], entries)
    {
      staging := map[];
      for i := 0 to |entries|
        invariant staging == Fold(decode, map[], entries[..i])
      {
        assert entries[..i + 1] == entries[..i] + [entries[i]];
        FoldAppend(decode, map[], entries[..i], [entries[i]]);
        assert [entries[i]][1..] == [];
        staging := ApplyEntry(decode, staging, entries[i]).0;
      }
      assert entries[..|entries|] == entries;
    }

    /** Replace the cache in one go and publish the difference. */
    method Swap(staging: Cache)
      modifies this
      ensures cache == staging && old(published) <= published
      ensures Leads(old(cache), published[|old(published)|..], cache)
    {
      var events := Removals(cache, staging);
      events := Upserts(cache, staging, events);
      assert (published + events)[|published|..] == events;
      cache, published := staging, published + events;
    }

    /** Apply live entries to the cache one by one, publishing each change. */
    method Live(entries: seq<Entry>)
      modifies this
      ensures cache == Fold(decode, old(cache), entries)
      ensures old(published) <= published
      ensures Leads(old(cache), published[|old(published)|..], cache)
    {
      ghost var n := |published|;
      for i := 0 to |entries|
        invariant cache == Fold(decode, old(cache), entries[..i])
        invariant n <= |published| && published[..n] == old(published)
        invariant Leads(old(cache), published[n..], cache)
      {
        assert entries[..i + 1] == entries[..i] + [entries[i]];
        FoldAppend(decode, old(cache), entries[..i], [entries[i]]);
        assert [entries[i]][1..] == [];
        EntryPublishes(decode, cache, entries[i]);
        var (next, event) := ApplyEntry(decode, cache, entries[i]);
        if event.Some? {
          LeadsOn(old(cache), published[n..], cache, event.value);
          assert (published + [event.value])[n..] == published[n..] + [event.value];
          published := published + [event.value];
        }
        cache := next;
      }
      assert entries[..|entries|] == entries;
    }

    /** One turn of the watch loop. */
    method Watch(s: Session)
      modifies this
      ensures cache == AfterSession(decode, old(cache), s) && old(published) <= published
      ensures Leads(old(cache), published[|old(published)|..], cache)
    {
      match s
      case NoWatch =>
      case Broken(snapshot) => var _ := Stage(snapshot);
      case Watched(snapshot, live) =>
        FoldAppend(decode, map[], snapshot, live);
        var staging := Stage(snapshot);
        Swap(staging);
        ghost var mid, before := cache, published;
        Live(live);
        LeadsThrough(old(cache), before[|old(published)|..], mid, published[|before|..], cache);
        assert published[|old(published)|..] == before[|old(published)|..] + published[|before|..];
    }

    /** Any number of reconnects. */
    method WatchLoop(sessions: seq<Session>)
      modifies this
      ensures cache == AfterSessions(decode, old(cache), sessions) && old(published) <= published
      ensures Leads(old(cache), published[|old(published)|..], cache)
    {
      for i := 0 to |sessions|
        invariant AfterSessions(decode, cache, sessions[i..]) == AfterSessions(decode, old(cache), sessions)
        invariant old(published) <= published && Leads(old(cache), published[|old(published)|..], cache)
      {
        ghost var mid, before := cache, published;
        Watch(sessions[i]);
        assert sessions[i..][1..] == sessions[i + 1..];
        LeadsThrough(old(cache), before[|old(published)|..], mid, published[|before|..], cache);
        assert published[|old(published)|..] == before[|old(published)|..] + published[|before|..];
      }
    }
  }

  lemma {:induction false} LeadsThrough(m: Cache, a: seq<Event>, mid: Cache, b: seq<Event>, m': Cache)
    requires Leads(m, a, mid) && Leads(mid, b, m')
    ensures Leads(m, a + b, m')
    decreases |a|
  {
    if a == [] {
      assert a + b == b;
    } else {
      assert (a + b)[1..] == a[1..] + b;
      LeadsThrough(Follow(m, a[0]), a[1..], mid, b, m');
    }
  }

  /** Where the settle timeout cuts the watch into snapshot and live entries makes no difference. */
  lemma SplitIndependent(decode: Decoder, m: Cache, entries: seq<Entry>, i: nat, j: nat)
    requires i <= |entries| && j <= |entries|
    ensures AfterSession(decode, m, Watched(entries[..i], entries[i..])) == AfterSession(decode, m, Watched(entries[..j], entries[j..]))
  {
    assert entries[..i] + entries[i..] == entries == entries[..j] + entries[j..];
  }
}
