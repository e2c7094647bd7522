/**
 The gateway's semantic pipeline: trades are published once, and a position that
 drops out of the venue's snapshot is published as zero.
 */
module SemanticPipeline {
  import opened Ordering
  import opened PositionKeys

  // ---------------------------------------------------------------------
  // Order reports
  // ---------------------------------------------------------------------

  datatype Entry = Trade(tradeId: string, details: int) | Untracked(content: int)

  /** A trade whose id is known already. A trade without an id is never held back. */
  predicate Seen(seen: set<string>, e: Entry) {
    e.Trade? && e.tradeId != "" && e.tradeId in seen
  }

  function IdOf(e: Entry): set<string> {
    if e.Trade? && e.tradeId != "" then {e.tradeId} else {}
  }

  function Ids(entries: seq<Entry>): set<string> {
    if entries == [] then {} else IdOf(entries[0]) + Ids(entries[1..])
  }

  /** The entries left after dropping trades seen before. */
  function Fresh(seen: set<string>, entries: seq<Entry>): seq<Entry>
    decreases |entries|
  {
    if entries == [] then []
    else if Seen(seen, entries[0]) then Fresh(seen, entries[1..])
    else [entries[0]] + Fresh(seen + IdOf(entries[0]), entries[1..])
  }

  ghost function Flatten(reports: seq<seq<Entry>>): seq<Entry> {
    if reports == [] then [] else reports[0] + Flatten(reports[1..])
  }

  lemma {:induction false} FreshAppend(seen: set<string>, a: seq<Entry>, b: seq<Entry>)
    ensures Fresh(seen, a + b) == Fresh(seen, a) + Fresh(seen + Ids(a), b)
    decreases |a|
  {
    if a == [] {
      assert a + b == b && seen + Ids(a) == seen;
    } else {
      assert (a + b)[1..] == a[1..] + b;
      var next := if Seen(seen, a[0]) then seen else seen + IdOf(a[0]);
      FreshAppend(next, a[1..], b);
      assert next + Ids(a[1..]) == seen + Ids(a);
    }
  }

  /** What is published for each report of a run. */
  ghost function Published(seen: set<string>, reports: seq<seq<Entry>>): seq<seq<Entry>>
    decreases |reports|
  {
    if reports == [] then [] else [Fresh(seen, reports[0])] + Published(seen + Ids(reports[0]), reports[1..])
  }

  /** How the entries are cut into reports makes no difference. */
  lemma {:induction false} CutsDontMatter(seen: set<string>, reports: seq<seq<Entry>>)
    ensures Flatten(Published(seen, reports)) == Fresh(seen, Flatten(reports))
    decreases |reports|
  {
    if reports != [] {
      CutsDontMatter(seen + Ids(reports[0]), reports[1..]);
      FreshAppend(seen, reports[0], Flatten(reports[1..]));
      var rest := Published(seen + Ids(reports[0]), reports[1..]);
      assert ([Fresh(seen, reports[0])] + rest)[1..] == rest;
    }
  }

  ghost function WithId(entries: seq<Entry>, id: string): seq<Entry> {
    if entries == [] then [] else (if id in IdOf(entries[0]) then [entries[0]] else []) + WithId(entries[1..], id)
  }

  ghost function WithoutId(entries: seq<Entry>): seq<Entry> {
    if entries == [] then [] else (if IdOf(entries[0]) == {} then [entries[0]] else []) + WithoutId(entries[1..])
  }

  /** Each trade id not seen before is published exactly once, and it is the first entry with that id. */
  lemma {:induction false} ExactlyOnce(seen: set<string>, entries: seq<Entry>, id: string)
    ensures WithId(Fresh(seen, entries), id) ==
            if id in seen || WithId(entries, id) == [] then [] else [WithId(entries, id)[0]]
    decreases |entries|
  {
    if entries != [] {
      var next := if Seen(seen, entries[0]) then seen else seen + IdOf(entries[0]);
      ExactlyOnce(next, entries[1..], id);
      var rest := Fresh(next, entries[1..]);
      if !Seen(seen, entries[0]) { assert ([entries[0]] + rest)[1..] == rest; }
    }
  }

  /** Everything without a trade id passes through, in order. */
  lemma {:induction false} OthersPass(seen: set<string>, entries: seq<Entry>)
    ensures WithoutId(Fresh(seen, entries)) == WithoutId(entries)
    decreases |entries|
  {
    if entries != [] {
      var next := if Seen(seen, entries[0]) then seen else seen + IdOf(entries[0]);
      OthersPass(next, entries[1..]);
      var rest := Fresh(next, entries[1..]);
      if !Seen(seen, entries[0]) { assert ([entries[0]] + rest)[1..] == rest; }
    }
  }

  // ---------------------------------------------------------------------
  // Positions
  // ---------------------------------------------------------------------

  datatype Fact = Fact(instrument: string, side: I32, qty: real, available: real)

  datatype Report = Report(instrument: string, side: I32, qty: real, available: real)

  type View = map<(string, I32), real>

  function Qty(v: View, instrument: string, side: I32): real {
    if (instrument, side) in v then v[(instrument, side)] else 0.0
  }

  /** A consumer's view after the reports. */
  ghost function Follow(v: View, reports: seq<Report>): View
    decreases |reports|
  {
    if reports == [] then v else Follow(v[(reports[0].instrument, reports[0].side) := reports[0].qty], reports[1..])
  }

  /** The quantity a snapshot gives a position: that of its last fact, or zero if there is none. */
  function SnapshotQty(facts: seq<Fact>, instrument: string, side: I32): real {
    if facts == [] then 0.0
    else
      var f := facts[|facts| - 1];
      if f.instrument == instrument && f.side == side then f.qty else SnapshotQty(facts[..|facts| - 1], instrument, side)
  }

  predicate Mentions(facts: seq<Fact>, instrument: string, side: I32) {
    exists f :: f in facts && f.instrument == instrument && f.side == side
  }

  function KeysOf(facts: seq<Fact>): set<string> {
    set f | f in facts :: Format(f.instrument, f.side)
  }

  function NonZeroKeys(facts: seq<Fact>): set<string> {
    set f | f in facts && f.qty != 0.0 :: Format(f.instrument, f.side)
  }

  function AsReport(f: Fact): Report { Report(f.instrument, f.side, f.qty, f.available) }

  function AsReports(facts: seq<Fact>): (r: seq<Report>)
    ensures |r| == |facts| && forall i :: 0 <= i < |facts| ==> r[i] == AsReport(facts[i])
  {
    seq(|facts|, i requires 0 <= i < |facts| => AsReport(facts[i]))
  }

  /** The zero report for a key that went missing. */
  function ZeroFor(key: string): Option<Report> {
    var k := Parse(key);
    if k.Some? then Some(Report(k.value.0, k.value.1, 0.0, 0.0)) else None
  }

  ghost function Readables(keys: set<string>): set<string> {
    set k | k in keys && ZeroFor(k).Some?
  }

  /** `zeros` are the zero reports of `keys`, in some order. */
  ghost predicate ZerosFor(zeros: seq<Report>, keys: set<string>) {
    && (forall k :: k in keys && ZeroFor(k).Some? ==> ZeroFor(k).value in zeros)
    && (forall r :: r in zeros ==> exists k :: k in keys && ZeroFor(k) == Some(r))
  }

  /** One snapshot: its facts are reported, then a zero for each key that was non-zero before and is gone. */
  ghost predicate PositionStep(keys: set<string>, facts: seq<Fact>, reports: seq<Report>, keys': set<string>) {
    && |facts| <= |reports| && reports[..|facts|] == AsReports(facts)
    && ZerosFor(reports[|facts|..], keys + NonZeroKeys(facts) - KeysOf(facts))
    && keys' == (keys + NonZeroKeys(facts)) * KeysOf(facts)
  }

  /** Whatever a consumer believes to be non-zero is remembered, under a key that reads back. */
  ghost predicate Remembers(keys: set<string>, v: View) {
    && (forall i, s :: Qty(v, i, s) != 0.0 ==> ':' !in i && Format(i, s) in keys)
    && Readable(keys)
  }

  method ReadFacts(facts: seq<Fact>) returns (current: set<string>, nonZero: set<string>, reports: seq<Report>)
    ensures current == KeysOf(facts) && nonZero == NonZeroKeys(facts) && reports == AsReports(facts)
  {
    current, nonZero, reports := {}, {}, [];
    for i := 0 to |facts|
      invariant current == KeysOf(facts[..i]) && nonZero == NonZeroKeys(facts[..i]) && reports == AsReports(facts[..i])
    {
      assert facts[..i + 1] == facts[..i] + [facts[i]];
      var key := Format(facts[i].instrument, facts[i].side);
      current := current + {key};
      if facts[i].qty != 0.0 { nonZero := nonZero + {key}; }
      reports := reports + [AsReport(facts[i])];
    }
    assert facts[..|facts|] == facts;
  }

  /** One zero report per key, in any order. */
  method ZeroReports(keys: set<string>) returns (zeros: seq<Report>)
    ensures ZerosFor(zeros, keys) && |zeros| == |Readables(keys)|
  {
    zeros := [];
    var todo := keys;
    while todo != {}
      invariant todo <= keys && ZerosFor(zeros, keys - todo) && |zeros| == |Readables(keys - todo)|
      decreases |todo|
    {
      var key :| key in todo;
      var zero := ZeroFor(key);
      ZerosMore(zeros, keys - todo, key);
      assert keys - (todo - {key}) == (keys - todo) + {key};
      if zero.Some? { zeros := zeros + [zero.value]; }
      todo := todo - {key};
    }
    assert keys - {} == keys;
  }

  lemma ZerosMore(zeros: seq<Report>, keys: set<string>, key: string)
    requires ZerosFor(zeros, keys) && key !in keys
    ensures |Readables(keys + {key})| == |Readables(keys)| + if ZeroFor(key).Some? then 1 else 0
    ensures ZerosFor(if ZeroFor(key).Some? then zeros + [ZeroFor(key).value] else zeros, keys + {key})
  {
    var next := if ZeroFor(key).Some? then zeros + [ZeroFor(key).value] else zeros;
    assert Readables(keys + {key}) == if ZeroFor(key).Some? then Readables(keys) + {key} else Readables(keys);
    forall r | r in next ensures exists k :: k in keys + {key} && ZeroFor(k) == Some(r) {
      if r in zeros {
        var k :| k in keys && ZeroFor(k) == Some(r);
        assert k in keys + {key};
      } else {
        assert key in keys + {key};
      }
    }
  }

  class SemanticPipeline {
    var publishedTradeIds: set<string>
    var publishedKeys: set<string>

    constructor ()
      ensures publishedTradeIds == {} && publishedKeys == {}
    {
      publishedTradeIds, publishedKeys := {}, {};
    }

    /** Nothing is published when nothing is left. */
    method ProcessOrderReport(entries: seq<Entry>) returns (published: Option<seq<Entry>>)
      modifies this`publishedTradeIds
      ensures publishedTradeIds == old(publishedTradeIds) + Ids(entries)
      ensures published == if Fresh(old(publishedTradeIds), entries) == [] then None else Some(Fresh(old(publishedTradeIds), entries))
    {
      var kept: seq<Entry> := [];
      for i := 0 to |entries|
        invariant publishedTradeIds + Ids(entries[i..]) == old(publishedTradeIds) + Ids(entries)
        invariant kept + Fresh(publishedTradeIds, entries[i..]) == Fresh(old(publishedTradeIds), entries)
      {
        assert entries[i..][1..] == entries[i + 1..];
        if !Seen(publishedTradeIds, entries[i]) {
          publishedTradeIds := publishedTradeIds + IdOf(entries[i]);
          kept := kept + [entries[i]];
        }
      }
      assert entries[|entries|..] == [];
      assert kept == Fresh(old(publishedTradeIds), entries);
      return if kept == [] then None else Some(kept);
    }

    method ProcessPosition(facts: seq<Fact>) returns (reports: seq<Report>)
      modifies this`publishedKeys
      ensures PositionStep(old(publishedKeys), facts, reports, publishedKeys)
      ensures |reports| == |facts| + |Readables(old(publishedKeys) + NonZeroKeys(facts) - KeysOf(facts))|
    {
      var current, nonZero, live := ReadFacts(facts);
      publishedKeys := publishedKeys + nonZero;
      var zeroKeys := publishedKeys - current;
      var zeros := ZeroReports(zeroKeys);
      publishedKeys := publishedKeys - zeroKeys;
      reports := live + zeros;
      assert reports[..|facts|] == live && reports[|facts|..] == zeros;
    }

    method Reset()
      modifies this
      ensures publishedTradeIds == {} && publishedKeys == {}
    {
      publishedTradeIds, publishedKeys := {}, {};
    }
  }

  // ---------------------------------------------------------------------
  // What a consumer sees
  // ---------------------------------------------------------------------

  lemma {:induction false} FollowAppend(v: View, a: seq<Report>, b: seq<Report>)
    ensures Follow(v, a + b) == Follow(Follow(v, a), b)
    decreases |a|
  {
    if a == [] {
      assert a + b == b;
    } else {
      assert (a + b)[1..] == a[1..] + b;
      FollowAppend(v[(a[0].instrument, a[0].side) := a[0].qty], a[1..], b);
    }
  }

  lemma FollowOne(v: View, r: Report)
    ensures Follow(v, [r]) == v[(r.instrument, r.side) := r.qty]
  {
    assert [r][1..] == [];
  }

  lemma {:induction false} FollowFacts(v: View, facts: seq<Fact>, i: string, s: I32)
    ensures Qty(Follow(v, AsReports(facts)), i, s) == if Mentions(facts, i, s) then SnapshotQty(facts, i, s) else Qty(v, i, s)
  {
    if facts != [] {
      var init, last := facts[..|facts| - 1], facts[|facts| - 1];
      assert facts == init + [last];
      assert AsReports(facts) == AsReports(init) + [AsReport(last)];
      FollowFacts(v, init, i, s);
      FollowAppend(v, AsReports(init), [AsReport(last)]);
      FollowOne(Follow(v, AsReports(init)), AsReport(last));
      assert Mentions(facts, i, s) <==> Mentions(init, i, s) || (last.instrument == i && last.side == s);
    }
  }

  lemma {:induction false} FollowZeros(v: View, zeros: seq<Report>, i: string, s: I32)
    requires forall r :: r in zeros ==> r.qty == 0.0
    ensures Qty(Follow(v, zeros), i, s) == if exists r :: r in zeros && r.instrument == i && r.side == s then 0.0 else Qty(v, i, s)
    decreases |zeros|
  {
    if zeros != [] {
      var first, rest := zeros[0], zeros[1..];
      assert zeros == [first] + rest;
      FollowZeros(v[(first.instrument, first.side) := first.qty], rest, i, s);
    }
  }

  lemma {:induction false} SnapshotMeans(facts: seq<Fact>, i: string, s: I32)
    ensures !Mentions(facts, i, s) ==> SnapshotQty(facts, i, s) == 0.0
    ensures SnapshotQty(facts, i, s) != 0.0 ==> exists f :: f in facts && f.instrument == i && f.side == s && f.qty != 0.0
  {
    if facts != [] {
      assert facts == facts[..|facts| - 1] + [facts[|facts| - 1]];
      SnapshotMeans(facts[..|facts| - 1], i, s);
    }
  }

  ghost predicate ColonFree(facts: seq<Fact>) {
    forall f :: f in facts ==> ':' !in f.instrument
  }

  ghost predicate Readable(keys: set<string>) {
    forall k :: k in keys ==> exists i: string, s: I32 :: ':' !in i && k == Format(i, s)
  }

  /** A zero report for a position means that its key was to be zeroed. */
  lemma ZeroMeans(zeros: seq<Report>, keys: set<string>, i: string, s: I32)
    requires ZerosFor(zeros, keys) && Readable(keys)
    ensures (exists r :: r in zeros && r.instrument == i && r.side == s) ==> Format(i, s) in keys
    ensures ':' !in i && Format(i, s) in keys ==> exists r :: r in zeros && r.instrument == i && r.side == s
    ensures forall r :: r in zeros ==> r.qty == 0.0
  {
    if r :| r in zeros && r.instrument == i && r.side == s {
      var k :| k in keys && ZeroFor(k) == Some(r);
      var i', s' :| ':' !in i' && k == Format(i', s');
      KeyRoundTrip(i', s');
    }
    if ':' !in i && Format(i, s) in keys {
      KeyRoundTrip(i, s);
      assert ZeroFor(Format(i, s)).value in zeros;
    }
  }

  lemma StepReads(keys: set<string>, facts: seq<Fact>)
    requires Readable(keys) && ColonFree(facts)
    ensures Readable(keys + NonZeroKeys(facts))
  {
    forall k | k in NonZeroKeys(facts) ensures exists i: string, s: I32 :: ':' !in i && k == Format(i, s) {
      var f :| f in facts && k == Format(f.instrument, f.side);
      assert ':' !in f.instrument;
    }
  }

  lemma MentionedKey(facts: seq<Fact>, i: string, s: I32)
    requires ColonFree(facts) && ':' !in i
    ensures Format(i, s) in KeysOf(facts) <==> Mentions(facts, i, s)
  {
    if Format(i, s) in KeysOf(facts) {
      var f :| f in facts && Format(f.instrument, f.side) == Format(i, s);
      KeysDistinct(f.instrument, f.side, i, s);
    }
    if Mentions(facts, i, s) {
      var f :| f in facts && f.instrument == i && f.side == s;
      assert Format(f.instrument, f.side) in KeysOf(facts);
    }
  }

  /** After a snapshot every position of the consumer's view is as in that snapshot, absent ones at zero. */
  lemma StepQty(keys: set<string>, v: View, facts: seq<Fact>, reports: seq<Report>, keys': set<string>, i: string, s: I32)
    requires Remembers(keys, v) && ColonFree(facts) && PositionStep(keys, facts, reports, keys')
    ensures Qty(Follow(v, reports), i, s) == SnapshotQty(facts, i, s)
  {
    var live, zeros := reports[..|facts|], reports[|facts|..];
    var zeroKeys := keys + NonZeroKeys(facts) - KeysOf(facts);
    assert reports == live + zeros;
    FollowAppend(v, live, zeros);
    FollowFacts(v, facts, i, s);
    StepReads(keys, facts);
    ZeroMeans(zeros, zeroKeys, i, s);
    FollowZeros(Follow(v, live), zeros, i, s);
    SnapshotMeans(facts, i, s);
    if Mentions(facts, i, s) {
      var f :| f in facts && f.instrument == i && f.side == s;
      MentionedKey(facts, i, s);
    } else if Qty(v, i, s) != 0.0 {
      MentionedKey(facts, i, s);
    }
  }

  lemma StepRemembers(keys: set<string>, v: View, facts: seq<Fact>, reports: seq<Report>, keys': set<string>)
    requires Remembers(keys, v) && ColonFree(facts) && PositionStep(keys, facts, reports, keys')
    ensures Remembers(keys', Follow(v, reports))
  {
    StepReads(keys, facts);
    forall i, s | Qty(Follow(v, reports), i, s) != 0.0 ensures ':' !in i && Format(i, s) in keys' {
      StepQty(keys, v, facts, reports, keys', i, s);
      SnapshotMeans(facts, i, s);
      var f :| f in facts && f.instrument == i && f.side == s && f.qty != 0.0;
      assert Format(f.instrument, f.side) in NonZeroKeys(facts) && Format(f.instrument, f.side) in KeysOf(facts);
    }
  }

  /** A snapshot, what was published for it, and the keys remembered after it. */
  datatype Turn = Turn(facts: seq<Fact>, reports: seq<Report>, keys: set<string>)

  function KeysAfter(keys: set<string>, turns: seq<Turn>): set<string> {
    if turns == [] then keys else turns[|turns| - 1].keys
  }

  ghost predicate IsRun(keys: set<string>, turns: seq<Turn>)
    decreases |turns|
  {
    turns == [] ||
    var init, t := turns[..|turns| - 1], turns[|turns| - 1];
    IsRun(keys, init) && ColonFree(t.facts) && PositionStep(KeysAfter(keys, init), t.facts, t.reports, t.keys)
  }

  ghost function FollowRun(v: View, turns: seq<Turn>): View
    decreases |turns|
  {
    if turns == [] then v else Follow(FollowRun(v, turns[..|turns| - 1]), turns[|turns| - 1].reports)
  }

  lemma {:induction false} RunRemembers(keys: set<string>, v: View, turns: seq<Turn>)
    requires Remembers(keys, v) && IsRun(keys, turns)
    ensures Remembers(KeysAfter(keys, turns), FollowRun(v, turns))
    decreases |turns|
  {
    if turns != [] {
      var init, t := turns[..|turns| - 1], turns[|turns| - 1];
      RunRemembers(keys, v, init);
      StepRemembers(KeysAfter(keys, init), FollowRun(v, init), t.facts, t.reports, t.keys);
    }
  }

  /** In every run of snapshots, of instruments without ':' in their names, the consumer's view is the latest snapshot. */
  lemma ViewIsLatest(keys: set<string>, v: View, turns: seq<Turn>, i: string, s: I32)
    requires Remembers(keys, v) && IsRun(keys, turns) && turns != []
    ensures Qty(FollowRun(v, turns), i, s) == SnapshotQty(turns[|turns| - 1].facts, i, s)
  {
    var init, t := turns[..|turns| - 1], turns[|turns| - 1];
    RunRemembers(keys, v, init);
    StepQty(KeysAfter(keys, init), FollowRun(v, init), t.facts, t.reports, t.keys, i, s);
  }

  // ---------------------------------------------------------------------
  // Any instrument names
  // ---------------------------------------------------------------------

  /** The keys a snapshot zeroes. */
  function ZeroKeys(keys: set<string>, facts: seq<Fact>): set<string> {
    keys + NonZeroKeys(facts) - KeysOf(facts)
  }

  /** One of the zeroed keys reads as this position. */
  predicate Zeroed(keys: set<string>, facts: seq<Fact>, i: string, s: I32) {
    exists k :: k in ZeroKeys(keys, facts) && Parse(k) == Some((i, s))
  }

  lemma ZeroReported(keys: set<string>, facts: seq<Fact>, zeros: seq<Report>, i: string, s: I32)
    requires ZerosFor(zeros, ZeroKeys(keys, facts))
    ensures (exists r :: r in zeros && r.instrument == i && r.side == s) <==> Zeroed(keys, facts, i, s)
    ensures forall r :: r in zeros ==> r.qty == 0.0
  {
    if k :| k in ZeroKeys(keys, facts) && Parse(k) == Some((i, s)) {
      assert ZeroFor(k).value in zeros;
    }
  }

  /** Whatever the names: the quantity a consumer sees after a snapshot. */
  lemma SeenQty(keys: set<string>, v: View, facts: seq<Fact>, reports: seq<Report>, keys': set<string>, i: string, s: I32)
    requires PositionStep(keys, facts, reports, keys')
    ensures Qty(Follow(v, reports), i, s) ==
            if Zeroed(keys, facts, i, s) then 0.0 else if Mentions(facts, i, s) then SnapshotQty(facts, i, s) else Qty(v, i, s)
  {
    var live, zeros := reports[..|facts|], reports[|facts|..];
    assert reports == live + zeros;
    FollowAppend(v, live, zeros);
    FollowFacts(v, facts, i, s);
    ZeroReported(keys, facts, zeros, i, s);
    FollowZeros(Follow(v, live), zeros, i, s);
  }

  /**
   A snapshot is seen as it is, for one position, exactly when no zero is reported for it although it is
   there, and one is reported if it was seen and is gone.
   */
  lemma SnapshotIsSeen(keys: set<string>, v: View, facts: seq<Fact>, reports: seq<Report>, keys': set<string>, i: string, s: I32)
    requires PositionStep(keys, facts, reports, keys')
    ensures Qty(Follow(v, reports), i, s) == SnapshotQty(facts, i, s) <==>
            if Mentions(facts, i, s) then Zeroed(keys, facts, i, s) ==> SnapshotQty(facts, i, s) == 0.0
            else Zeroed(keys, facts, i, s) || Qty(v, i, s) == 0.0
  {
    SeenQty(keys, v, facts, reports, keys', i, s);
    SnapshotMeans(facts, i, s);
  }

  /** An instrument without ':' in its name shares its keys with no other. */
  lemma OnlyKey(i: string, s: I32, i': string, s': I32)
    requires ':' !in i && Format(i, s) == Format(i', s')
    ensures i == i' && s == s'
  {
    KeyRoundTrip(i, s);
    FirstColonOf(i, s, i', s');
    KeyRoundTrip(i', s');
  }

  /** A key is only zeroed if its position is not in the snapshot. */
  lemma ColonFreeZeroed(keys: set<string>, facts: seq<Fact>, i: string, s: I32)
    requires ':' !in i && Format(i, s) in keys && !Mentions(facts, i, s)
    ensures Zeroed(keys, facts, i, s)
  {
    KeyRoundTrip(i, s);
    if Format(i, s) in KeysOf(facts) {
      var f :| f in facts && Format(f.instrument, f.side) == Format(i, s);
      OnlyKey(i, s, f.instrument, f.side);
    }
    assert Format(i, s) in ZeroKeys(keys, facts);
  }

  /**
   In any state, whatever else a snapshot holds: a remembered position that is gone from it is seen as zero
   exactly when its instrument's name has no ':'.
   */
  lemma VanishingIsSeen(keys: set<string>, v: View, facts: seq<Fact>, reports: seq<Report>, keys': set<string>, i: string, s: I32)
    requires PositionStep(keys, facts, reports, keys')
    requires Qty(v, i, s) != 0.0 && Format(i, s) in keys && !Mentions(facts, i, s)
    ensures Qty(Follow(v, reports), i, s) == 0.0 <==> ':' !in i
  {
    SeenQty(keys, v, facts, reports, keys', i, s);
    if ':' !in i {
      ColonFreeZeroed(keys, facts, i, s);
    } else if Zeroed(keys, facts, i, s) {
      var k :| k in ZeroKeys(keys, facts) && Parse(k) == Some((i, s));
      ParsedIsColonFree(k);
    }
  }
}
