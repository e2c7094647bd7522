/**
 The integer-id lookup tables of the order management system, built over the
 intern table and rebuilt in place when the configuration is reloaded. Ids are
 slots of append-only vectors: a rebuild may rewrite a slot but never changes
 the key stored in it.
 */
module Metadata {
  import opened Ordering
  import opened Confdata
  import opened InternTable

  datatype InstrumentMeta = InstrumentMeta(id: nat, codeSym: nat, exchSym: nat, kind: int,
                                           baseId: Option<nat>, baseSym: Option<nat>, quoteId: Option<nat>,
                                           settlementId: Option<nat>, qtyPrecision: int, pricePrecision: int)
  datatype RouteMeta = RouteMeta(account: int, gwId: nat, gwKeySym: nat, exchAccountSym: nat)
  datatype GwMeta = GwMeta(id: nat, keySym: nat, venueSym: nat, cancelFields: seq<string>)
  datatype AssetMeta = AssetMeta(id: nat, sym: nat)
  datatype TradingMeta = TradingMeta(instrumentId: nat, config: Trading)

  // ---------------------------------------------------------------------
  // Stable vectors
  // ---------------------------------------------------------------------

  function GwKeys(gws: seq<GwMeta>): (keys: seq<nat>)
    ensures |keys| == |gws| && forall i :: 0 <= i < |gws| ==> keys[i] == gws[i].keySym
  {
    seq(|gws|, i requires 0 <= i < |gws| => gws[i].keySym)
  }

  function AssetKeys(assets: seq<AssetMeta>): (keys: seq<nat>)
    ensures |keys| == |assets| && forall i :: 0 <= i < |assets| ==> keys[i] == assets[i].sym
  {
    seq(|assets|, i requires 0 <= i < |assets| => assets[i].sym)
  }

  function InstrumentKeys(instruments: seq<InstrumentMeta>): (keys: seq<nat>)
    ensures |keys| == |instruments| && forall i :: 0 <= i < |instruments| ==> keys[i] == instruments[i].codeSym
  {
    seq(|instruments|, i requires 0 <= i < |instruments| => instruments[i].codeSym)
  }

  /** `keys[i]` is the interned key of slot `i`, and `index` finds a slot that holds the key it is asked for. */
  ghost predicate Indexed(index: map<nat, nat>, keys: seq<nat>, size: nat) {
    && (forall i :: 0 <= i < |keys| ==> keys[i] < size)
    && (forall sym :: sym in index ==> index[sym] < |keys| && keys[index[sym]] == sym)
  }

  /** The index holds exactly the names in `names`. */
  ghost predicate Covers(index: map<nat, nat>, s: Table, names: set<string>) {
    && (forall sym :: sym in index ==> sym < |s.strs|)
    && (forall name :: (name in s.ids && s.ids[name] in index) <==> name in names)
  }

  lemma CoversGrows(index: map<nat, nat>, s: Table, s': Table, names: set<string>)
    requires Covers(index, s, names) && Grows(s, s')
    ensures Covers(index, s', names)
  {
    GrownIds(s, s');
  }

  /** A name that is in both indexes has the same id in both; a name that is only in the new one gets a slot past the old `n`. */
  ghost predicate KeepsIds(index: map<nat, nat>, index': map<nat, nat>, n: nat) {
    && (forall sym :: sym in index && sym in index' ==> index'[sym] == index[sym])
    && (forall sym :: sym in index' && sym !in index ==> n <= index'[sym])
  }

  /** The slot for `sym`: the one it had before the rebuild, or the next free one. */
  function SlotFor(index: map<nat, nat>, size: nat, sym: nat): nat {
    if sym in index then index[sym] else size
  }

  lemma StoreKeepsIndex(index: map<nat, nat>, index': map<nat, nat>, keys: seq<nat>, size: nat, sym: nat, n: nat)
    requires Indexed(index, keys, size) && Indexed(index', keys, size) && KeepsIds(index, index', n) && sym < size && n <= |keys|
    ensures var id := SlotFor(index, |keys|, sym);
            var keys' := if sym in index then keys else keys + [sym];
            && Indexed(index, keys', size) && Indexed(index'[sym := id], keys', size) && KeepsIds(index, index'[sym := id], n)
            && (forall k :: k in index' && k != sym ==> index'[k] != id)
  {}

  lemma StoreCovers(index: map<nat, nat>, s: Table, names: set<string>, name: string, id: nat)
    requires s.Valid() && Covers(index, s, names) && name in s.ids
    ensures Covers(index[s.ids[name] := id], s, names + {name})
  {}

  // ---------------------------------------------------------------------
  // What each entry must say about the configuration
  // ---------------------------------------------------------------------

  ghost predicate GwIs(s: Table, gws: seq<GwMeta>, index: map<nat, nat>, g: GwConfig) {
    && g.key in s.ids && s.ids[g.key] in index && index[s.ids[g.key]] < |gws|
    && var meta := gws[index[s.ids[g.key]]];
       && meta.keySym == s.ids[g.key] && meta.venueSym < |s.strs| && s.strs[meta.venueSym] == g.venue
       && meta.cancelFields == g.cancelFields
  }

  ghost predicate RouteIs(s: Table, gwIndex: map<nat, nat>, meta: RouteMeta, r: Route) {
    && r.gwKey in s.ids && s.ids[r.gwKey] in gwIndex && r.exchAccount in s.ids
    && meta == RouteMeta(r.account, gwIndex[s.ids[r.gwKey]], s.ids[r.gwKey], s.ids[r.exchAccount])
  }

  /** An asset link is absent exactly for the empty name, and otherwise leads to the slot of that name. */
  ghost predicate LinkIs(s: Table, assets: seq<AssetMeta>, link: Option<nat>, name: string) {
    match link
    case None => name == ""
    case Some(id) => name != "" && id < |assets| && assets[id].sym < |s.strs| && s.strs[assets[id].sym] == name
  }

  ghost predicate InstrumentIs(s: Table, assets: seq<AssetMeta>, meta: InstrumentMeta, r: RefData) {
    && meta.codeSym < |s.strs| && s.strs[meta.codeSym] == r.code
    && meta.exchSym < |s.strs| && s.strs[meta.exchSym] == r.symbol
    && meta.kind == r.kind && meta.qtyPrecision == r.qtyPrecision && meta.pricePrecision == r.pricePrecision
    && LinkIs(s, assets, meta.baseId, r.base) && LinkIs(s, assets, meta.quoteId, r.quote)
    && LinkIs(s, assets, meta.settlementId, r.settlement)
    && (match meta.baseSym
        case None => r.base == ""
        case Some(sym) => r.base != "" && sym < |s.strs| && s.strs[sym] == r.base)
  }

  function NamesOf(r: RefData): set<string> {
    {r.base, r.quote, r.settlement} - {""}
  }

  ghost function AssetNames(c: Confdata, codes: set<string>): set<string>
    requires codes <= c.refdata.Keys
  {
    set code, name | code in codes && name in NamesOf(c.refdata[code]) :: name
  }

  /** An entry of the (gateway, symbol) index: the instrument has that symbol and the gateway serves its venue. */
  ghost predicate GwEntryIs(s: Table, c: Confdata, gws: seq<GwMeta>, gwIndex: map<nat, nat>,
                            instruments: seq<InstrumentMeta>, codeIndex: map<nat, nat>, key: (nat, nat), id: nat)
  {
    && id < |instruments| && key.0 < |gws| && instruments[id].exchSym == key.1
    && instruments[id].codeSym in codeIndex && codeIndex[instruments[id].codeSym] == id
    && instruments[id].codeSym < |s.strs| && s.strs[instruments[id].codeSym] in c.refdata
    && gws[key.0].keySym < |s.strs| && s.strs[gws[key.0].keySym] in c.gws
    && gws[key.0].keySym in gwIndex && gwIndex[gws[key.0].keySym] == key.0
    && Upper(c.refdata[s.strs[instruments[id].codeSym]].venue) == Upper(c.gws[s.strs[gws[key.0].keySym]].venue)
  }

  /** Every gateway that serves the venue of `r` finds something under the symbol of `r`. */
  ghost predicate Reachable(s: Table, c: Confdata, gwIndex: map<nat, nat>, byGw: map<(nat, nat), nat>, r: RefData) {
    forall k :: k in c.gws && Upper(c.gws[k].venue) == Upper(r.venue) ==>
      && k in s.ids && s.ids[k] in gwIndex && r.symbol in s.ids
      && (gwIndex[s.ids[k]], s.ids[r.symbol]) in byGw
  }

  ghost predicate GwSlots(gws: seq<GwMeta>) { forall i :: 0 <= i < |gws| ==> gws[i].id == i }

  ghost predicate AssetSlots(assets: seq<AssetMeta>) { forall i :: 0 <= i < |assets| ==> assets[i].id == i }

  ghost predicate InstrumentSlots(instruments: seq<InstrumentMeta>, assetCount: nat) {
    forall i :: 0 <= i < |instruments| ==>
      && instruments[i].id == i
      && (instruments[i].baseId.Some? ==> instruments[i].baseId.value < assetCount)
      && (instruments[i].quoteId.Some? ==> instruments[i].quoteId.value < assetCount)
      && (instruments[i].settlementId.Some? ==> instruments[i].settlementId.value < assetCount)
  }

  ghost predicate GatewaysAre(s: Table, c: Confdata, gws: seq<GwMeta>, index: map<nat, nat>) {
    && Covers(index, s, c.gws.Keys)
    && forall k {:trigger GwIs(s, gws, index, c.gws[k])} :: k in c.gws ==> GwIs(s, gws, index, c.gws[k])
  }

  lemma GwIsGrows(s: Table, s': Table, gws: seq<GwMeta>, index: map<nat, nat>, g: GwConfig)
    requires Grows(s, s') && GwIs(s, gws, index, g)
    ensures GwIs(s', gws, index, g)
  {
    GrownIds(s, s');
  }

  lemma GatewaysGrow(s: Table, s': Table, c: Confdata, gws: seq<GwMeta>, index: map<nat, nat>)
    requires Grows(s, s') && GatewaysAre(s, c, gws, index)
    ensures GatewaysAre(s', c, gws, index)
  {
    CoversGrows(index, s, s', c.gws.Keys);
    forall k | k in c.gws ensures GwIs(s', gws, index, c.gws[k]) {
      GwIsGrows(s, s', gws, index, c.gws[k]);
    }
  }

  lemma RouteIsGrows(s: Table, s': Table, gwIndex: map<nat, nat>, meta: RouteMeta, r: Route)
    requires Grows(s, s') && RouteIs(s, gwIndex, meta, r)
    ensures RouteIs(s', gwIndex, meta, r)
  {
    GrownIds(s, s');
  }

  /** The gateway vector part-way through a rebuild: the keys in `done` are stored and indexed by `index`. */
  ghost predicate GwDone(s: Table, c: Confdata, gws: seq<GwMeta>, prior: map<nat, nat>, index: map<nat, nat>, done: set<string>, n: nat) {
    && s.Valid() && GwSlots(gws) && n <= |gws|
    && Indexed(prior, GwKeys(gws), |s.strs|) && Indexed(index, GwKeys(gws), |s.strs|) && KeepsIds(prior, index, n)
    && done <= c.gws.Keys && Covers(index, s, done)
    && forall k {:trigger GwIs(s, gws, index, c.gws[k])} :: k in done ==> GwIs(s, gws, index, c.gws[k])
  }

  function StoreGw(gws: seq<GwMeta>, meta: GwMeta): seq<GwMeta> {
    if meta.id < |gws| then gws[meta.id := meta] else gws + [meta]
  }

  lemma StoreGwKeys(gws: seq<GwMeta>, prior: map<nat, nat>, size: nat, meta: GwMeta)
    requires GwSlots(gws) && Indexed(prior, GwKeys(gws), size) && meta.id == SlotFor(prior, |gws|, meta.keySym)
    ensures GwKeys(StoreGw(gws, meta)) == if meta.keySym in prior then GwKeys(gws) else GwKeys(gws) + [meta.keySym]
    ensures GwSlots(StoreGw(gws, meta))
  {}

  lemma GwDoneGrows(s: Table, s': Table, c: Confdata, gws: seq<GwMeta>, prior: map<nat, nat>, index: map<nat, nat>, done: set<string>, n: nat)
    requires GwDone(s, c, gws, prior, index, done, n) && Grows(s, s')
    ensures GwDone(s', c, gws, prior, index, done, n)
  {
    CoversGrows(index, s, s', done);
    forall k | k in done ensures GwIs(s', gws, index, c.gws[k]) {
      GwIsGrows(s, s', gws, index, c.gws[k]);
    }
  }

  /** Storing one more gateway keeps what the others say. */
  lemma StoreGwKeeps(s: Table, gws: seq<GwMeta>, index: map<nat, nat>, meta: GwMeta, g: GwConfig)
    requires GwIs(s, gws, index, g) && meta.keySym != s.ids[g.key] && meta.id != index[s.ids[g.key]]
    ensures GwIs(s, StoreGw(gws, meta), index[meta.keySym := meta.id], g)
  {}

  lemma StoreGwAll(s: Table, c: Confdata, gws: seq<GwMeta>, prior: map<nat, nat>, index: map<nat, nat>, done: set<string>, meta: GwMeta, n: nat)
    requires Named(c) && GwDone(s, c, gws, prior, index, done, n) && meta.keySym < |s.strs| && s.strs[meta.keySym] !in done
    requires meta.id == SlotFor(prior, |gws|, meta.keySym)
    ensures forall h :: h in done ==> GwIs(s, StoreGw(gws, meta), index[meta.keySym := meta.id], c.gws[h])
  {
    StoreKeepsIndex(prior, index, GwKeys(gws), |s.strs|, meta.keySym, n);
    forall h | h in done ensures GwIs(s, StoreGw(gws, meta), index[meta.keySym := meta.id], c.gws[h]) {
      assert GwIs(s, gws, index, c.gws[h]);
      StoreGwKeeps(s, gws, index, meta, c.gws[h]);
    }
  }

  /** Storing one more gateway. */
  lemma StoreGwDone(s: Table, c: Confdata, gws: seq<GwMeta>, prior: map<nat, nat>, index: map<nat, nat>,
                    done: set<string>, k: string, venueSym: nat, n: nat)
    requires Named(c) && GwDone(s, c, gws, prior, index, done, n) && k in c.gws && k !in done
    requires k in s.ids && venueSym < |s.strs| && s.strs[venueSym] == c.gws[k].venue
    ensures var meta := GwMeta(SlotFor(prior, |gws|, s.ids[k]), s.ids[k], venueSym, c.gws[k].cancelFields);
            var gws' := StoreGw(gws, meta);
            && GwDone(s, c, gws', prior, index[s.ids[k] := meta.id], done + {k}, n) && GwKeys(gws) <= GwKeys(gws')
  {
    var meta := GwMeta(SlotFor(prior, |gws|, s.ids[k]), s.ids[k], venueSym, c.gws[k].cancelFields);
    StoreGwKeys(gws, prior, |s.strs|, meta);
    StoreKeepsIndex(prior, index, GwKeys(gws), |s.strs|, meta.keySym, n);
    StoreCovers(index, s, done, k, meta.id);
    StoreGwAll(s, c, gws, prior, index, done, meta, n);
  }

  ghost predicate RoutesDone(s: Table, c: Confdata, gwIndex: map<nat, nat>, routes: map<int, RouteMeta>, done: set<int>) {
    && (forall a :: a in routes <==> a in done && a in c.routes && c.routes[a].gwKey in c.gws)
    && (forall a {:trigger RouteIs(s, gwIndex, routes[a], c.routes[a])} :: a in routes ==> RouteIs(s, gwIndex, routes[a], c.routes[a]))
  }

  lemma RoutesGrow(s: Table, s': Table, c: Confdata, gwIndex: map<nat, nat>, routes: map<int, RouteMeta>, done: set<int>)
    requires Grows(s, s') && RoutesDone(s, c, gwIndex, routes, done)
    ensures RoutesDone(s', c, gwIndex, routes, done)
  {
    forall a | a in routes ensures RouteIs(s', gwIndex, routes[a], c.routes[a]) {
      RouteIsGrows(s, s', gwIndex, routes[a], c.routes[a]);
    }
  }

  lemma GrowsTwice(s: Table, s1: Table, s2: Table)
    requires Grows(s, s1) && Grows(s1, s2)
    ensures Grows(s, s2)
  {}

  /** One gateway: intern its strings and fill its slot. */
  method PutGateway(s: Table, c: Confdata, gws: seq<GwMeta>, prior: map<nat, nat>, index: map<nat, nat>, k: string, ghost done: set<string>, ghost n: nat)
    returns (s': Table, gws': seq<GwMeta>, index': map<nat, nat>)
    requires Named(c) && GwDone(s, c, gws, prior, index, done, n) && k in c.gws && k !in done
    ensures GwDone(s', c, gws', prior, index', done + {k}, n)
    ensures Grows(s, s') && GwKeys(gws) <= GwKeys(gws')
  {
    var g := c.gws[k];
    var s1 := s.Intern(g.key);
    s' := s1.Intern(g.venue);
    InternGrows(s, g.key);
    InternGrows(s1, g.venue);
    GrownIds(s1, s');
    GwDoneGrows(s, s', c, gws, prior, index, done, n);
    StoreGwDone(s', c, gws, prior, index, done, k, s'.ids[g.venue], n);
    var meta := GwMeta(SlotFor(prior, |gws|, s'.ids[g.key]), s'.ids[g.key], s'.ids[g.venue], g.cancelFields);
    gws', index' := StoreGw(gws, meta), index[meta.keySym := meta.id];
  }

  /** Gateways: old keys keep their slots, new keys are appended. */
  method RebuildGateways(s: Table, c: Confdata, gws: seq<GwMeta>, prior: map<nat, nat>)
    returns (s': Table, gws': seq<GwMeta>, index: map<nat, nat>)
    requires Named(c) && GwDone(s, c, gws, prior, map[], {}, |gws|)
    ensures GwDone(s', c, gws', prior, index, c.gws.Keys, |gws|)
    ensures Grows(s, s') && GwKeys(gws) <= GwKeys(gws')
  {
    s', gws', index := s, gws, map[];
    var todo := c.gws.Keys;
    ghost var done: set<string> := {};
    while todo != {}
      invariant todo <= c.gws.Keys && done == c.gws.Keys - todo
      invariant GwDone(s', c, gws', prior, index, done, |gws|)
      invariant Grows(s, s') && GwKeys(gws) <= GwKeys(gws')
      decreases todo
    {
      var k :| k in todo;
      ghost var s0 := s';
      s', gws', index := PutGateway(s', c, gws', prior, index, k, done, |gws|);
      GrowsTwice(s, s0, s');
      done, todo := done + {k}, todo - {k};
    }
    assert done == c.gws.Keys;
  }

  /** One more route: skipped if its gateway is not configured. */
  function StoreRoute(s: Table, gwIndex: map<nat, nat>, routes: map<int, RouteMeta>, r: Route): map<int, RouteMeta>
    requires r.gwKey in s.ids && (s.ids[r.gwKey] in gwIndex ==> r.exchAccount in s.ids)
  {
    var sym := s.ids[r.gwKey];
    if sym in gwIndex then routes[r.account := RouteMeta(r.account, gwIndex[sym], sym, s.ids[r.exchAccount])] else routes
  }

  lemma StoreRouteDone(s: Table, c: Confdata, gwIndex: map<nat, nat>, routes: map<int, RouteMeta>, done: set<int>, a: int)
    requires Named(c) && Covers(gwIndex, s, c.gws.Keys) && RoutesDone(s, c, gwIndex, routes, done)
    requires a in c.routes && a !in done && c.routes[a].gwKey in s.ids
    requires s.ids[c.routes[a].gwKey] in gwIndex ==> c.routes[a].exchAccount in s.ids
    ensures RoutesDone(s, c, gwIndex, StoreRoute(s, gwIndex, routes, c.routes[a]), done + {a})
  {}

  /** One route: intern its strings and store it, if its gateway is configured. */
  method PutRoute(s: Table, c: Confdata, ghost gws: seq<GwMeta>, gwIndex: map<nat, nat>, routes: map<int, RouteMeta>, a: int, ghost done: set<int>)
    returns (s': Table, routes': map<int, RouteMeta>)
    requires Named(c) && s.Valid() && GatewaysAre(s, c, gws, gwIndex) && RoutesDone(s, c, gwIndex, routes, done) && a in c.routes && a !in done
    ensures Grows(s, s') && GatewaysAre(s', c, gws, gwIndex) && RoutesDone(s', c, gwIndex, routes', done + {a})
  {
    var r := c.routes[a];
    s' := s.Intern(r.gwKey);
    InternGrows(s, r.gwKey);
    if s'.ids[r.gwKey] in gwIndex {
      InternGrows(s', r.exchAccount);
      s' := s'.Intern(r.exchAccount);
    }
    GatewaysGrow(s, s', c, gws, gwIndex);
    RoutesGrow(s, s', c, gwIndex, routes, done);
    StoreRouteDone(s', c, gwIndex, routes, done, a);
    routes' := StoreRoute(s', gwIndex, routes, r);
  }

  /** Routes whose gateway is configured, with the id of that gateway. */
  method RebuildRoutes(s: Table, c: Confdata, ghost gws: seq<GwMeta>, gwIndex: map<nat, nat>)
    returns (s': Table, routes: map<int, RouteMeta>)
    requires Named(c) && s.Valid() && GatewaysAre(s, c, gws, gwIndex)
    ensures Grows(s, s') && RoutesDone(s', c, gwIndex, routes, c.routes.Keys)
  {
    s', routes := s, map[];
    var todo := c.routes.Keys;
    ghost var done: set<int> := {};
    while todo != {}
      invariant todo <= c.routes.Keys && done == c.routes.Keys - todo
      invariant Grows(s, s') && GatewaysAre(s', c, gws, gwIndex) && RoutesDone(s', c, gwIndex, routes, done)
      decreases todo
    {
      assert (forall x :: x !in todo) ==> todo == {};
      var a :| a in todo;
      ghost var s0 := s';
      s', routes := PutRoute(s', c, gws, gwIndex, routes, a, done);
      GrowsTwice(s, s0, s');
      done, todo := done + {a}, todo - {a};
    }
    assert done == c.routes.Keys;
  }

  // ---------------------------------------------------------------------
  // Assets
  // ---------------------------------------------------------------------

  ghost predicate AssetsDone(s: Table, assets: seq<AssetMeta>, prior: map<nat, nat>, index: map<nat, nat>, names: set<string>, n: nat) {
    && s.Valid() && AssetSlots(assets) && n <= |assets|
    && Indexed(prior, AssetKeys(assets), |s.strs|) && Indexed(index, AssetKeys(assets), |s.strs|) && KeepsIds(prior, index, n)
    && Covers(index, s, names)
  }

  function StoreAsset(assets: seq<AssetMeta>, meta: AssetMeta): seq<AssetMeta> {
    if meta.id < |assets| then assets[meta.id := meta] else assets + [meta]
  }

  lemma AssetsGrow(s: Table, s': Table, assets: seq<AssetMeta>, prior: map<nat, nat>, index: map<nat, nat>, names: set<string>, n: nat)
    requires AssetsDone(s, assets, prior, index, names, n) && Grows(s, s')
    ensures AssetsDone(s', assets, prior, index, names, n)
  {
    CoversGrows(index, s, s', names);
  }

  lemma StoreAssetDone(s: Table, assets: seq<AssetMeta>, prior: map<nat, nat>, index: map<nat, nat>, names: set<string>, name: string, n: nat)
    requires AssetsDone(s, assets, prior, index, names, n) && name in s.ids
    ensures var meta := AssetMeta(SlotFor(prior, |assets|, s.ids[name]), s.ids[name]);
            var assets' := StoreAsset(assets, meta);
            && AssetsDone(s, assets', prior, index[meta.sym := meta.id], names + {name}, n)
            && AssetKeys(assets) <= AssetKeys(assets')
  {
    var meta := AssetMeta(SlotFor(prior, |assets|, s.ids[name]), s.ids[name]);
    var assets' := StoreAsset(assets, meta);
    StoreCovers(index, s, names, name, meta.id);
    StoreKeepsIndex(prior, index, AssetKeys(assets), |s.strs|, meta.sym, n);
    assert AssetKeys(assets') == if meta.sym in prior then AssetKeys(assets) else AssetKeys(assets) + [meta.sym];
  }

  /** Find or allocate the slot of an asset; the empty name has none. */
  method EnsureAsset(s: Table, assets: seq<AssetMeta>, prior: map<nat, nat>, index: map<nat, nat>, name: string, ghost names: set<string>, ghost n: nat)
    returns (s': Table, assets': seq<AssetMeta>, index': map<nat, nat>)
    requires AssetsDone(s, assets, prior, index, names, n)
    ensures AssetsDone(s', assets', prior, index', names + ({name} - {""}), n)
    ensures Grows(s, s') && AssetKeys(assets) <= AssetKeys(assets')
  {
    if name == "" {
      assert names + ({name} - {""}) == names;
      return s, assets, index;
    }
    assert {name} - {""} == {name};
    InternGrows(s, name);
    s' := s.Intern(name);
    AssetsGrow(s, s', assets, prior, index, names, n);
    StoreAssetDone(s', assets, prior, index, names, name, n);
    var sym := s'.ids[name];
    if sym in index {
      assert name in names;
      assert names + {name} == names;
      return s', assets, index;
    }
    var meta := AssetMeta(SlotFor(prior, |assets|, sym), sym);
    assets', index' := StoreAsset(assets, meta), index[sym := meta.id];
  }

  lemma AssetNamesAdd(c: Confdata, codes: set<string>, code: string)
    requires codes <= c.refdata.Keys && code in c.refdata
    ensures AssetNames(c, codes + {code}) == AssetNames(c, codes) + NamesOf(c.refdata[code])
  {
    forall name ensures name in AssetNames(c, codes + {code}) <==> name in AssetNames(c, codes) + NamesOf(c.refdata[code]) {
      if name in AssetNames(c, codes) {
        var x :| x in codes && name in NamesOf(c.refdata[x]);
        assert x in codes + {code};
      }
      if name in NamesOf(c.refdata[code]) {
        assert code in codes + {code};
      }
    }
  }

  method RebuildAssets(s: Table, c: Confdata, assets: seq<AssetMeta>, prior: map<nat, nat>)
    returns (s': Table, assets': seq<AssetMeta>, index: map<nat, nat>)
    requires AssetsDone(s, assets, prior, map[], {}, |assets|)
    ensures AssetsDone(s', assets', prior, index, AssetNames(c, c.refdata.Keys), |assets|)
    ensures Grows(s, s') && AssetKeys(assets) <= AssetKeys(assets')
  {
    s', assets', index := s, assets, map[];
    var todo := c.refdata.Keys;
    assert AssetNames(c, c.refdata.Keys - todo) == {};
    while todo != {}
      invariant todo <= c.refdata.Keys
      invariant AssetsDone(s', assets', prior, index, AssetNames(c, c.refdata.Keys - todo), |assets|)
      invariant Grows(s, s') && AssetKeys(assets) <= AssetKeys(assets')
      decreases todo
    {
      var code :| code in todo;
      var r := c.refdata[code];
      ghost var names := AssetNames(c, c.refdata.Keys - todo);
      s', assets', index := EnsureAsset(s', assets', prior, index, r.base, names, |assets|);
      s', assets', index := EnsureAsset(s', assets', prior, index, r.quote, names + ({r.base} - {""}), |assets|);
      s', assets', index := EnsureAsset(s', assets', prior, index, r.settlement, names + ({r.base} - {""}) + ({r.quote} - {""}), |assets|);
      assert c.refdata.Keys - (todo - {code}) == c.refdata.Keys - todo + {code};
      AssetNamesAdd(c, c.refdata.Keys - todo, code);
      assert names + NamesOf(r) == names + ({r.base} - {""}) + ({r.quote} - {""}) + ({r.settlement} - {""});
      todo := todo - {code};
    }
    assert c.refdata.Keys - todo == c.refdata.Keys;
  }

  // ---------------------------------------------------------------------
  // Instruments
  // ---------------------------------------------------------------------

  ghost predicate InstrumentAt(s: Table, assets: seq<AssetMeta>, instruments: seq<InstrumentMeta>, index: map<nat, nat>, r: RefData) {
    && r.code in s.ids && s.ids[r.code] in index && index[s.ids[r.code]] < |instruments|
    && InstrumentIs(s, assets, instruments[index[s.ids[r.code]]], r)
  }

  /** The instrument vector and its index, part-way through a rebuild. */
  ghost predicate InstrumentIndex(s: Table, assetCount: nat, instruments: seq<InstrumentMeta>, prior: map<nat, nat>, index: map<nat, nat>,
                                  done: set<string>, n: nat)
  {
    && s.Valid() && InstrumentSlots(instruments, assetCount) && n <= |instruments|
    && Indexed(prior, InstrumentKeys(instruments), |s.strs|) && Indexed(index, InstrumentKeys(instruments), |s.strs|)
    && KeepsIds(prior, index, n) && Covers(index, s, done)
  }

  ghost predicate InstrumentsDone(s: Table, c: Confdata, assets: seq<AssetMeta>, instruments: seq<InstrumentMeta>,
                                  prior: map<nat, nat>, index: map<nat, nat>, done: set<string>, n: nat)
  {
    && InstrumentIndex(s, |assets|, instruments, prior, index, done, n) && done <= c.refdata.Keys
    && forall code {:trigger InstrumentAt(s, assets, instruments, index, c.refdata[code])} ::
         code in done ==> InstrumentAt(s, assets, instruments, index, c.refdata[code])
  }

  lemma InstrumentAtGrows(s: Table, s': Table, assets: seq<AssetMeta>, instruments: seq<InstrumentMeta>, index: map<nat, nat>, r: RefData)
    requires Grows(s, s') && InstrumentAt(s, assets, instruments, index, r)
    ensures InstrumentAt(s', assets, instruments, index, r)
  {
    GrownIds(s, s');
  }

  /** The link an instrument stores for an asset name. */
  function Link(s: Table, index: map<nat, nat>, name: string): Option<nat>
    requires name in s.ids || name == ""
  {
    if name == "" then None else if s.ids[name] in index then Some(index[s.ids[name]]) else None
  }

  function MetaFor(s: Table, assetIndex: map<nat, nat>, id: nat, r: RefData): InstrumentMeta
    requires {r.code, r.symbol} + NamesOf(r) <= s.ids.Keys
  {
    assert forall name :: name in {r.base, r.quote, r.settlement} && name != "" ==> name in NamesOf(r);
    InstrumentMeta(id, s.ids[r.code], s.ids[r.symbol], r.kind,
                   Link(s, assetIndex, r.base), if r.base == "" then None else Some(s.ids[r.base]),
                   Link(s, assetIndex, r.quote), Link(s, assetIndex, r.settlement), r.qtyPrecision, r.pricePrecision)
  }

  lemma MetaForIs(s: Table, assets: seq<AssetMeta>, oldAssets: map<nat, nat>, assetIndex: map<nat, nat>, names: set<string>, id: nat, r: RefData, n: nat)
    requires AssetsDone(s, assets, oldAssets, assetIndex, names, n) && NamesOf(r) <= names
    requires {r.code, r.symbol} + NamesOf(r) <= s.ids.Keys
    ensures InstrumentIs(s, assets, MetaFor(s, assetIndex, id, r), r)
    ensures var m := MetaFor(s, assetIndex, id, r);
            && (m.baseId.Some? ==> m.baseId.value < |assets|) && (m.quoteId.Some? ==> m.quoteId.value < |assets|)
            && (m.settlementId.Some? ==> m.settlementId.value < |assets|)
  {
    assert r.base in NamesOf(r) || r.base == "";
    assert r.quote in NamesOf(r) || r.quote == "";
    assert r.settlement in NamesOf(r) || r.settlement == "";
  }

  function StoreInstrument(instruments: seq<InstrumentMeta>, meta: InstrumentMeta): seq<InstrumentMeta> {
    if meta.id < |instruments| then instruments[meta.id := meta] else instruments + [meta]
  }

  lemma StoreInstrumentKeys(instruments: seq<InstrumentMeta>, prior: map<nat, nat>, size: nat, meta: InstrumentMeta, assetCount: nat)
    requires InstrumentSlots(instruments, assetCount) && Indexed(prior, InstrumentKeys(instruments), size)
    requires meta.id == SlotFor(prior, |instruments|, meta.codeSym) && InstrumentSlots([meta.(id := 0)], assetCount)
    ensures InstrumentKeys(StoreInstrument(instruments, meta)) ==
            if meta.codeSym in prior then InstrumentKeys(instruments) else InstrumentKeys(instruments) + [meta.codeSym]
    ensures InstrumentSlots(StoreInstrument(instruments, meta), assetCount)
  {
    var one := meta.(id := 0);
    assert [one][0] == one;
  }

  lemma StoreKeepsInstrument(s: Table, s': Table, assets: seq<AssetMeta>, instruments: seq<InstrumentMeta>, index: map<nat, nat>,
                             meta: InstrumentMeta, r: RefData)
    requires Grows(s, s') && InstrumentAt(s, assets, instruments, index, r)
    requires meta.codeSym < |s'.strs| && s'.strs[meta.codeSym] != r.code
    requires meta.id != index[s.ids[r.code]]
    ensures InstrumentAt(s', assets, StoreInstrument(instruments, meta), index[meta.codeSym := meta.id], r)
  {
    InstrumentAtGrows(s, s', assets, instruments, index, r);
  }

  lemma StoreKeepsInstruments(s: Table, s': Table, c: Confdata, assets: seq<AssetMeta>, instruments: seq<InstrumentMeta>,
                              prior: map<nat, nat>, index: map<nat, nat>, done: set<string>, meta: InstrumentMeta, n: nat)
    requires InstrumentsDone(s, c, assets, instruments, prior, index, done, n) && Grows(s, s')
    requires (forall h :: h in done ==> c.refdata[h].code == h) && meta.codeSym < |s'.strs| && s'.strs[meta.codeSym] !in done
    requires meta.id == SlotFor(prior, |instruments|, meta.codeSym)
    ensures forall h :: h in done ==>
              InstrumentAt(s', assets, StoreInstrument(instruments, meta), index[meta.codeSym := meta.id], c.refdata[h])
  {
    StoreKeepsIndex(prior, index, InstrumentKeys(instruments), |s'.strs|, meta.codeSym, n);
    GrownIds(s, s');
    forall h | h in done ensures InstrumentAt(s', assets, StoreInstrument(instruments, meta), index[meta.codeSym := meta.id], c.refdata[h]) {
      StoreKeepsInstrument(s, s', assets, instruments, index, meta, c.refdata[h]);
    }
  }

  lemma StoreNewInstrument(s: Table, assets: seq<AssetMeta>, instruments: seq<InstrumentMeta>, prior: map<nat, nat>, index: map<nat, nat>,
                           meta: InstrumentMeta, r: RefData)
    requires Indexed(prior, InstrumentKeys(instruments), |s.strs|) && r.code in s.ids && meta.codeSym == s.ids[r.code]
    requires meta.id == SlotFor(prior, |instruments|, meta.codeSym) && InstrumentIs(s, assets, meta, r)
    ensures InstrumentAt(s, assets, StoreInstrument(instruments, meta), index[meta.codeSym := meta.id], r)
  {}

  lemma LinksInRange(s: Table, assets: seq<AssetMeta>, meta: InstrumentMeta, r: RefData)
    requires InstrumentIs(s, assets, meta, r)
    ensures InstrumentSlots([meta.(id := 0)], |assets|)
  {}

  /** Storing one more instrument keeps the vector and its index as they should be. */
  lemma StoreInstrumentIndex(s: Table, s': Table, assetCount: nat, instruments: seq<InstrumentMeta>, prior: map<nat, nat>, index: map<nat, nat>,
                             done: set<string>, code: string, meta: InstrumentMeta, n: nat)
    requires InstrumentIndex(s, assetCount, instruments, prior, index, done, n) && Grows(s, s') && code in s'.ids
    requires meta.codeSym == s'.ids[code] && meta.id == SlotFor(prior, |instruments|, meta.codeSym) && InstrumentSlots([meta.(id := 0)], assetCount)
    ensures InstrumentIndex(s', assetCount, StoreInstrument(instruments, meta), prior, index[meta.codeSym := meta.id], done + {code}, n)
    ensures InstrumentKeys(instruments) <= InstrumentKeys(StoreInstrument(instruments, meta))
  {
    StoreInstrumentKeys(instruments, prior, |s'.strs|, meta, assetCount);
    StoreKeepsIndex(prior, index, InstrumentKeys(instruments), |s'.strs|, meta.codeSym, n);
    CoversGrows(index, s, s', done);
    StoreCovers(index, s', done, code, meta.id);
  }

  /** Storing one more instrument keeps everything already stored. */
  lemma StoreInstrumentDone(s: Table, s': Table, c: Confdata, assets: seq<AssetMeta>, instruments: seq<InstrumentMeta>,
                            prior: map<nat, nat>, index: map<nat, nat>, done: set<string>, code: string, meta: InstrumentMeta, n: nat)
    requires InstrumentsDone(s, c, assets, instruments, prior, index, done, n) && Grows(s, s')
    requires code in c.refdata && code !in done && c.refdata[code].code == code && code in s'.ids
    requires forall h :: h in done ==> c.refdata[h].code == h
    requires meta.codeSym == s'.ids[code] && meta.id == SlotFor(prior, |instruments|, meta.codeSym)
    requires InstrumentIs(s', assets, meta, c.refdata[code])
    ensures var instruments' := StoreInstrument(instruments, meta);
            && InstrumentsDone(s', c, assets, instruments', prior, index[meta.codeSym := meta.id], done + {code}, n)
            && InstrumentKeys(instruments) <= InstrumentKeys(instruments')
  {
    LinksInRange(s', assets, meta, c.refdata[code]);
    StoreInstrumentIndex(s, s', |assets|, instruments, prior, index, done, code, meta, n);
    StoreKeepsInstruments(s, s', c, assets, instruments, prior, index, done, meta, n);
    StoreNewInstrument(s', assets, instruments, prior, index, meta, c.refdata[code]);
  }

  // ---------------------------------------------------------------------
  // The (gateway, symbol) index
  // ---------------------------------------------------------------------

  ghost predicate GwIndexDone(s: Table, c: Confdata, gws: seq<GwMeta>, gwIndex: map<nat, nat>, instruments: seq<InstrumentMeta>,
                              index: map<nat, nat>, byGw: map<(nat, nat), nat>, done: set<string>)
  {
    && EntriesAre(s, c, gws, gwIndex, instruments, index, byGw)
    && (forall code {:trigger Reachable(s, c, gwIndex, byGw, c.refdata[code])} ::
          code in done && code in c.refdata ==> Reachable(s, c, gwIndex, byGw, c.refdata[code]))
  }

  lemma ReachableGrows(s: Table, s': Table, c: Confdata, gwIndex: map<nat, nat>, byGw: map<(nat, nat), nat>,
                       byGw': map<(nat, nat), nat>, r: RefData)
    requires Grows(s, s') && byGw.Keys <= byGw'.Keys && Reachable(s, c, gwIndex, byGw, r)
    ensures Reachable(s', c, gwIndex, byGw', r)
  {
    GrownIds(s, s');
  }

  /** Storing an instrument under a code that is not indexed yet disturbs no entry of the (gateway, symbol) index. */
  lemma GwIndexStore(s: Table, s': Table, c: Confdata, gws: seq<GwMeta>, gwIndex: map<nat, nat>, instruments: seq<InstrumentMeta>,
                     index: map<nat, nat>, byGw: map<(nat, nat), nat>, done: set<string>, meta: InstrumentMeta)
    requires GwIndexDone(s, c, gws, gwIndex, instruments, index, byGw, done) && Grows(s, s')
    requires meta.codeSym !in index && forall k :: k in index ==> index[k] != meta.id
    ensures GwIndexDone(s', c, gws, gwIndex, StoreInstrument(instruments, meta), index[meta.codeSym := meta.id], byGw, done)
  {
    var instruments', index' := StoreInstrument(instruments, meta), index[meta.codeSym := meta.id];
    forall key | key in byGw ensures GwEntryIs(s', c, gws, gwIndex, instruments', index', key, byGw[key]) {
      assert GwEntryIs(s, c, gws, gwIndex, instruments, index, key, byGw[key]);
    }
    forall code | code in done && code in c.refdata ensures Reachable(s', c, gwIndex, byGw, c.refdata[code]) {
      ReachableGrows(s, s', c, gwIndex, byGw, byGw, c.refdata[code]);
    }
  }

  /** The entry a serving gateway gets for an instrument. */
  lemma GwEntryHolds(s: Table, c: Confdata, gws: seq<GwMeta>, gwIndex: map<nat, nat>, instruments: seq<InstrumentMeta>,
                     assets: seq<AssetMeta>, index: map<nat, nat>, k: string, r: RefData)
    requires s.Valid() && Named(c) && k in c.gws && GwIs(s, gws, gwIndex, c.gws[k]) && Upper(c.gws[k].venue) == Upper(r.venue)
    requires InstrumentAt(s, assets, instruments, index, r) && r.symbol in s.ids && r.code in c.refdata && c.refdata[r.code] == r
    ensures GwEntryIs(s, c, gws, gwIndex, instruments, index, (gwIndex[s.ids[k]], s.ids[r.symbol]), index[s.ids[r.code]])
  {}

  ghost predicate EntriesAre(s: Table, c: Confdata, gws: seq<GwMeta>, gwIndex: map<nat, nat>, instruments: seq<InstrumentMeta>,
                             index: map<nat, nat>, byGw: map<(nat, nat), nat>)
  {
    forall key {:trigger GwEntryIs(s, c, gws, gwIndex, instruments, index, key, byGw[key])} ::
      key in byGw ==> GwEntryIs(s, c, gws, gwIndex, instruments, index, key, byGw[key])
  }

  /** The gateways in `linked` find something under the symbol. */
  ghost predicate Linked(s: Table, gwIndex: map<nat, nat>, byGw: map<(nat, nat), nat>, linked: set<string>, symbol: string) {
    symbol in s.ids && forall k :: k in linked ==> k in s.ids && s.ids[k] in gwIndex && (gwIndex[s.ids[k]], s.ids[symbol]) in byGw
  }

  /** Enter an instrument under its symbol for one gateway. */
  method LinkGateway(s: Table, c: Confdata, gws: seq<GwMeta>, gwIndex: map<nat, nat>, instruments: seq<InstrumentMeta>,
                     assets: seq<AssetMeta>, index: map<nat, nat>, byGw: map<(nat, nat), nat>, r: RefData, k: string, ghost linked: set<string>)
    returns (byGw': map<(nat, nat), nat>)
    requires s.Valid() && Named(c) && k in c.gws && GwIs(s, gws, gwIndex, c.gws[k]) && Upper(c.gws[k].venue) == Upper(r.venue)
    requires InstrumentAt(s, assets, instruments, index, r) && r.code in c.refdata && c.refdata[r.code] == r
    requires EntriesAre(s, c, gws, gwIndex, instruments, index, byGw) && Linked(s, gwIndex, byGw, linked, r.symbol)
    ensures EntriesAre(s, c, gws, gwIndex, instruments, index, byGw') && Linked(s, gwIndex, byGw', linked + {k}, r.symbol)
    ensures byGw.Keys <= byGw'.Keys
  {
    GwEntryHolds(s, c, gws, gwIndex, instruments, assets, index, k, r);
    var sym := s.Intern(k).ids[k];
    byGw' := byGw;
    if sym in gwIndex {
      byGw' := byGw'[(gwIndex[sym], s.ids[r.symbol]) := index[s.ids[r.code]]];
    }
  }

  lemma LinkedAll(s: Table, c: Confdata, gwIndex: map<nat, nat>, byGw: map<(nat, nat), nat>, byGw': map<(nat, nat), nat>,
                  done: set<string>, code: string, serving: set<string>)
    requires s.Valid() && code in c.refdata && byGw.Keys <= byGw'.Keys && Linked(s, gwIndex, byGw', serving, c.refdata[code].symbol)
    requires forall k :: k in c.gws && Upper(c.gws[k].venue) == Upper(c.refdata[code].venue) ==> k in serving
    requires forall h :: h in done && h in c.refdata ==> Reachable(s, c, gwIndex, byGw, c.refdata[h])
    ensures forall h :: h in done + {code} && h in c.refdata ==> Reachable(s, c, gwIndex, byGw', c.refdata[h])
  {
    forall h | h in done + {code} && h in c.refdata ensures Reachable(s, c, gwIndex, byGw', c.refdata[h]) {
      if h in done { ReachableGrows(s, s, c, gwIndex, byGw, byGw', c.refdata[h]); }
    }
  }

  /** Enter an instrument under its symbol for every gateway that serves its venue. */
  method LinkGateways(s: Table, c: Confdata, gws: seq<GwMeta>, gwIndex: map<nat, nat>, instruments: seq<InstrumentMeta>,
                      assets: seq<AssetMeta>, index: map<nat, nat>, byGw: map<(nat, nat), nat>, code: string, ghost done: set<string>)
    returns (byGw': map<(nat, nat), nat>)
    requires s.Valid() && WellFormed(c) && GatewaysAre(s, c, gws, gwIndex) && code in c.refdata
    requires InstrumentAt(s, assets, instruments, index, c.refdata[code]) && c.refdata[code].symbol in s.ids
    requires GwIndexDone(s, c, gws, gwIndex, instruments, index, byGw, done)
    ensures GwIndexDone(s, c, gws, gwIndex, instruments, index, byGw', done + {code})
  {
    var r := c.refdata[code];
    var venue := Upper(r.venue);
    var serving := if venue in c.gwKeysByVenue then c.gwKeysByVenue[venue] else {};
    byGw' := byGw;
    var todo := serving;
    ghost var linked: set<string> := {};
    while todo != {}
      invariant todo <= serving && linked == serving - todo && byGw.Keys <= byGw'.Keys
      invariant EntriesAre(s, c, gws, gwIndex, instruments, index, byGw') && Linked(s, gwIndex, byGw', linked, r.symbol)
      decreases todo
    {
      var k :| k in todo;
      byGw' := LinkGateway(s, c, gws, gwIndex, instruments, assets, index, byGw', r, k, linked);
      linked, todo := linked + {k}, todo - {k};
    }
    assert linked == serving;
    LinkedAll(s, c, gwIndex, byGw, byGw', done, code, serving);
  }

  /** The strings an instrument interns, in order; empty asset names are skipped. */
  function RefStrings(r: RefData): seq<string> {
    [r.code, r.symbol] + (if r.base == "" then [] else [r.base]) + (if r.quote == "" then [] else [r.quote])
    + (if r.settlement == "" then [] else [r.settlement])
  }

  /** One instrument: intern its strings and fill its slot. */
  method PutInstrument(s: Table, c: Confdata, ghost gws: seq<GwMeta>, ghost gwIndex: map<nat, nat>, ghost byGw: map<(nat, nat), nat>,
                       assets: seq<AssetMeta>, ghost oldAssets: map<nat, nat>, assetIndex: map<nat, nat>,
                       instruments: seq<InstrumentMeta>, prior: map<nat, nat>, index: map<nat, nat>, code: string, ghost done: set<string>, ghost na: nat, ghost n: nat)
    returns (s': Table, instruments': seq<InstrumentMeta>, index': map<nat, nat>)
    requires Named(c) && AssetsDone(s, assets, oldAssets, assetIndex, AssetNames(c, c.refdata.Keys), na)
    requires InstrumentsDone(s, c, assets, instruments, prior, index, done, n) && code in c.refdata && code !in done
    requires GwIndexDone(s, c, gws, gwIndex, instruments, index, byGw, done)
    ensures Grows(s, s') && InstrumentsDone(s', c, assets, instruments', prior, index', done + {code}, n)
    ensures InstrumentKeys(instruments) <= InstrumentKeys(instruments')
    ensures c.refdata[code].symbol in s'.ids
    ensures GwIndexDone(s', c, gws, gwIndex, instruments', index', byGw, done)
  {
    var r := c.refdata[code];
    s' := InternAll(s, RefStrings(r));
    IdsAreForever(s, RefStrings(r));
    assert {r.code, r.symbol} + NamesOf(r) <= s'.ids.Keys;
    assert NamesOf(r) <= AssetNames(c, c.refdata.Keys);
    var sym := s'.ids[code];
    var meta := MetaFor(s', assetIndex, SlotFor(prior, |instruments|, sym), r);
    AssetsGrow(s, s', assets, oldAssets, assetIndex, AssetNames(c, c.refdata.Keys), na);
    MetaForIs(s', assets, oldAssets, assetIndex, AssetNames(c, c.refdata.Keys), meta.id, r, na);
    NotIndexedYet(s, s', c, assets, instruments, prior, index, done, code, n);
    StoreInstrumentDone(s, s', c, assets, instruments, prior, index, done, code, meta, n);
    GwIndexStore(s, s', c, gws, gwIndex, instruments, index, byGw, done, meta);
    instruments', index' := StoreInstrument(instruments, meta), index[sym := meta.id];
  }

  /** A code that is still to do is not indexed, and its slot is not in use. */
  lemma NotIndexedYet(s: Table, s': Table, c: Confdata, assets: seq<AssetMeta>, instruments: seq<InstrumentMeta>,
                      prior: map<nat, nat>, index: map<nat, nat>, done: set<string>, code: string, n: nat)
    requires InstrumentsDone(s, c, assets, instruments, prior, index, done, n) && Grows(s, s') && code !in done && code in s'.ids
    ensures s'.ids[code] !in index
    ensures forall k :: k in index ==> index[k] != SlotFor(prior, |instruments|, s'.ids[code])
  {
    GrownIds(s, s');
    StoreKeepsIndex(prior, index, InstrumentKeys(instruments), |s'.strs|, s'.ids[code], n);
  }

  /** One instrument, and its entries for the gateways that serve it. */
  method AddInstrument(s: Table, c: Confdata, gws: seq<GwMeta>, gwIndex: map<nat, nat>, byGw: map<(nat, nat), nat>,
                       assets: seq<AssetMeta>, ghost oldAssets: map<nat, nat>, assetIndex: map<nat, nat>,
                       instruments: seq<InstrumentMeta>, prior: map<nat, nat>, index: map<nat, nat>, code: string, ghost done: set<string>, ghost na: nat, ghost n: nat)
    returns (s': Table, instruments': seq<InstrumentMeta>, index': map<nat, nat>, byGw': map<(nat, nat), nat>)
    requires WellFormed(c) && GatewaysAre(s, c, gws, gwIndex) && AssetsDone(s, assets, oldAssets, assetIndex, AssetNames(c, c.refdata.Keys), na)
    requires InstrumentsDone(s, c, assets, instruments, prior, index, done, n) && code in c.refdata && code !in done
    requires GwIndexDone(s, c, gws, gwIndex, instruments, index, byGw, done)
    ensures Grows(s, s') && InstrumentsDone(s', c, assets, instruments', prior, index', done + {code}, n)
    ensures InstrumentKeys(instruments) <= InstrumentKeys(instruments')
    ensures GwIndexDone(s', c, gws, gwIndex, instruments', index', byGw', done + {code})
  {
    s', instruments', index' := PutInstrument(s, c, gws, gwIndex, byGw, assets, oldAssets, assetIndex, instruments, prior, index, code, done, na, n);
    GatewaysGrow(s, s', c, gws, gwIndex);
    byGw' := LinkGateways(s', c, gws, gwIndex, instruments', assets, index', byGw, code, done);
  }

  method RebuildInstruments(s: Table, c: Confdata, gws: seq<GwMeta>, gwIndex: map<nat, nat>,
                            assets: seq<AssetMeta>, ghost oldAssets: map<nat, nat>, ghost na: nat, assetIndex: map<nat, nat>,
                            instruments: seq<InstrumentMeta>, prior: map<nat, nat>)
    returns (s': Table, instruments': seq<InstrumentMeta>, index: map<nat, nat>, byGw: map<(nat, nat), nat>)
    requires WellFormed(c) && GatewaysAre(s, c, gws, gwIndex)
    requires AssetsDone(s, assets, oldAssets, assetIndex, AssetNames(c, c.refdata.Keys), na)
    requires InstrumentsDone(s, c, assets, instruments, prior, map[], {}, |instruments|)
    ensures Grows(s, s') && InstrumentsDone(s', c, assets, instruments', prior, index, c.refdata.Keys, |instruments|)
    ensures InstrumentKeys(instruments) <= InstrumentKeys(instruments')
    ensures GwIndexDone(s', c, gws, gwIndex, instruments', index, byGw, c.refdata.Keys)
  {
    s', instruments', index, byGw := s, instruments, map[], map[];
    var todo := c.refdata.Keys;
    ghost var done: set<string> := {};
    while todo != {}
      invariant todo <= c.refdata.Keys && done == c.refdata.Keys - todo
      invariant Grows(s, s') && InstrumentKeys(instruments) <= InstrumentKeys(instruments')
      invariant InstrumentsDone(s', c, assets, instruments', prior, index, done, |instruments|)
      invariant GwIndexDone(s', c, gws, gwIndex, instruments', index, byGw, done)
      decreases todo
    {
      var code :| code in todo;
      ghost var s0 := s';
      AssetsGrow(s, s0, assets, oldAssets, assetIndex, AssetNames(c, c.refdata.Keys), na);
      GatewaysGrow(s, s0, c, gws, gwIndex);
      s', instruments', index, byGw :=
        AddInstrument(s', c, gws, gwIndex, byGw, assets, oldAssets, assetIndex, instruments', prior, index, code, done, na, |instruments|);
      GrowsTwice(s, s0, s');
      done, todo := done + {code}, todo - {code};
    }
    assert done == c.refdata.Keys;
  }

  // ---------------------------------------------------------------------
  // Trading configs
  // ---------------------------------------------------------------------

  ghost predicate TradingIs(s: Table, index: map<nat, nat>, trading: map<nat, TradingMeta>, t: Trading) {
    t.code in s.ids && s.ids[t.code] in index && index[s.ids[t.code]] in trading &&
    trading[index[s.ids[t.code]]] == TradingMeta(index[s.ids[t.code]], t)
  }

  ghost predicate TradingDone(s: Table, c: Confdata, index: map<nat, nat>, trading: map<nat, TradingMeta>, done: set<string>) {
    && (forall code :: code in done && code in c.refdata ==> code in c.trading && TradingIs(s, index, trading, c.trading[code]))
    && (forall id :: id in trading ==>
          && trading[id].config.code in c.refdata && trading[id].config.code in c.trading
          && trading[id].config == c.trading[trading[id].config.code] && TradingIs(s, index, trading, trading[id].config)
          && trading[id].instrumentId == id)
  }

  lemma TradingGrows(s: Table, s': Table, c: Confdata, index: map<nat, nat>, trading: map<nat, TradingMeta>, done: set<string>)
    requires Grows(s, s') && TradingDone(s, c, index, trading, done)
    ensures TradingDone(s', c, index, trading, done)
  {
    GrownIds(s, s');
  }

  lemma TradingStore(s: Table, c: Confdata, keys: seq<nat>, index: map<nat, nat>, trading: map<nat, TradingMeta>, done: set<string>, code: string)
    requires s.Valid() && Named(c) && Indexed(index, keys, |s.strs|) && Covers(index, s, c.refdata.Keys)
    requires TradingDone(s, c, index, trading, done) && code in c.trading && code !in done && code in s.ids
    ensures var id := SlotFor(index, 0, s.ids[code]);
            TradingDone(s, c, index, if s.ids[code] in index then trading[id := TradingMeta(id, c.trading[code])] else trading, done + {code})
  {}

  method RebuildTrading(s: Table, c: Confdata, ghost keys: seq<nat>, index: map<nat, nat>) returns (s': Table, trading: map<nat, TradingMeta>)
    requires Named(c) && s.Valid() && Indexed(index, keys, |s.strs|) && Covers(index, s, c.refdata.Keys)
    ensures Grows(s, s') && TradingDone(s', c, index, trading, c.trading.Keys)
  {
    s', trading := s, map[];
    var todo := c.trading.Keys;
    ghost var done: set<string> := {};
    while todo != {}
      invariant todo <= c.trading.Keys && done == c.trading.Keys - todo
      invariant Grows(s, s') && Covers(index, s', c.refdata.Keys) && TradingDone(s', c, index, trading, done)
      decreases todo
    {
      var code :| code in todo;
      ghost var s0 := s';
      InternGrows(s', code);
      s' := s'.Intern(code);
      CoversGrows(index, s0, s', c.refdata.Keys);
      TradingGrows(s0, s', c, index, trading, done);
      TradingStore(s', c, keys, index, trading, done, code);
      var sym := s'.ids[code];
      if sym in index {
        trading := trading[index[sym] := TradingMeta(index[sym], c.trading[code])];
      }
      done := done + {code};
      todo := todo - {code};
    }
    assert done == c.trading.Keys;
  }

  // ---------------------------------------------------------------------
  // The tables
  // ---------------------------------------------------------------------

  datatype Tables = Tables(strings: Table, instruments: seq<InstrumentMeta>, instrumentByCode: map<nat, nat>,
                           instrumentByGwSymbol: map<(nat, nat), nat>, gws: seq<GwMeta>, gwByKey: map<nat, nat>,
                           routeByAccount: map<int, RouteMeta>, assets: seq<AssetMeta>, assetBySymbol: map<nat, nat>,
                           tradingByInstrument: map<nat, TradingMeta>)

  /** Slots carry their own id, keys are interned, links are in range and the indexes find what they are asked for. */
  ghost predicate Sound(t: Tables) {
    && t.strings.Valid() && GwSlots(t.gws) && AssetSlots(t.assets) && InstrumentSlots(t.instruments, |t.assets|)
    && Indexed(t.gwByKey, GwKeys(t.gws), |t.strings.strs|)
    && Indexed(t.assetBySymbol, AssetKeys(t.assets), |t.strings.strs|)
    && Indexed(t.instrumentByCode, InstrumentKeys(t.instruments), |t.strings.strs|)
  }

  /** The tables say about every gateway, route, instrument, symbol and trading config what `c` says, and nothing else. */
  ghost predicate Reflects(t: Tables, c: Confdata) {
    && GatewaysAre(t.strings, c, t.gws, t.gwByKey)
    && RoutesDone(t.strings, c, t.gwByKey, t.routeByAccount, c.routes.Keys)
    && Covers(t.assetBySymbol, t.strings, AssetNames(c, c.refdata.Keys))
    && Covers(t.instrumentByCode, t.strings, c.refdata.Keys)
    && (forall code {:trigger InstrumentAt(t.strings, t.assets, t.instruments, t.instrumentByCode, c.refdata[code])} ::
          code in c.refdata ==> InstrumentAt(t.strings, t.assets, t.instruments, t.instrumentByCode, c.refdata[code]))
    && GwIndexDone(t.strings, c, t.gws, t.gwByKey, t.instruments, t.instrumentByCode, t.instrumentByGwSymbol, c.refdata.Keys)
    && TradingDone(t.strings, c, t.instrumentByCode, t.tradingByInstrument, c.trading.Keys)
  }

  /** Every id allocated in `t` names the same gateway, asset or instrument in `t'`. */
  ghost predicate Extends(t: Tables, t': Tables) {
    && Grows(t.strings, t'.strings)
    && GwKeys(t.gws) <= GwKeys(t'.gws) && AssetKeys(t.assets) <= AssetKeys(t'.assets)
    && InstrumentKeys(t.instruments) <= InstrumentKeys(t'.instruments)
  }

  /** What is configured both before and after keeps its id; what was not configured before gets a fresh one. */
  ghost predicate KeepsAllIds(t: Tables, t': Tables) {
    && KeepsIds(t.gwByKey, t'.gwByKey, |t.gws|) && KeepsIds(t.assetBySymbol, t'.assetBySymbol, |t.assets|)
    && KeepsIds(t.instrumentByCode, t'.instrumentByCode, |t.instruments|)
  }

  /** The names that ids resolve to. */
  ghost function GwName(t: Tables, id: nat): Option<string> {
    if id < |t.gws| && t.gws[id].keySym < |t.strings.strs| then Some(t.strings.strs[t.gws[id].keySym]) else None
  }

  ghost function AssetName(t: Tables, id: nat): Option<string> {
    if id < |t.assets| && t.assets[id].sym < |t.strings.strs| then Some(t.strings.strs[t.assets[id].sym]) else None
  }

  ghost function InstrumentName(t: Tables, id: nat): Option<string> {
    if id < |t.instruments| && t.instruments[id].codeSym < |t.strings.strs| then Some(t.strings.strs[t.instruments[id].codeSym]) else None
  }

  /** In extended tables every allocated id still resolves, and to the same name. */
  lemma IdsResolveForever(t: Tables, t': Tables)
    requires Sound(t) && Extends(t, t')
    ensures forall id :: 0 <= id < |t.gws| ==> GwName(t, id).Some? && GwName(t', id) == GwName(t, id)
    ensures forall id :: 0 <= id < |t.assets| ==> AssetName(t, id).Some? && AssetName(t', id) == AssetName(t, id)
    ensures forall id :: 0 <= id < |t.instruments| ==> InstrumentName(t, id).Some? && InstrumentName(t', id) == InstrumentName(t, id)
  {
    forall id | 0 <= id < |t.gws| ensures GwName(t, id).Some? && GwName(t', id) == GwName(t, id) {
      assert GwKeys(t.gws)[id] == GwKeys(t'.gws)[id];
    }
    forall id | 0 <= id < |t.assets| ensures AssetName(t, id).Some? && AssetName(t', id) == AssetName(t, id) {
      assert AssetKeys(t.assets)[id] == AssetKeys(t'.assets)[id];
    }
    forall id | 0 <= id < |t.instruments| ensures InstrumentName(t, id).Some? && InstrumentName(t', id) == InstrumentName(t, id) {
      assert InstrumentKeys(t.instruments)[id] == InstrumentKeys(t'.instruments)[id];
    }
  }

  lemma InstrumentsGrow(s: Table, s': Table, c: Confdata, assets: seq<AssetMeta>, instruments: seq<InstrumentMeta>,
                        prior: map<nat, nat>, index: map<nat, nat>, done: set<string>, n: nat)
    requires InstrumentsDone(s, c, assets, instruments, prior, index, done, n) && Grows(s, s')
    ensures InstrumentsDone(s', c, assets, instruments, prior, index, done, n)
  {
    CoversGrows(index, s, s', done);
    forall code | code in done ensures InstrumentAt(s', assets, instruments, index, c.refdata[code]) {
      InstrumentAtGrows(s, s', assets, instruments, index, c.refdata[code]);
    }
  }

  lemma GwIndexGrows(s: Table, s': Table, c: Confdata, gws: seq<GwMeta>, gwIndex: map<nat, nat>, instruments: seq<InstrumentMeta>,
                     index: map<nat, nat>, byGw: map<(nat, nat), nat>, done: set<string>)
    requires GwIndexDone(s, c, gws, gwIndex, instruments, index, byGw, done) && Grows(s, s')
    ensures GwIndexDone(s', c, gws, gwIndex, instruments, index, byGw, done)
  {
    forall key | key in byGw ensures GwEntryIs(s', c, gws, gwIndex, instruments, index, key, byGw[key]) {
      assert GwEntryIs(s, c, gws, gwIndex, instruments, index, key, byGw[key]);
    }
    forall code | code in done && code in c.refdata ensures Reachable(s', c, gwIndex, byGw, c.refdata[code]) {
      ReachableGrows(s, s', c, gwIndex, byGw, byGw, c.refdata[code]);
    }
  }

  /** Links that are in range stay in range when the asset vector grows. */
  lemma SlotsGrow(instruments: seq<InstrumentMeta>, n: nat, n': nat)
    requires InstrumentSlots(instruments, n) && n <= n'
    ensures InstrumentSlots(instruments, n')
  {}

  /** First half of a rebuild: gateways, routes, assets. */
  method RebuildVenues(t: Tables, c: Confdata)
    returns (s: Table, gws: seq<GwMeta>, gwByKey: map<nat, nat>, routes: map<int, RouteMeta>, assets: seq<AssetMeta>, assetBySymbol: map<nat, nat>)
    requires Sound(t) && Named(c)
    ensures Grows(t.strings, s) && GwKeys(t.gws) <= GwKeys(gws) && AssetKeys(t.assets) <= AssetKeys(assets)
    ensures GwDone(s, c, gws, t.gwByKey, gwByKey, c.gws.Keys, |t.gws|) && RoutesDone(s, c, gwByKey, routes, c.routes.Keys)
    ensures AssetsDone(s, assets, t.assetBySymbol, assetBySymbol, AssetNames(c, c.refdata.Keys), |t.assets|)
  {
    assert GwDone(t.strings, c, t.gws, t.gwByKey, map[], {}, |t.gws|);
    var s1, s2;
    s1, gws, gwByKey := RebuildGateways(t.strings, c, t.gws, t.gwByKey);
    s2, routes := RebuildRoutes(s1, c, gws, gwByKey);
    assert AssetsDone(s2, t.assets, t.assetBySymbol, map[], {}, |t.assets|);
    s, assets, assetBySymbol := RebuildAssets(s2, c, t.assets, t.assetBySymbol);
    GwDoneGrows(s1, s, c, gws, t.gwByKey, gwByKey, c.gws.Keys, |t.gws|);
    RoutesGrow(s2, s, c, gwByKey, routes, c.routes.Keys);
  }

  /** Second half of a rebuild: instruments and trading configs. */
  method RebuildMarkets(s: Table, t: Tables, c: Confdata, gws: seq<GwMeta>, gwByKey: map<nat, nat>, assets: seq<AssetMeta>, assetBySymbol: map<nat, nat>)
    returns (s': Table, instruments: seq<InstrumentMeta>, byCode: map<nat, nat>, byGw: map<(nat, nat), nat>, trading: map<nat, TradingMeta>)
    requires WellFormed(c) && GatewaysAre(s, c, gws, gwByKey)
    requires AssetsDone(s, assets, t.assetBySymbol, assetBySymbol, AssetNames(c, c.refdata.Keys), |t.assets|)
    requires InstrumentsDone(s, c, assets, t.instruments, t.instrumentByCode, map[], {}, |t.instruments|)
    ensures Grows(s, s') && InstrumentKeys(t.instruments) <= InstrumentKeys(instruments)
    ensures InstrumentsDone(s', c, assets, instruments, t.instrumentByCode, byCode, c.refdata.Keys, |t.instruments|)
    ensures GwIndexDone(s', c, gws, gwByKey, instruments, byCode, byGw, c.refdata.Keys)
    ensures TradingDone(s', c, byCode, trading, c.trading.Keys)
  {
    var s1;
    s1, instruments, byCode, byGw :=
      RebuildInstruments(s, c, gws, gwByKey, assets, t.assetBySymbol, |t.assets|, assetBySymbol, t.instruments, t.instrumentByCode);
    s', trading := RebuildTrading(s1, c, InstrumentKeys(instruments), byCode);
    InstrumentsGrow(s1, s', c, assets, instruments, t.instrumentByCode, byCode, c.refdata.Keys, |t.instruments|);
    GwIndexGrows(s1, s', c, gws, gwByKey, instruments, byCode, byGw, c.refdata.Keys);
  }

  /**
   Rebuild the tables for a new configuration, in any iteration order of its maps: the result says
   what the configuration says, re-points no id, and keeps the id of everything still configured.
   */
  method Rebuild(t: Tables, c: Confdata) returns (t': Tables)
    requires Sound(t) && WellFormed(c)
    ensures Sound(t') && Reflects(t', c)
    ensures Extends(t, t') && KeepsAllIds(t, t')
  {
    var s, gws, gwByKey, routes, assets, assetBySymbol := RebuildVenues(t, c);
    SlotsGrow(t.instruments, |t.assets|, |assets|);
    assert InstrumentsDone(s, c, assets, t.instruments, t.instrumentByCode, map[], {}, |t.instruments|);
    var s', instruments, byCode, byGw, trading := RebuildMarkets(s, t, c, gws, gwByKey, assets, assetBySymbol);
    GwDoneGrows(s, s', c, gws, t.gwByKey, gwByKey, c.gws.Keys, |t.gws|);
    RoutesGrow(s, s', c, gwByKey, routes, c.routes.Keys);
    AssetsGrow(s, s', assets, t.assetBySymbol, assetBySymbol, AssetNames(c, c.refdata.Keys), |t.assets|);
    t' := Tables(s', instruments, byCode, byGw, gws, gwByKey, routes, assets, assetBySymbol, trading);
  }

  function IdOf(s: Table, index: map<nat, nat>, name: string): Option<nat> {
    if name in s.ids && s.ids[name] in index then Some(index[s.ids[name]]) else None
  }

  /** A name that had an id at first has that same id now exactly when it is in all of `names`. */
  ghost predicate SameIds(s: Table, index: map<nat, nat>, s': Table, index': map<nat, nat>, names: seq<set<string>>) {
    forall name :: IdOf(s, index, name).Some? ==>
      (IdOf(s', index', name) == IdOf(s, index, name) <==> forall i :: 0 <= i < |names| ==> name in names[i])
  }

  /** After one more reload a name has the id it had at first exactly when it had it before, and is configured. */
  lemma SameIdStep(s: Table, index: map<nat, nat>, s1: Table, index1: map<nat, nat>, s2: Table, index2: map<nat, nat>, n1: nat,
                   names: set<string>, name: string)
    requires Grows(s, s1) && Grows(s1, s2) && KeepsIds(index1, index2, n1) && Covers(index2, s2, names)
    requires IdOf(s, index, name).Some? && IdOf(s, index, name).value < n1
    ensures IdOf(s2, index2, name) == IdOf(s, index, name) <==> IdOf(s1, index1, name) == IdOf(s, index, name) && name in names
  {
    GrownIds(s, s1);
    GrownIds(s1, s2);
  }

  lemma SameIdsStep(s: Table, index: map<nat, nat>, s1: Table, index1: map<nat, nat>, s2: Table, index2: map<nat, nat>, n1: nat,
                    names: seq<set<string>>, last: set<string>)
    requires Grows(s, s1) && Grows(s1, s2) && KeepsIds(index1, index2, n1) && Covers(index2, s2, last)
    requires (forall sym :: sym in index ==> index[sym] < n1) && SameIds(s, index, s1, index1, names)
    ensures SameIds(s, index, s2, index2, names + [last])
  {
    forall name | IdOf(s, index, name).Some?
      ensures IdOf(s2, index2, name) == IdOf(s, index, name) <==> forall i :: 0 <= i < |names + [last]| ==> name in (names + [last])[i]
    {
      SameIdStep(s, index, s1, index1, s2, index2, n1, last, name);
      InAll(names, last, name);
    }
  }

  lemma InAll(names: seq<set<string>>, last: set<string>, name: string)
    ensures (forall i :: 0 <= i < |names + [last]| ==> name in (names + [last])[i]) <==>
            (forall i :: 0 <= i < |names| ==> name in names[i]) && name in last
  {
    var all := names + [last];
    assert all[|names|] == last && forall i :: 0 <= i < |names| ==> all[i] == names[i];
  }

  ghost function GwNames(configs: seq<Confdata>): seq<set<string>> {
    if configs == [] then [] else GwNames(configs[..|configs| - 1]) + [configs[|configs| - 1].gws.Keys]
  }

  ghost function Codes(configs: seq<Confdata>): seq<set<string>> {
    if configs == [] then [] else Codes(configs[..|configs| - 1]) + [configs[|configs| - 1].refdata.Keys]
  }

  ghost function AllAssetNames(configs: seq<Confdata>): seq<set<string>> {
    if configs == [] then []
    else
      var last := configs[|configs| - 1];
      AllAssetNames(configs[..|configs| - 1]) + [AssetNames(last, last.refdata.Keys)]
  }

  /** Every gateway, asset and instrument keeps its first id exactly as long as each reload still has it. */
  ghost predicate KeptThrough(t: Tables, t': Tables, configs: seq<Confdata>) {
    && SameIds(t.strings, t.gwByKey, t'.strings, t'.gwByKey, GwNames(configs))
    && SameIds(t.strings, t.assetBySymbol, t'.strings, t'.assetBySymbol, AllAssetNames(configs))
    && SameIds(t.strings, t.instrumentByCode, t'.strings, t'.instrumentByCode, Codes(configs))
  }

  /** What one more reload brings. */
  ghost predicate Reloaded(t: Tables, t': Tables, c: Confdata) {
    && Grows(t.strings, t'.strings) && KeepsAllIds(t, t')
    && Covers(t'.gwByKey, t'.strings, c.gws.Keys) && Covers(t'.instrumentByCode, t'.strings, c.refdata.Keys)
    && Covers(t'.assetBySymbol, t'.strings, AssetNames(c, c.refdata.Keys))
  }

  /** The ids in `t` are slots of `t'`. */
  ghost predicate Allocated(t: Tables, t': Tables) {
    && (forall sym :: sym in t.gwByKey ==> t.gwByKey[sym] < |t'.gws|)
    && (forall sym :: sym in t.assetBySymbol ==> t.assetBySymbol[sym] < |t'.assets|)
    && (forall sym :: sym in t.instrumentByCode ==> t.instrumentByCode[sym] < |t'.instruments|)
  }

  lemma StillAllocated(t: Tables, t': Tables)
    requires Sound(t) && Extends(t, t')
    ensures Allocated(t, t')
  {}

  lemma KeptStep(t: Tables, t1: Tables, t2: Tables, configs: seq<Confdata>, c: Confdata)
    requires Allocated(t, t1) && Grows(t.strings, t1.strings) && Reloaded(t1, t2, c) && KeptThrough(t, t1, configs)
    ensures KeptThrough(t, t2, configs + [c])
  {
    assert (configs + [c])[..|configs|] == configs;
    SameIdsStep(t.strings, t.gwByKey, t1.strings, t1.gwByKey, t2.strings, t2.gwByKey, |t1.gws|, GwNames(configs), c.gws.Keys);
    SameIdsStep(t.strings, t.assetBySymbol, t1.strings, t1.assetBySymbol, t2.strings, t2.assetBySymbol, |t1.assets|,
                AllAssetNames(configs), AssetNames(c, c.refdata.Keys));
    SameIdsStep(t.strings, t.instrumentByCode, t1.strings, t1.instrumentByCode, t2.strings, t2.instrumentByCode, |t1.instruments|,
                Codes(configs), c.refdata.Keys);
  }

  /**
   Any sequence of reloads: no id is ever re-pointed, the tables reflect the last configuration, and what
   was configured at first has its id still exactly when no reload left it out.
   */
  method RebuildAll(t: Tables, configs: seq<Confdata>, last: Confdata) returns (t': Tables)
    requires Sound(t) && WellFormed(last) && forall i :: 0 <= i < |configs| ==> WellFormed(configs[i])
    ensures Sound(t') && Extends(t, t') && Reflects(t', last) && KeptThrough(t, t', configs + [last])
  {
    var t1 := t;
    for i := 0 to |configs|
      invariant Sound(t1) && Extends(t, t1) && KeptThrough(t, t1, configs[..i])
    {
      assert configs[..i + 1] == configs[..i] + [configs[i]];
      t1 := Reload(t, t1, configs[..i], configs[i]);
    }
    assert configs[..|configs|] == configs;
    t' := Reload(t, t1, configs, last);
  }

  method Reload(ghost first: Tables, t: Tables, ghost before: seq<Confdata>, c: Confdata) returns (t': Tables)
    requires Sound(first) && Sound(t) && WellFormed(c) && Extends(first, t) && KeptThrough(first, t, before)
    ensures Sound(t') && Extends(first, t') && Reflects(t', c) && KeptThrough(first, t', before + [c])
  {
    t' := Rebuild(t, c);
    ExtendsTransitive(first, t, t');
    StillAllocated(first, t);
    KeptStep(first, t, t', before, c);
  }

  lemma ExtendsTransitive(t: Tables, t': Tables, t'': Tables)
    requires Extends(t, t') && Extends(t', t'')
    ensures Extends(t, t'')
  {}

  /** The id under which gateway `k` is known. */
  ghost predicate IsGateway(t: Tables, k: string, gwId: nat) {
    k in t.strings.ids && t.strings.ids[k] in t.gwByKey && t.gwByKey[t.strings.ids[k]] == gwId
  }

  /** What an entry of the (gateway, symbol) index leads to. */
  lemma EntryIsServed(s: Table, c: Confdata, gws: seq<GwMeta>, gwIndex: map<nat, nat>, assets: seq<AssetMeta>,
                      instruments: seq<InstrumentMeta>, index: map<nat, nat>, k: string, gwId: nat, symbol: string, id: nat)
    requires s.Valid() && Named(c) && k in s.ids && s.ids[k] in gwIndex && gwIndex[s.ids[k]] == gwId
    requires Indexed(gwIndex, GwKeys(gws), |s.strs|) && symbol in s.ids
    requires GwEntryIs(s, c, gws, gwIndex, instruments, index, (gwId, s.ids[symbol]), id)
    requires forall code :: code in c.refdata ==> InstrumentAt(s, assets, instruments, index, c.refdata[code])
    ensures exists code :: code in c.refdata && Served(c, k, symbol, c.refdata[code]) && InstrumentIs(s, assets, instruments[id], c.refdata[code])
  {
    var code := s.strs[instruments[id].codeSym];
    assert InstrumentAt(s, assets, instruments, index, c.refdata[code]);
    assert GwKeys(gws)[gwId] == s.ids[k];
    assert Served(c, k, symbol, c.refdata[code]);
  }

  /** Lookup by (gateway, symbol) finds something exactly when some instrument is served there, and finds such an instrument. */
  lemma GwLookupMeaning(t: Tables, c: Confdata, k: string, gwId: nat, symbol: string)
    requires Sound(t) && Reflects(t, c) && Named(c) && k in c.gws && IsGateway(t, k, gwId)
    ensures (symbol in t.strings.ids && (gwId, t.strings.ids[symbol]) in t.instrumentByGwSymbol) <==>
              exists code :: code in c.refdata && Served(c, k, symbol, c.refdata[code])
    ensures symbol in t.strings.ids && (gwId, t.strings.ids[symbol]) in t.instrumentByGwSymbol ==>
              var id := t.instrumentByGwSymbol[(gwId, t.strings.ids[symbol])];
              && id < |t.instruments|
              && exists code :: code in c.refdata && Served(c, k, symbol, c.refdata[code]) &&
                   InstrumentIs(t.strings, t.assets, t.instruments[id], c.refdata[code])
  {
    if symbol in t.strings.ids && (gwId, t.strings.ids[symbol]) in t.instrumentByGwSymbol {
      var id := t.instrumentByGwSymbol[(gwId, t.strings.ids[symbol])];
      EntryIsServed(t.strings, c, t.gws, t.gwByKey, t.assets, t.instruments, t.instrumentByCode, k, gwId, symbol, id);
    }
    if code :| code in c.refdata && Served(c, k, symbol, c.refdata[code]) {
      assert Reachable(t.strings, c, t.gwByKey, t.instrumentByGwSymbol, c.refdata[code]);
    }
  }

  function LookupByCode(t: Tables, code: string): Option<InstrumentMeta> {
    if code in t.strings.ids && t.strings.ids[code] in t.instrumentByCode then
      var id := t.instrumentByCode[t.strings.ids[code]];
      if id < |t.instruments| then Some(t.instruments[id]) else None
    else None
  }

  /** A code is found exactly when the configuration has it, with the data the configuration has. */
  lemma CodeLookupAgrees(t: Tables, c: Confdata, code: string)
    requires Reflects(t, c) && Named(c)
    ensures LookupByCode(t, code).Some? <==> code in c.refdata
    ensures code in c.refdata ==> InstrumentIs(t.strings, t.assets, LookupByCode(t, code).value, c.refdata[code])
  {
    if code in c.refdata {
      assert InstrumentAt(t.strings, t.assets, t.instruments, t.instrumentByCode, c.refdata[code]);
    }
  }

  function LookupByGw(t: Tables, gwId: nat, symbol: string): Option<InstrumentMeta> {
    if symbol in t.strings.ids && (gwId, t.strings.ids[symbol]) in t.instrumentByGwSymbol then
      var id := t.instrumentByGwSymbol[(gwId, t.strings.ids[symbol])];
      if id < |t.instruments| then Some(t.instruments[id]) else None
    else None
  }

  /** The integer lookup and the string-keyed lookup find the same instrument, or neither finds one. */
  lemma GwLookupAgrees(t: Tables, c: Confdata, k: string, gwId: nat, symbol: string)
    requires Sound(t) && Reflects(t, c) && Named(c) && UnambiguousAt(c, k, symbol) && k in c.gws && IsGateway(t, k, gwId)
    ensures match AtGateway(c, k, symbol)
            case Some(ref) => LookupByGw(t, gwId, symbol).Some? &&
                              InstrumentIs(t.strings, t.assets, LookupByGw(t, gwId, symbol).value, ref)
            case None => LookupByGw(t, gwId, symbol).None?
  {
    GwLookupMeaning(t, c, k, gwId, symbol);
    AgreeFrom(t.strings, t.assets, c, k, symbol, LookupByGw(t, gwId, symbol));
  }

  lemma AgreeFrom(s: Table, assets: seq<AssetMeta>, c: Confdata, k: string, symbol: string, found: Option<InstrumentMeta>)
    requires UnambiguousAt(c, k, symbol)
    requires found.Some? <==> exists code :: code in c.refdata && Served(c, k, symbol, c.refdata[code])
    requires found.Some? ==> exists code :: code in c.refdata && Served(c, k, symbol, c.refdata[code]) &&
                                            InstrumentIs(s, assets, found.value, c.refdata[code])
    ensures match AtGateway(c, k, symbol)
            case Some(ref) => found.Some? && InstrumentIs(s, assets, found.value, ref)
            case None => found.None?
  {
    match AtGateway(c, k, symbol)
    case Some(ref) =>
      assert Served(c, k, symbol, ref);
      assert Served(c, k, symbol, c.refdata[ref.code]);
    case None =>
  }

  class MetadataTables {
    var strings: Table
    var instruments: seq<InstrumentMeta>
    var instrumentByCode: map<nat, nat>
    var instrumentByGwSymbol: map<(nat, nat), nat>
    var gws: seq<GwMeta>
    var gwByKey: map<nat, nat>
    var routeByAccount: map<int, RouteMeta>
    var assets: seq<AssetMeta>
    var assetBySymbol: map<nat, nat>
    var tradingByInstrument: map<nat, TradingMeta>

    function Contents(): Tables
      reads this
    {
      Tables(strings, instruments, instrumentByCode, instrumentByGwSymbol, gws, gwByKey, routeByAccount, assets, assetBySymbol,
             tradingByInstrument)
    }

    method Store(t: Tables)
      modifies this
      ensures Contents() == t
    {
      strings, instruments, instrumentByCode, instrumentByGwSymbol := t.strings, t.instruments, t.instrumentByCode, t.instrumentByGwSymbol;
      gws, gwByKey, routeByAccount := t.gws, t.gwByKey, t.routeByAccount;
      assets, assetBySymbol, tradingByInstrument := t.assets, t.assetBySymbol, t.tradingByInstrument;
    }

    /** Build from a configuration: the rebuild of empty tables, where every key takes the append branch. */
    constructor FromConfdata(c: Confdata)
      requires WellFormed(c)
      ensures Sound(Contents()) && Reflects(Contents(), c)
    {
      strings, instruments, instrumentByCode, instrumentByGwSymbol := EMPTY, [], map[], map[];
      gws, gwByKey, routeByAccount := [], map[], map[];
      assets, assetBySymbol, tradingByInstrument := [], map[], map[];
      new;
      var t := Rebuild(Contents(), c);
      Store(t);
    }

    method RebuildFromConfig(c: Confdata)
      requires Sound(Contents()) && WellFormed(c)
      modifies this
      ensures Sound(Contents()) && Reflects(Contents(), c)
      ensures Extends(old(Contents()), Contents()) && KeepsAllIds(old(Contents()), Contents())
    {
      var t := Rebuild(Contents(), c);
      Store(t);
    }

    method ResolveInstrument(code: string) returns (r: Option<InstrumentMeta>)
      ensures r == LookupByCode(Contents(), code)
    {
      if code !in strings.ids || strings.ids[code] !in instrumentByCode { return None; }
      var id := instrumentByCode[strings.ids[code]];
      return if id < |instruments| then Some(instruments[id]) else None;
    }

    method ResolveInstrumentByGw(gwId: nat, symbol: string) returns (r: Option<InstrumentMeta>)
      ensures r == LookupByGw(Contents(), gwId, symbol)
    {
      if symbol !in strings.ids || (gwId, strings.ids[symbol]) !in instrumentByGwSymbol { return None; }
      var id := instrumentByGwSymbol[(gwId, strings.ids[symbol])];
      return if id < |instruments| then Some(instruments[id]) else None;
    }

    /** The route of an account: found exactly when it is configured with a configured gateway; its gateway id names that gateway. */
    method RouteOf(account: int, ghost c: Confdata) returns (r: Option<RouteMeta>)
      requires Sound(Contents()) && Reflects(Contents(), c) && Named(c)
      ensures r.Some? <==> account in c.routes && c.routes[account].gwKey in c.gws
      ensures r.Some? ==>
                && GwName(Contents(), r.value.gwId) == Some(c.routes[account].gwKey)
                && r.value.exchAccountSym < |strings.strs| && strings.strs[r.value.exchAccountSym] == c.routes[account].exchAccount
    {
      if account in routeByAccount {
        assert RouteIs(strings, gwByKey, routeByAccount[account], c.routes[account]);
        return Some(routeByAccount[account]);
      }
      return None;
    }
  }

  /** A gateway that is configured, dropped and configured again: the rebuild gives it a new id, and the old id keeps its name. */
  lemma ReaddedGatewayGetsFreshId(t0: Tables, t1: Tables, t2: Tables, c0: Confdata, c1: Confdata, c2: Confdata, k: string)
    requires Sound(t0) && Sound(t1) && Sound(t2) && Reflects(t0, c0) && Reflects(t1, c1) && Reflects(t2, c2)
    requires Extends(t0, t1) && KeepsAllIds(t0, t1) && Extends(t1, t2) && KeepsAllIds(t1, t2)
    requires k in c0.gws && k in c2.gws && Named(c0) && Named(c2)
    ensures k in t0.strings.ids && k in t2.strings.ids
    ensures (t2.gwByKey[t2.strings.ids[k]] == t0.gwByKey[t0.strings.ids[k]]) <==> k in c1.gws
    ensures GwName(t2, t0.gwByKey[t0.strings.ids[k]]) == Some(k)
  {
    GrownIds(t0.strings, t1.strings);
    GrownIds(t1.strings, t2.strings);
    assert GwIs(t0.strings, t0.gws, t0.gwByKey, c0.gws[k]);
    assert GwIs(t2.strings, t2.gws, t2.gwByKey, c2.gws[k]);
    IdsResolveForever(t0, t1);
    IdsResolveForever(t1, t2);
    assert GwName(t0, t0.gwByKey[t0.strings.ids[k]]) == Some(k);
  }

  const NO_TABLES := Tables(EMPTY, [], map[], map[], [], map[], map[], [], map[], map[])

  /** A configuration with one gateway, and one without any. */
  function OneGateway(): Confdata {
    Confdata(map[], map["gw" := GwConfig("gw", "V", [])], map["V" := {"gw"}], map[], map[], map[])
  }

  const NO_GATEWAY := Confdata(map[], map[], map[], map[], map[], map[])

  lemma BothWellFormed()
    ensures WellFormed(OneGateway()) && WellFormed(NO_GATEWAY)
  {
    assert Upper("V") == "V";
  }

  lemma NoTablesAreSound()
    ensures Sound(NO_TABLES)
  {}

  /** Reload with `c`, with `between` and with `c` again, and look up the gateway `k` before and after. */
  method ReloadTwice(start: Tables, c: Confdata, between: Confdata, k: string) returns (t: Tables, t': Tables, first: nat, second: nat)
    requires Sound(start) && WellFormed(c) && WellFormed(between) && k in c.gws
    ensures IsGateway(t, k, first) && IsGateway(t', k, second)
    ensures first == second <==> k in between.gws
  {
    t := Rebuild(start, c);
    var t1 := Rebuild(t, between);
    t' := Rebuild(t1, c);
    ReaddedGatewayGetsFreshId(t, t1, t', c, between, c, k);
    assert GwIs(t.strings, t.gws, t.gwByKey, c.gws[k]) && GwIs(t'.strings, t'.gws, t'.gwByKey, c.gws[k]);
    first, second := t.gwByKey[t.strings.ids[k]], t'.gwByKey[t'.strings.ids[k]];
  }

  /** Configured, dropped and configured again, the gateway ends up under another id. */
  method ReaddedGateway() returns (t: Tables, t': Tables, first: nat, second: nat)
    ensures IsGateway(t, "gw", first) && IsGateway(t', "gw", second) && first != second
  {
    BothWellFormed();
    NoTablesAreSound();
    t, t', first, second := ReloadTwice(NO_TABLES, OneGateway(), NO_GATEWAY, "gw");
  }
}
