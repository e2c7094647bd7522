/**
 The string-keyed configuration of the order management system: the lookup maps
 that are built once from the raw config entries.
 */
module Confdata {
  import opened Ordering

  datatype RefData = RefData(code: string, symbol: string, venue: string, kind: int,
                             base: string, quote: string, settlement: string,
                             qtyPrecision: int, pricePrecision: int, disabled: bool)

  datatype GwConfig = GwConfig(key: string, venue: string, cancelFields: seq<string>)

  datatype Route = Route(account: int, gwKey: string, exchAccount: string)

  datatype Trading = Trading(code: string, bookkeeping: bool, balanceCheck: bool, useMargin: bool, marginRatio: real,
                             maxOrderSize: Option<real>, publishOnTrade: bool, publishOnBook: bool, publishOnCancel: bool)

  datatype Confdata = Confdata(routes: map<int, Route>, gws: map<string, GwConfig>,
                               gwKeysByVenue: map<string, set<string>>, refdata: map<string, RefData>,
                               refdataByGw: map<string, map<string, RefData>>, trading: map<string, Trading>)

  /** Venue names are matched without regard to case. */
  function Upper(s: string): string {
    seq(|s|, i requires 0 <= i < |s| => if 'a' <= s[i] <= 'z' then ((s[i] as int) - 32) as char else s[i])
  }

  function DefaultTrading(code: string): Trading {
    Trading(code, false, false, false, 1.0, None, true, false, false)
  }

  /** Every map is keyed by what its entries say. */
  ghost predicate Named(c: Confdata) {
    && (forall a :: a in c.routes ==> c.routes[a].account == a)
    && (forall k :: k in c.gws ==> c.gws[k].key == k)
    && (forall code :: code in c.refdata ==> c.refdata[code].code == code)
    && (forall code :: code in c.trading ==> c.trading[code].code == code)
  }

  /** A venue lists exactly the gateways that serve it. */
  ghost predicate VenuesListed(gws: map<string, GwConfig>, venues: map<string, set<string>>) {
    && (forall v, k :: v in venues && k in venues[v] ==> k in gws && Upper(gws[k].venue) == v)
    && (forall k :: k in gws ==> Upper(gws[k].venue) in venues && k in venues[Upper(gws[k].venue)])
  }

  ghost predicate WellFormed(c: Confdata) {
    Named(c) && VenuesListed(c.gws, c.gwKeysByVenue)
  }

  function Enabled(refs: seq<RefData>): seq<RefData> {
    if refs == [] then []
    else
      var rest := Enabled(refs[..|refs| - 1]);
      if refs[|refs| - 1].disabled then rest else rest + [refs[|refs| - 1]]
  }

  /** Collecting into a map: a later entry with the same code wins. */
  function ByCode(refs: seq<RefData>): map<string, RefData> {
    if refs == [] then map[] else ByCode(refs[..|refs| - 1])[refs[|refs| - 1].code := refs[|refs| - 1]]
  }

  /** The instruments of one venue by exchange symbol: a later entry with the same symbol wins. */
  function BySymbol(refs: seq<RefData>, venue: string): map<string, RefData> {
    if refs == [] then map[]
    else
      var rest := BySymbol(refs[..|refs| - 1], venue);
      var last := refs[|refs| - 1];
      if Upper(last.venue) == venue then rest[last.symbol := last] else rest
  }

  lemma {:induction false} EnabledElements(refs: seq<RefData>)
    ensures forall r :: r in Enabled(refs) <==> r in refs && !r.disabled
  {
    if refs != [] {
      EnabledElements(refs[..|refs| - 1]);
      assert refs == refs[..|refs| - 1] + [refs[|refs| - 1]];
    }
  }

  /** A code is found exactly when some entry has it, and the entry found has it. */
  lemma {:induction false} ByCodeElements(refs: seq<RefData>)
    ensures forall code :: code in ByCode(refs) ==> ByCode(refs)[code] in refs && ByCode(refs)[code].code == code
    ensures forall r :: r in refs ==> r.code in ByCode(refs)
  {
    if refs != [] {
      ByCodeElements(refs[..|refs| - 1]);
      assert refs == refs[..|refs| - 1] + [refs[|refs| - 1]];
    }
  }

  lemma {:induction false} BySymbolElements(refs: seq<RefData>, venue: string)
    ensures forall s :: s in BySymbol(refs, venue) ==>
              && BySymbol(refs, venue)[s] in refs && BySymbol(refs, venue)[s].symbol == s
              && Upper(BySymbol(refs, venue)[s].venue) == venue
    ensures forall r :: r in refs && Upper(r.venue) == venue ==> r.symbol in BySymbol(refs, venue)
  {
    if refs != [] {
      BySymbolElements(refs[..|refs| - 1], venue);
      assert refs == refs[..|refs| - 1] + [refs[|refs| - 1]];
    }
  }

  predicate Collide(r: RefData, r': RefData) {
    r.code == r'.code || (r.symbol == r'.symbol && Upper(r.venue) == Upper(r'.venue))
  }

  /** No two enabled entries share a code, and no two share a venue and a symbol. */
  ghost predicate Distinct(refs: seq<RefData>) {
    forall r, r' :: r in refs && r' in refs && !r.disabled && !r'.disabled && Collide(r, r') ==> r == r'
  }

  /** `r` is an instrument in force that gateway `k` serves under the symbol `symbol`. */
  ghost predicate Served(c: Confdata, k: string, symbol: string, r: RefData) {
    && k in c.gws && Upper(r.venue) == Upper(c.gws[k].venue) && r.symbol == symbol
    && r.code in c.refdata && c.refdata[r.code] == r
  }

  /** The lookup by gateway and symbol finds exactly the instrument in force there. */
  ghost predicate UnambiguousAt(c: Confdata, k: string, symbol: string) {
    forall r :: AtGateway(c, k, symbol) == Some(r) <==> Served(c, k, symbol, r)
  }

  ghost predicate Unambiguous(c: Confdata) {
    forall k, symbol :: k in c.gws ==> UnambiguousAt(c, k, symbol)
  }

  function AtGateway(c: Confdata, gwKey: string, symbol: string): Option<RefData> {
    if gwKey in c.refdataByGw && symbol in c.refdataByGw[gwKey] then Some(c.refdataByGw[gwKey][symbol]) else None
  }

  function LastRoute(all: seq<Route>, account: int): Option<Route> {
    if all == [] then None
    else if all[|all| - 1].account == account then Some(all[|all| - 1])
    else LastRoute(all[..|all| - 1], account)
  }

  function LastGateway(gws: seq<GwConfig>, key: string): Option<GwConfig> {
    if gws == [] then None
    else if gws[|gws| - 1].key == key then Some(gws[|gws| - 1])
    else LastGateway(gws[..|gws| - 1], key)
  }

  function LastTrading(configs: seq<Trading>, code: string): Option<Trading> {
    if configs == [] then None
    else if configs[|configs| - 1].code == code then Some(configs[|configs| - 1])
    else LastTrading(configs[..|configs| - 1], code)
  }

  function Lookup<K, V>(m: map<K, V>, k: K): Option<V> {
    if k in m then Some(m[k]) else None
  }

  /** The routes of managed accounts, and the last of them for each account. */
  method Routes(managed: set<int>, all: seq<Route>) returns (routes: seq<Route>, m: map<int, Route>)
    ensures forall r :: r in routes <==> r in all && r.account in managed
    ensures forall a :: Lookup(m, a) == if a in managed then LastRoute(all, a) else None
    ensures forall a :: a in m ==> m[a].account == a && m[a] in all
  {
    routes, m := [], map[];
    for i := 0 to |all|
      invariant forall r :: r in routes <==> r in all[..i] && r.account in managed
      invariant forall a :: Lookup(m, a) == if a in managed then LastRoute(all[..i], a) else None
      invariant forall a :: a in m ==> m[a].account == a && m[a] in all
    {
      assert all[..i + 1] == all[..i] + [all[i]];
      if all[i].account in managed {
        routes := routes + [all[i]];
        m := m[all[i].account := all[i]];
      }
    }
    assert all[..|all|] == all;
  }

  /** The gateways that some route uses, by key; a later one with the same key wins. */
  method Gateways(routes: seq<Route>, gws: seq<GwConfig>) returns (m: map<string, GwConfig>)
    ensures forall k :: Lookup(m, k) == if exists r :: r in routes && r.gwKey == k then LastGateway(gws, k) else None
    ensures forall k :: k in m ==> m[k].key == k
  {
    var relevant := set r | r in routes :: r.gwKey;
    m := map[];
    for i := 0 to |gws|
      invariant forall k :: Lookup(m, k) == if k in relevant then LastGateway(gws[..i], k) else None
      invariant forall k :: k in m ==> m[k].key == k
    {
      assert gws[..i + 1][..i] == gws[..i];
      if gws[i].key in relevant {
        m := m[gws[i].key := gws[i]];
      }
    }
    assert gws[..|gws|] == gws;
  }

  method Venues(gws: map<string, GwConfig>) returns (m: map<string, set<string>>)
    ensures VenuesListed(gws, m)
  {
    m := map[];
    var todo := gws.Keys;
    while todo != {}
      invariant todo <= gws.Keys
      invariant forall v, k :: v in m && k in m[v] ==> k in gws && Upper(gws[k].venue) == v
      invariant forall k :: k in gws && k !in todo ==> Upper(gws[k].venue) in m && k in m[Upper(gws[k].venue)]
      decreases todo
    {
      var k :| k in todo;
      todo := todo - {k};
      var v := Upper(gws[k].venue);
      m := m[v := (if v in m then m[v] else {}) + {k}];
    }
  }

  /** The per-gateway symbol tables: each gateway sees the instruments of its venue. */
  method SymbolTables(gws: map<string, GwConfig>, venues: map<string, set<string>>, refs: seq<RefData>)
    returns (m: map<string, map<string, RefData>>)
    requires VenuesListed(gws, venues)
    ensures forall k :: k in gws ==> (if k in m then m[k] else map[]) == BySymbol(refs, Upper(gws[k].venue))
  {
    m := map[];
    for i := 0 to |refs|
      invariant forall k :: k in gws ==> (if k in m then m[k] else map[]) == BySymbol(refs[..i], Upper(gws[k].venue))
    {
      var r := refs[i];
      var v := Upper(r.venue);
      var serving := if v in venues then venues[v] else {};
      var todo := serving;
      ghost var before := m;
      while todo != {}
        invariant todo <= serving
        invariant forall k :: k in gws && (k !in serving || k in todo) ==> (k in m <==> k in before) && (k in m ==> m[k] == before[k])
        invariant forall k :: k in serving && k !in todo ==>
                    k in m && m[k] == (if k in before then before[k] else map[])[r.symbol := r]
        decreases todo
      {
        var k :| k in todo;
        todo := todo - {k};
        m := m[k := (if k in m then m[k] else map[])[r.symbol := r]];
      }
      assert refs[..i + 1][..i] == refs[..i];
    }
    assert refs[..|refs|] == refs;
  }

  /** The last trading configuration of each instrument, and a default for those that have none. */
  method TradingConfigs(configs: seq<Trading>, refdata: map<string, RefData>) returns (m: map<string, Trading>)
    ensures forall code :: Lookup(m, code) ==
              if LastTrading(configs, code).Some? || code !in refdata then LastTrading(configs, code) else Some(DefaultTrading(code))
    ensures forall code :: code in m ==> m[code].code == code
  {
    m := map[];
    for i := 0 to |configs|
      invariant forall code :: Lookup(m, code) == LastTrading(configs[..i], code)
      invariant forall code :: code in m ==> m[code].code == code
    {
      assert configs[..i + 1][..i] == configs[..i];
      m := m[configs[i].code := configs[i]];
    }
    assert configs[..|configs|] == configs;
    ghost var given := m;
    var todo := refdata.Keys;
    while todo != {}
      invariant todo <= refdata.Keys
      invariant forall code :: Lookup(m, code) ==
                  if code in given || code !in refdata || code in todo then Lookup(given, code) else Some(DefaultTrading(code))
      invariant forall code :: code in m ==> m[code].code == code
      decreases todo
    {
      var code :| code in todo;
      todo := todo - {code};
      if Lookup(m, code).None? {
        m := m[code := DefaultTrading(code)];
      }
    }
  }

  /** Build the configuration. With distinct entries its two instrument lookups agree. */
  method NewConfdata(managed: set<int>, allRoutes: seq<Route>, allGws: seq<GwConfig>, refs: seq<RefData>, tradings: seq<Trading>)
    returns (c: Confdata)
    ensures WellFormed(c)
    ensures forall a :: Lookup(c.routes, a) == if a in managed then LastRoute(allRoutes, a) else None
    ensures forall k :: Lookup(c.gws, k) ==
              if exists r :: r in allRoutes && r.account in managed && r.gwKey == k then LastGateway(allGws, k) else None
    ensures c.refdata == ByCode(Enabled(refs)) && c.refdata.Keys <= c.trading.Keys
    ensures forall code :: Lookup(c.trading, code) ==
              if LastTrading(tradings, code).Some? || code !in c.refdata then LastTrading(tradings, code) else Some(DefaultTrading(code))
    ensures forall k :: k in c.gws ==>
              (if k in c.refdataByGw then c.refdataByGw[k] else map[]) == BySymbol(Enabled(refs), Upper(c.gws[k].venue))
    ensures Distinct(refs) ==> Unambiguous(c)
  {
    var routes, routeMap := Routes(managed, allRoutes);
    var gws := Gateways(routes, allGws);
    var venues := Venues(gws);
    var enabled := Enabled(refs);
    var byGw := SymbolTables(gws, venues, enabled);
    var refdata := ByCode(enabled);
    var trading := TradingConfigs(tradings, refdata);
    c := Confdata(routeMap, gws, venues, refdata, byGw, trading);
    ByCodeElements(enabled);
    assert forall code :: code in refdata ==> Lookup(trading, code).Some?;
    if Distinct(refs) {
      DistinctIsUnambiguous(refs, c);
    }
  }

  /** Among distinct entries, what a venue lists under a symbol is what is in force there. */
  lemma UniqueAt(refs: seq<RefData>, venue: string, symbol: string, r: RefData)
    requires Distinct(refs)
    ensures var at, inForce := BySymbol(Enabled(refs), venue), ByCode(Enabled(refs));
            (symbol in at && at[symbol] == r) <==>
            (Upper(r.venue) == venue && r.symbol == symbol && r.code in inForce && inForce[r.code] == r)
  {
    var at, inForce := BySymbol(Enabled(refs), venue), ByCode(Enabled(refs));
    EnabledElements(refs);
    ByCodeElements(Enabled(refs));
    BySymbolElements(Enabled(refs), venue);
    if symbol in at && at[symbol] == r {
      assert Collide(r, inForce[r.code]);
    }
    if Upper(r.venue) == venue && r.symbol == symbol && r.code in inForce && inForce[r.code] == r {
      assert r in Enabled(refs);
      assert Collide(r, at[symbol]);
    }
  }

  lemma DistinctIsUnambiguous(refs: seq<RefData>, c: Confdata)
    requires Distinct(refs) && c.refdata == ByCode(Enabled(refs))
    requires forall k :: k in c.gws ==>
               (if k in c.refdataByGw then c.refdataByGw[k] else map[]) == BySymbol(Enabled(refs), Upper(c.gws[k].venue))
    ensures Unambiguous(c)
  {
    forall k, s | k in c.gws ensures UnambiguousAt(c, k, s) {
      forall r ensures AtGateway(c, k, s) == Some(r) <==> Served(c, k, s, r) {
        UniqueAt(refs, Upper(c.gws[k].venue), s, r);
      }
    }
  }
}
