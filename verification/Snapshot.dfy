/**
 The persisted form of a registry: providers and routes in lists sorted by id.
 A snapshot is validated before it is written and before it is rebuilt.
 */
module Snapshot {
  import opened Base
  import opened Registry

  datatype Snapshot = Snapshot(providers: seq<Provider>, routes: seq<Route>)

  // ----- the order of ids -----

  predicate Less(a: string, b: string) {
    if b == "" then false
    else if a == "" then true
    else if a[0] != b[0] then a[0] < b[0]
    else Less(a[1..], b[1..])
  }

  lemma {:induction false} LessTotal(a: string, b: string)
    ensures a == b || Less(a, b) || Less(b, a)
    ensures !(Less(a, b) && Less(b, a)) && !Less(a, a)
    decreases |a|
  {
    if a != "" {
      LessTotal(a[1..], a[1..]);
      if b != "" && a[0] == b[0] {
        LessTotal(a[1..], b[1..]);
        assert a == [a[0]] + a[1..] && b == [b[0]] + b[1..];
      }
    }
  }

  lemma {:induction false} LessTransitive(a: string, b: string, c: string)
    requires Less(a, b) && Less(b, c)
    ensures Less(a, c)
    decreases |a|
  {
    if a != "" && a[0] == b[0] && b[0] == c[0] {
      LessTransitive(a[1..], b[1..], c[1..]);
    }
  }

  ghost predicate Ascending(ids: seq<string>) {
    forall i, j :: 0 <= i < j < |ids| ==> Less(ids[i], ids[j])
  }

  /** The list holds each of the keys once, in ascending order. */
  ghost predicate Sorts(ids: seq<string>, keys: set<string>) {
    Ascending(ids) && forall k :: k in ids <==> k in keys
  }

  lemma AscendingHead(ids: seq<string>, k: string)
    requires Ascending(ids) && k in ids
    ensures k == ids[0] || Less(ids[0], k)
  {}

  lemma AscendingTail(ids: seq<string>, k: string)
    requires Ascending(ids) && ids != []
    ensures k in ids[1..] <==> k in ids && k != ids[0]
  {
    if k in ids[1..] {
      var i :| 1 <= i < |ids| && ids[i] == k;
      LessTotal(k, k);
    }
  }

  lemma FirstIn(s: seq<string>)
    ensures s == [] || s[0] in s
  {}

  /** Sorting leaves no choice. */
  lemma {:induction false} SortsUnique(a: seq<string>, b: seq<string>)
    requires Ascending(a) && Ascending(b)
    requires forall k :: k in a <==> k in b
    ensures a == b
    decreases |a|
  {
    if a == [] || b == [] {
      FirstIn(a);
      FirstIn(b);
    } else {
      assert a[0] in a && b[0] in b;
      AscendingHead(a, b[0]);
      AscendingHead(b, a[0]);
      LessTotal(a[0], b[0]);
      forall k
        ensures k in a[1..] <==> k in b[1..]
      {
        AscendingTail(a, k);
        AscendingTail(b, k);
      }
      SortsUnique(a[1..], b[1..]);
      assert a == [a[0]] + a[1..] && b == [b[0]] + b[1..];
    }
  }

  /** Where an id belongs in an ascending list. */
  method InsertId(ids: seq<string>, id: string) returns (r: seq<string>)
    requires Ascending(ids) && id !in ids
    ensures Ascending(r) && forall k :: k in r <==> k in ids || k == id
  {
    var i := 0;
    while i < |ids| && Less(ids[i], id)
      invariant i <= |ids|
      invariant forall j :: 0 <= j < i ==> Less(ids[j], id)
    {
      i := i + 1;
    }
    r := ids[..i] + [id] + ids[i..];
    InsertedInOrder(ids, id, i);
  }

  lemma InsertedInOrder(ids: seq<string>, id: string, i: nat)
    requires Ascending(ids) && id !in ids && i <= |ids|
    requires (forall j :: 0 <= j < i ==> Less(ids[j], id)) && (i < |ids| ==> !Less(ids[i], id))
    ensures Ascending(ids[..i] + [id] + ids[i..])
    ensures forall k :: k in ids[..i] + [id] + ids[i..] <==> k in ids || k == id
  {
    hide Less;
    forall j | i <= j < |ids|
      ensures Less(id, ids[j])
    {
      LessTotal(ids[i], id);
      assert ids[i] in ids;
      if j > i {
        LessTransitive(id, ids[i], ids[j]);
      }
    }
    assert ids == ids[..i] + ids[i..];
  }

  method SortIds(keys: set<string>) returns (ids: seq<string>)
    ensures Sorts(ids, keys)
  {
    ids := [];
    var todo := keys;
    while todo != {}
      invariant todo <= keys && Sorts(ids, keys - todo)
      decreases |todo|
    {
      var id :| id in todo;
      ids := InsertId(ids, id);
      todo := todo - {id};
    }
  }

  lemma SortsExist(keys: set<string>)
    ensures exists ids :: Sorts(ids, keys)
  {
    if keys == {} {
      assert Sorts([], keys);
    } else {
      var k := PickLeast(keys);
      SortsExist(keys - {k});
      var rest :| Sorts(rest, keys - {k});
      forall i | 0 <= i < |rest|
        ensures Less(k, rest[i])
      {
        assert rest[i] in rest;
      }
      assert Sorts([k] + rest, keys);
    }
  }

  lemma PickLeast(keys: set<string>) returns (k: string)
    requires keys != {}
    ensures k in keys && forall other :: other in keys && other != k ==> Less(k, other)
  {
    k :| k in keys;
    if keys != {k} {
      var l := PickLeast(keys - {k});
      LessTotal(k, l);
      if Less(l, k) {
        k := l;
      } else {
        forall other | other in keys && other != k
          ensures Less(k, other)
        {
          if other != l {
            LessTransitive(k, l, other);
          }
        }
      }
    }
  }

  ghost function SortedIds(keys: set<string>): (ids: seq<string>)
    ensures Sorts(ids, keys)
  {
    SortsExist(keys);
    var ids :| Sorts(ids, keys);
    ids
  }

  // ----- taking a snapshot -----

  /** The sorted lists of a registry: a function of its maps, whatever their insertion order. */
  ghost function SnapshotOf(st: State): Snapshot {
    var ps, rs := SortedIds(st.providers.Keys), SortedIds(st.routes.Keys);
    Snapshot(
      seq(|ps|, i requires 0 <= i < |ps| => assert ps[i] in ps; st.providers[ps[i]]),
      seq(|rs|, i requires 0 <= i < |rs| => assert rs[i] in rs; st.routes[rs[i]]))
  }

  method CreateSnapshot(registry: InMemoryProviderRegistry) returns (snapshot: Snapshot)
    ensures snapshot == SnapshotOf(registry.Value())
  {
    var ps := SortIds(registry.providers.Keys);
    var rs := SortIds(registry.routes.Keys);
    SortsUnique(ps, SortedIds(registry.providers.Keys));
    SortsUnique(rs, SortedIds(registry.routes.Keys));
    var providers := [];
    for i := 0 to |ps|
      invariant |providers| == i
      invariant forall j :: 0 <= j < i ==> ps[j] in registry.providers && providers[j] == registry.providers[ps[j]]
    {
      assert ps[i] in ps;
      providers := providers + [registry.providers[ps[i]]];
    }
    var routes := [];
    for i := 0 to |rs|
      invariant |routes| == i
      invariant forall j :: 0 <= j < i ==> rs[j] in registry.routes && routes[j] == registry.routes[rs[j]]
    {
      assert rs[i] in rs;
      routes := routes + [registry.routes[rs[i]]];
    }
    snapshot := Snapshot(providers, routes);
  }

  // ----- validating a snapshot -----

  function ProviderMap(list: seq<Provider>): map<string, Provider> {
    if list == [] then map[] else ProviderMap(list[..|list| - 1])[list[|list| - 1].id := list[|list| - 1]]
  }

  function RouteMap(list: seq<Route>): map<string, Route> {
    if list == [] then map[] else RouteMap(list[..|list| - 1])[list[|list| - 1].id := list[|list| - 1]]
  }

  function StateOf(snapshot: Snapshot): State {
    State(ProviderMap(snapshot.providers), RouteMap(snapshot.routes))
  }

  predicate SafeProvider(rules: Rules, p: Provider) {
    ProviderOk(rules, p) && (p.credentialRef.Some? ==> !rules.refLooksSecret(p.credentialRef.value))
  }

  /** An enabled route has an enabled primary. */
  predicate Live(st: State, r: Route) {
    RouteLinked(st, r) && (r.enabled ==> st.providers[r.providerId].enabled)
  }

  predicate DistinctProviders(list: seq<Provider>) {
    forall i, j :: 0 <= i < j < |list| ==> list[i].id != list[j].id
  }

  predicate DistinctRoutes(list: seq<Route>) {
    forall i, j :: 0 <= i < j < |list| ==> list[i].id != list[j].id
  }

  /** What `validateConfigSnapshot` accepts. */
  predicate Accepts(rules: Rules, s: Snapshot) {
    && (forall i :: 0 <= i < |s.providers| ==> SafeProvider(rules, s.providers[i]))
    && (forall i :: 0 <= i < |s.routes| ==> RouteOk(rules, s.routes[i]))
    && DistinctProviders(s.providers) && DistinctRoutes(s.routes)
    && forall i :: 0 <= i < |s.routes| ==> Live(StateOf(s), s.routes[i])
  }

  lemma {:induction false} ProviderMapKeys(list: seq<Provider>)
    ensures forall id :: id in ProviderMap(list) <==> exists i :: 0 <= i < |list| && list[i].id == id
    ensures DistinctProviders(list) ==> forall i :: 0 <= i < |list| ==> ProviderMap(list)[list[i].id] == list[i]
    decreases |list|
  {
    if list != [] {
      var init, last := list[..|list| - 1], list[|list| - 1];
      ProviderMapKeys(init);
      assert list == init + [last];
      forall id
        ensures id in ProviderMap(list) <==> exists i :: 0 <= i < |list| && list[i].id == id
      {
        if id in ProviderMap(list) {
          if id == last.id {
            assert list[|list| - 1].id == id;
          } else {
            assert id in ProviderMap(init);
            var i :| 0 <= i < |init| && init[i].id == id;
            assert list[i].id == id;
          }
        }
        if i :| 0 <= i < |list| && list[i].id == id {
          assert i < |init| ==> init[i].id == id;
        }
      }
      assert forall i :: 0 <= i < |init| ==> init[i] == list[i];
    }
  }

  lemma {:induction false} RouteMapKeys(list: seq<Route>)
    ensures forall id :: id in RouteMap(list) <==> exists i :: 0 <= i < |list| && list[i].id == id
    ensures DistinctRoutes(list) ==> forall i :: 0 <= i < |list| ==> RouteMap(list)[list[i].id] == list[i]
    decreases |list|
  {
    if list != [] {
      var init, last := list[..|list| - 1], list[|list| - 1];
      RouteMapKeys(init);
      assert list == init + [last];
      forall id
        ensures id in RouteMap(list) <==> exists i :: 0 <= i < |list| && list[i].id == id
      {
        if id in RouteMap(list) {
          if id == last.id {
            assert list[|list| - 1].id == id;
          } else {
            assert id in RouteMap(init);
            var i :| 0 <= i < |init| && init[i].id == id;
            assert list[i].id == id;
          }
        }
        if i :| 0 <= i < |list| && list[i].id == id {
          assert i < |init| ==> init[i].id == id;
        }
      }
      assert forall i :: 0 <= i < |init| ==> init[i] == list[i];
    }
  }

  /** `validateConfigSnapshot`: entries first, then duplicates and references over growing indexes. */
  method ValidateSnapshot(rules: Rules, s: Snapshot) returns (ok: bool)
    ensures ok <==> Accepts(rules, s)
  {
    hide RouteOk;
    hide SafeProvider;
    hide Live;
    hide Accepts;
    hide DistinctProviders;
    hide DistinctRoutes;
    AcceptsMeans(rules, s);
    for i := 0 to |s.providers|
      invariant forall j :: 0 <= j < i ==> SafeProvider(rules, s.providers[j])
    {
      if !SafeProvider(rules, s.providers[i]) {
        return false;
      }
    }
    for i := 0 to |s.routes|
      invariant forall j :: 0 <= j < i ==> RouteOk(rules, s.routes[j])
    {
      if !RouteOk(rules, s.routes[i]) {
        return false;
      }
    }
    var providerById, distinct := IndexProviders(s.providers);
    if !distinct {
      return false;
    }
    ok := CheckRoutes(s, providerById);
  }

  lemma AcceptsMeans(rules: Rules, s: Snapshot)
    ensures Accepts(rules, s) <==>
              && (forall j :: 0 <= j < |s.providers| ==> SafeProvider(rules, s.providers[j]))
              && (forall j :: 0 <= j < |s.routes| ==> RouteOk(rules, s.routes[j]))
              && DistinctProviders(s.providers) && DistinctRoutes(s.routes)
              && (forall j :: 0 <= j < |s.routes| ==> Live(StateOf(s), s.routes[j]))
  {
    hide RouteOk, SafeProvider, Live, StateOf;
  }

  /** The index of the providers, unless an id comes twice. */
  method IndexProviders(list: seq<Provider>) returns (providerById: map<string, Provider>, distinct: bool)
    ensures distinct <==> DistinctProviders(list)
    ensures distinct ==> providerById == ProviderMap(list)
  {
    providerById := map[];
    for i := 0 to |list|
      invariant providerById == ProviderMap(list[..i])
      invariant DistinctProviders(list[..i])
    {
      var p := list[i];
      ProviderMapKeys(list[..i]);
      assert list[..i + 1] == list[..i] + [p];
      if p.id in providerById {
        var j :| 0 <= j < i && list[..i][j].id == p.id;
        assert list[j].id == p.id;
        return map[], false;
      }
      providerById := providerById[p.id := p];
    }
    assert list[..|list|] == list;
    distinct := true;
  }

  method CheckRoutes(s: Snapshot, providerById: map<string, Provider>) returns (ok: bool)
    requires providerById == ProviderMap(s.providers)
    ensures ok <==> DistinctRoutes(s.routes) && forall j :: 0 <= j < |s.routes| ==> Live(StateOf(s), s.routes[j])
  {
    hide Live;
    var routeIds: set<string> := {};
    for i := 0 to |s.routes|
      invariant forall id :: id in routeIds <==> exists j :: 0 <= j < i && s.routes[j].id == id
      invariant forall j, k :: 0 <= j < k < i ==> s.routes[j].id != s.routes[k].id
      invariant forall j :: 0 <= j < i ==> Live(StateOf(s), s.routes[j])
    {
      var r := s.routes[i];
      if r.id in routeIds {
        return false;
      }
      routeIds := routeIds + {r.id};
      LiveByProviders(StateOf(s), State(providerById, map[]), r);
      if !Live(State(providerById, map[]), r) {
        return false;
      }
    }
    return true;
  }

  lemma LiveByProviders(a: State, b: State, r: Route)
    requires a.providers == b.providers
    ensures Live(a, r) == Live(b, r)
  {
    assert forall id, model :: Serves(a, id, model) == Serves(b, id, model);
  }

  // ----- snapshot round trip -----

  /** What a registry needs to be written: safe references, and no enabled route on a disabled primary. */
  predicate Persistable(rules: Rules, st: State) {
    && (forall id <- st.providers :: st.providers[id].credentialRef.Some? ==> !rules.refLooksSecret(st.providers[id].credentialRef.value))
    && (forall id <- st.routes :: st.routes[id].enabled ==>
          st.routes[id].providerId in st.providers && st.providers[st.routes[id].providerId].enabled)
  }

  lemma SnapshotLists(rules: Rules, st: State)
    requires Integrity(rules, st)
    ensures var s := SnapshotOf(st);
            && DistinctProviders(s.providers) && DistinctRoutes(s.routes)
            && (forall i :: 0 <= i < |s.providers| ==> s.providers[i].id in st.providers && st.providers[s.providers[i].id] == s.providers[i])
            && (forall i :: 0 <= i < |s.routes| ==> s.routes[i].id in st.routes && st.routes[s.routes[i].id] == s.routes[i])
            && (forall id :: id in st.providers ==> exists i :: 0 <= i < |s.providers| && s.providers[i].id == id)
            && (forall id :: id in st.routes ==> exists i :: 0 <= i < |s.routes| && s.routes[i].id == id)
  {
    hide ProviderOk;
    hide RouteOk;
    hide RouteLinked;
    var s := SnapshotOf(st);
    var ps, rs := SortedIds(st.providers.Keys), SortedIds(st.routes.Keys);
    forall i | 0 <= i < |ps|
      ensures s.providers[i].id == ps[i] && ps[i] in st.providers
    {
      assert ps[i] in ps;
    }
    forall i | 0 <= i < |rs|
      ensures s.routes[i].id == rs[i] && rs[i] in st.routes
    {
      assert rs[i] in rs;
    }
    forall i, j | 0 <= i < j < |ps|
      ensures s.providers[i].id != s.providers[j].id
    {
      LessTotal(ps[i], ps[j]);
    }
    forall i, j | 0 <= i < j < |rs|
      ensures s.routes[i].id != s.routes[j].id
    {
      LessTotal(rs[i], rs[j]);
    }
    forall id | id in st.providers
      ensures exists i :: 0 <= i < |s.providers| && s.providers[i].id == id
    {
      assert id in ps;
      var i :| 0 <= i < |ps| && ps[i] == id;
      assert s.providers[i].id == id;
    }
    forall id | id in st.routes
      ensures exists i :: 0 <= i < |s.routes| && s.routes[i].id == id
    {
      assert id in rs;
      var i :| 0 <= i < |rs| && rs[i] == id;
      assert s.routes[i].id == id;
    }
  }

  /** Rebuilding the maps from the lists gives the registry back. */
  lemma SnapshotRoundTrip(rules: Rules, st: State)
    requires Integrity(rules, st)
    ensures StateOf(SnapshotOf(st)) == st
  {
    hide Integrity;
    hide SnapshotOf;
    var s := SnapshotOf(st);
    SnapshotLists(rules, st);
    ProviderMapKeys(s.providers);
    RouteMapKeys(s.routes);
    assert ProviderMap(s.providers).Keys == st.providers.Keys;
    assert ProviderMap(s.providers) == st.providers;
    assert RouteMap(s.routes).Keys == st.routes.Keys;
    assert RouteMap(s.routes) == st.routes;
  }

  /** A snapshot is accepted exactly when no enabled route has a disabled primary and references are safe. */
  lemma AcceptedExactlyWhen(rules: Rules, st: State)
    requires Integrity(rules, st)
    ensures Accepts(rules, SnapshotOf(st)) <==> Persistable(rules, st)
  {
    hide SnapshotOf;
    hide StateOf;
    hide ProviderOk;
    hide RouteOk;
    hide RouteLinked;
    var s := SnapshotOf(st);
    SnapshotRoundTrip(rules, st);
    SnapshotLists(rules, st);
    if Accepts(rules, s) {
      forall id <- st.providers
        ensures SafeProvider(rules, st.providers[id])
      {
        var i :| 0 <= i < |s.providers| && s.providers[i].id == id;
        assert SafeProvider(rules, s.providers[i]);
      }
      forall id <- st.routes
        ensures Live(st, st.routes[id])
      {
        var i :| 0 <= i < |s.routes| && s.routes[i].id == id;
        assert Live(StateOf(s), s.routes[i]);
      }
      assert forall id <- st.routes :: RouteLinked(st, st.routes[id]);
      LinkedPrimaries(rules, st);
    }
    if Persistable(rules, st) {
      forall i | 0 <= i < |s.routes|
        ensures Live(StateOf(s), s.routes[i])
      {
        assert RouteLinked(st, st.routes[s.routes[i].id]);
        LinkedPrimaries(rules, st);
      }
    }
  }

  lemma LinkedPrimaries(rules: Rules, st: State)
    requires Integrity(rules, st)
    ensures forall id <- st.routes :: st.routes[id].providerId in st.providers
  {
    forall id <- st.routes
      ensures st.routes[id].providerId in st.providers
    {
      assert RouteLinked(st, st.routes[id]);
    }
  }

  // ----- rebuilding a registry -----

  /** `createRegistryFromSnapshot`: validation first, then a fresh registry entry by entry. */
  method CreateRegistry(rules: Rules, s: Snapshot) returns (registry: InMemoryProviderRegistry, ok: bool)
    ensures fresh(registry) && registry.rules == rules
    ensures ok <==> Accepts(rules, s)
    ensures ok ==> registry.Value() == StateOf(s)
  {
    hide Accepts;
    hide RegisterProvider;
    hide PutRoute;
    registry := new InMemoryProviderRegistry(rules);
    ok := ValidateSnapshot(rules, s);
    if !ok {
      return;
    }
    for i := 0 to |s.providers|
      invariant fresh(registry) && registry.rules == rules
      invariant registry.Value() == State(ProviderMap(s.providers[..i]), map[])
    {
      AcceptedProviderFits(rules, s, i);
      var error := registry.Register(Shaped(s.providers[i]));
    }
    assert s.providers[..|s.providers|] == s.providers;
    for i := 0 to |s.routes|
      invariant fresh(registry) && registry.rules == rules
      invariant registry.Value() == State(ProviderMap(s.providers), RouteMap(s.routes[..i]))
    {
      AcceptedRouteFits(rules, s, i);
      var error := registry.Put(Shaped(s.routes[i]), true);
    }
    assert s.routes[..|s.routes|] == s.routes;
  }

  /** The next provider of an accepted snapshot can be registered. */
  lemma AcceptedProviderFits(rules: Rules, s: Snapshot, i: nat)
    requires Accepts(rules, s) && i < |s.providers|
    ensures RegisterProvider(rules, State(ProviderMap(s.providers[..i]), map[]), Shaped(s.providers[i]))
         == Ok(State(ProviderMap(s.providers[..i + 1]), map[]))
  {
    hide Live;
    hide ProviderOk;
    var p := s.providers[i];
    ProviderMapKeys(s.providers[..i]);
    assert s.providers[..i + 1][..i] == s.providers[..i];
    assert SafeProvider(rules, p);
  }

  /** Once all providers are there, the next route of an accepted snapshot can be registered. */
  lemma AcceptedRouteFits(rules: Rules, s: Snapshot, i: nat)
    requires Accepts(rules, s) && i < |s.routes|
    ensures PutRoute(rules, State(ProviderMap(s.providers), RouteMap(s.routes[..i])), Shaped(s.routes[i]), true)
         == Ok(State(ProviderMap(s.providers), RouteMap(s.routes[..i + 1])))
  {
    hide RouteOk;
    hide Live;
    hide PutRoute;
    hide ProviderMap;
    hide SafeProvider;
    var r, st := s.routes[i], State(ProviderMap(s.providers), RouteMap(s.routes[..i]));
    RouteMapKeys(s.routes[..i]);
    assert s.routes[..i + 1][..i] == s.routes[..i];
    assert Live(StateOf(s), r);
    LiveByProviders(StateOf(s), st, r);
    LiveRouteFits(rules, st, r);
  }

  lemma LiveRouteFits(rules: Rules, st: State, r: Route)
    requires RouteOk(rules, r) && Live(st, r) && r.id !in st.routes
    ensures PutRoute(rules, st, Shaped(r), true) == Ok(st.(routes := st.routes[r.id := r]))
  {
    LinkProblemMeaning(st, r);
  }
}
