// Workspaces, routes, tiers and targets, and the edits that change them
// (internal/routing/model.go, edit.go and reconcile.go). A target's version is
// a 64-bit revision of its backend settings; a workspace keeps, for every target
// ID it ever used, the highest version given out.
module Routing {
  import opened Wrappers

  const MAX_VERSION: nat := 0xFFFF_FFFF_FFFF_FFFF
  const INITIAL_VERSION: Version := 1

  // A 64-bit revision; no edit may wrap it around.
  type Version = v: nat | v <= MAX_VERSION

  // --------------------------------------------------------------- the values

  datatype Auth = NoAuth | HeaderAuth(name: string, credential: string)

  // Only durable provider configuration; two connections are equal exactly when
  // it is.
  datatype Connection =
    | Standard(provider: string, locator: string, credential: string)
    | ZAI(provider: string, access: string, credential: string)
    | Bedrock(provider: string, region: string, endpoint: string, credential: string)
    | Custom(provider: string, baseUrl: string, auth: Auth)

  datatype Protocol = Protocol(value: string, provider: string)

  datatype Settings = Settings(model: string, protocol: Protocol, connection: Option<Connection>)

  datatype Target = Target(id: string, version: Version, settings: Settings)

  datatype Route = Route(name: string, tiers: seq<seq<Target>>)

  datatype Workspace = Workspace(
    slug: string,
    defaultRoute: string,
    routes: map<string, Route>,
    generations: map<string, Version>
  )

  type Config = map<string, Workspace>

  datatype TargetSpec = TargetSpec(id: string, settings: Settings)

  type RouteSpec = seq<seq<TargetSpec>>

  datatype RoutingError = InvalidConfig | NotFound | Conflict | LastRoute | DefaultReplacementRequired

  function Flat<T>(tiers: seq<seq<T>>): seq<T> {
    if tiers == [] then [] else tiers[0] + Flat(tiers[1..])
  }

  function TargetsOf(route: Route): seq<Target> {
    Flat(route.tiers)
  }

  function Ids(targets: seq<Target>): set<string> {
    set t | t in targets :: t.id
  }

  ghost function Active(routes: map<string, Route>): set<Target> {
    set name, t | name in routes && t in TargetsOf(routes[name]) :: t
  }

  // ---------------------------------------------------------------- validity

  predicate ValidSettings(settings: Settings) {
    && settings.model != ""
    && settings.protocol.value != ""
    && settings.connection.Some?
    && settings.connection.value.provider != ""
    && settings.protocol.provider == settings.connection.value.provider
  }

  predicate ValidTarget(target: Target) {
    target.id != "" && target.version != 0 && ValidSettings(target.settings)
  }

  predicate AllValid(targets: seq<Target>) {
    forall i :: 0 <= i < |targets| ==> ValidTarget(targets[i])
  }

  predicate UniqueIds(targets: seq<Target>) {
    forall i, j :: 0 <= i < j < |targets| ==> targets[i].id != targets[j].id
  }

  predicate ValidTier(targets: seq<Target>) {
    targets != [] && AllValid(targets) && UniqueIds(targets)
  }

  predicate NoEmptyTier<T>(tiers: seq<seq<T>>) {
    forall i :: 0 <= i < |tiers| ==> |tiers[i]| > 0
  }

  predicate ValidRoute(route: Route) {
    && route.name != ""
    && route.tiers != []
    && NoEmptyTier(route.tiers)
    && AllValid(TargetsOf(route))
    && UniqueIds(TargetsOf(route))
  }

  predicate ValidRoutes(routes: map<string, Route>) {
    && (forall name :: name in routes ==> routes[name].name == name && ValidRoute(routes[name]))
    && (forall a, b :: a in routes && b in routes && a != b ==> Ids(TargetsOf(routes[a])) !! Ids(TargetsOf(routes[b])))
  }

  predicate ValidWorkspace(w: Workspace) {
    w.slug != "" && w.routes != map[] && w.defaultRoute in w.routes && ValidRoutes(w.routes)
  }

  // ------------------------------------------------- tiers and routes, checked

  lemma {:induction false} FlatAppends<T>(tiers: seq<seq<T>>, last: seq<T>)
    ensures Flat(tiers + [last]) == Flat(tiers) + last
  {
    if tiers == [] {
      assert tiers + [last] == [last] && Flat([last][1..]) == [];
    } else {
      assert (tiers + [last])[1..] == tiers[1..] + [last];
      FlatAppends(tiers[1..], last);
      assert tiers[0] + (Flat(tiers[1..]) + last) == tiers[0] + Flat(tiers[1..]) + last;
    }
  }

  lemma {:induction false} FlatPrefix<T>(tiers: seq<seq<T>>, i: nat)
    requires i < |tiers|
    ensures Flat(tiers[..i + 1]) == Flat(tiers[..i]) + tiers[i]
    ensures Flat(tiers[..i]) + tiers[i] <= Flat(tiers)
  {
    assert tiers[..i + 1] == tiers[..i] + [tiers[i]];
    FlatAppends(tiers[..i], tiers[i]);
    FlatSplits(tiers, i + 1);
  }

  lemma {:induction false} FlatSplits<T>(tiers: seq<seq<T>>, i: nat)
    requires i <= |tiers|
    ensures Flat(tiers) == Flat(tiers[..i]) + Flat(tiers[i..])
  {
    if i > 0 {
      FlatSplits(tiers[1..], i - 1);
      assert tiers[..i][1..] == tiers[1..][..i - 1] && tiers[i..] == tiers[1..][i - 1..];
      assert tiers[0] + (Flat(tiers[1..][..i - 1]) + Flat(tiers[i..]))
          == tiers[0] + Flat(tiers[1..][..i - 1]) + Flat(tiers[i..]);
    }
  }

  lemma {:induction false} FlatMembers<T>(tiers: seq<seq<T>>, x: T)
    ensures x in Flat(tiers) <==> exists i :: 0 <= i < |tiers| && x in tiers[i]
  {
    if tiers != [] {
      FlatMembers(tiers[1..], x);
      if x in Flat(tiers[1..]) {
        var i :| 0 <= i < |tiers[1..]| && x in tiers[1..][i];
        assert x in tiers[i + 1];
      }
      if i :| 0 <= i < |tiers| && x in tiers[i] {
        assert i > 0 ==> x in tiers[1..][i - 1];
      }
    }
  }

  // Admits the targets one by one, remembering their IDs.
  method AdmitTargets(targets: seq<Target>, seen: set<string>) returns (ok: bool, after: set<string>)
    ensures ok <==> Admissible(seen, targets)
    ensures ok ==> after == seen + Ids(targets)
  {
    after := seen;
    for i := 0 to |targets|
      invariant AllValid(targets[..i]) && UniqueIds(targets[..i]) && Ids(targets[..i]) !! seen
      invariant after == seen + Ids(targets[..i])
    {
      assert targets[..i + 1] == targets[..i] + [targets[i]];
      if !ValidTarget(targets[i]) {
        return false, after;
      }
      if targets[i].id in after {
        if targets[i].id in seen {
          assert targets[i].id in Ids(targets);
        } else {
          var t :| t in targets[..i] && t.id == targets[i].id;
        }
        return false, after;
      }
      after := after + {targets[i].id};
    }
    assert targets[..|targets|] == targets;
    ok := true;
  }

  method NewTier(targets: seq<Target>) returns (r: Result<seq<Target>, RoutingError>)
    ensures r == if ValidTier(targets) then Ok(targets) else Err(InvalidConfig)
  {
    if targets == [] {
      return Err(InvalidConfig);
    }
    var ok, _ := AdmitTargets(targets, {});
    r := if ok then Ok(targets) else Err(InvalidConfig);
  }

  lemma AppendUnique(a: seq<Target>, b: seq<Target>)
    ensures AllValid(a + b) <==> AllValid(a) && AllValid(b)
    ensures UniqueIds(a + b) <==> UniqueIds(a) && UniqueIds(b) && Ids(a) !! Ids(b)
    ensures Ids(a + b) == Ids(a) + Ids(b)
  {
    var c := a + b;
    assert (forall i :: 0 <= i < |a| ==> a[i] == c[i]) && (forall i :: 0 <= i < |b| ==> b[i] == c[|a| + i]);
    if UniqueIds(a) && UniqueIds(b) && Ids(a) !! Ids(b) {
      forall i, j | 0 <= i < j < |c| ensures c[i].id != c[j].id {
        assert i < |a| <= j ==> a[i].id in Ids(a) && b[j - |a|].id in Ids(b);
      }
    }
    if UniqueIds(c) {
      forall x | x in Ids(a) ensures x !in Ids(b) {
        var i :| 0 <= i < |a| && a[i].id == x;
      }
    }
  }

  // What one more tier must be for the route to stay valid so far.
  predicate Admissible(seen: set<string>, targets: seq<Target>) {
    AllValid(targets) && UniqueIds(targets) && Ids(targets) !! seen
  }

  lemma TargetsJoin(before: seq<Target>, tier: seq<Target>, rest: seq<Target>)
    requires AllValid(before) && UniqueIds(before)
    ensures Admissible(Ids(before), tier) ==> AllValid(before + tier) && UniqueIds(before + tier)
    ensures Ids(before + tier) == Ids(before) + Ids(tier)
    ensures AllValid(before + tier + rest) && UniqueIds(before + tier + rest) ==> Admissible(Ids(before), tier)
  {
    AppendUnique(before, tier);
    AppendUnique(before + tier, rest);
  }

  lemma TierJoins(tiers: seq<seq<Target>>, i: nat, before: seq<Target>, all: seq<Target>)
    requires i < |tiers| && before == Flat(tiers[..i]) && all == Flat(tiers)
    requires AllValid(before) && UniqueIds(before)
    ensures before + tiers[i] == Flat(tiers[..i + 1])
    ensures Admissible(Ids(before), tiers[i]) ==> AllValid(before + tiers[i]) && UniqueIds(before + tiers[i])
    ensures Ids(before + tiers[i]) == Ids(before) + Ids(tiers[i])
    ensures AllValid(all) && UniqueIds(all) ==> Admissible(Ids(before), tiers[i])
  {
    FlatPrefix(tiers, i);
    var rest := all[|before + tiers[i]|..];
    assert all == before + tiers[i] + rest;
    TargetsJoin(before, tiers[i], rest);
  }

  method ValidateRoute(route: Route) returns (ok: bool)
    ensures ok <==> ValidRoute(route)
  {
    if route.name == "" || route.tiers == [] {
      return false;
    }
    var tiers := route.tiers;
    var seen: set<string> := {};
    for i := 0 to |tiers|
      invariant NoEmptyTier(tiers[..i])
      invariant AllValid(Flat(tiers[..i])) && UniqueIds(Flat(tiers[..i]))
      invariant seen == Ids(Flat(tiers[..i]))
    {
      if tiers[i] == [] {
        return false;
      }
      TierJoins(tiers, i, Flat(tiers[..i]), Flat(tiers));
      var admitted, after := AdmitTargets(tiers[i], seen);
      if !admitted {
        return false;
      }
      seen := after;
    }
    assert tiers[..|tiers|] == tiers;
    ok := true;
  }

  method NewRoute(name: string, tiers: seq<seq<Target>>) returns (r: Result<Route, RoutingError>)
    ensures r == if ValidRoute(Route(name, tiers)) then Ok(Route(name, tiers)) else Err(InvalidConfig)
  {
    var ok := ValidateRoute(Route(name, tiers));
    r := if ok then Ok(Route(name, tiers)) else Err(InvalidConfig);
  }

  // --------------------------------------------------------------- workspaces

  predicate ValidLedger(generations: map<string, Version>) {
    forall id :: id in generations ==> id != "" && generations[id] != 0
  }

  predicate Agrees(routes: map<string, Route>, generations: map<string, Version>) {
    forall name, t :: name in routes && t in TargetsOf(routes[name]) && t.id in generations ==>
      generations[t.id] == t.version
  }

  ghost predicate OnePerId(targets: set<Target>) {
    forall t, u :: t in targets && u in targets && t.id == u.id ==> t == u
  }

  lemma ActiveUnique(routes: map<string, Route>)
    requires ValidRoutes(routes)
    ensures OnePerId(Active(routes))
  {
    forall t, u | t in Active(routes) && u in Active(routes) && t.id == u.id ensures t == u {
      var a :| a in routes && t in TargetsOf(routes[a]);
      var b :| b in routes && u in TargetsOf(routes[b]);
      assert t.id in Ids(TargetsOf(routes[a])) && u.id in Ids(TargetsOf(routes[b]));
    }
  }

  ghost function VersionOf(targets: set<Target>, id: string): Version
    requires exists t :: t in targets && t.id == id
  {
    var t :| t in targets && t.id == id;
    t.version
  }

  ghost function Versions(targets: set<Target>): (versions: map<string, Version>)
    requires OnePerId(targets)
    ensures forall t :: t in targets ==> t.id in versions && versions[t.id] == t.version
    ensures forall id :: id in versions ==> exists t :: t in targets && t.id == id
  {
    var ids := set t | t in targets :: t.id;
    map id | id in ids :: VersionOf(targets, id)
  }

  // The ledger with every active version written into it.
  ghost function Recorded(routes: map<string, Route>, generations: map<string, Version>): map<string, Version>
    requires ValidRoutes(routes)
  {
    ActiveUnique(routes);
    generations + Versions(Active(routes))
  }

  ghost function Restored(slug: string, defaultRoute: string, routes: map<string, Route>, generations: map<string, Version>):
    Result<Workspace, RoutingError>
  {
    if && ValidLedger(generations) && Agrees(routes, generations)
       && ValidWorkspace(Workspace(slug, defaultRoute, routes, generations))
    then Ok(Workspace(slug, defaultRoute, routes, Recorded(routes, generations)))
    else Err(InvalidConfig)
  }

  predicate NamesDistinct(listing: seq<Route>) {
    forall i, j :: 0 <= i < j < |listing| ==> listing[i].name != listing[j].name
  }

  function Keyed(listing: seq<Route>): map<string, Route> {
    if listing == [] then map[]
    else Keyed(listing[..|listing| - 1])[listing[|listing| - 1].name := listing[|listing| - 1]]
  }

  function AllTargets(listing: seq<Route>): seq<Target> {
    if listing == [] then [] else AllTargets(listing[..|listing| - 1]) + TargetsOf(listing[|listing| - 1])
  }

  // after is the ledger before with these targets' versions written into it.
  predicate Records(after: map<string, Version>, before: map<string, Version>, targets: seq<Target>) {
    && after.Keys == before.Keys + Ids(targets)
    && (forall id :: id in before ==> after[id] == before[id])
    && (forall i :: 0 <= i < |targets| ==> targets[i].id in after && after[targets[i].id] == targets[i].version)
  }

  ghost predicate Clash(targets: seq<Target>, generations: map<string, Version>) {
    || (exists t :: t in targets && t.id in generations && generations[t.id] != t.version)
    || (exists t, u :: t in targets && u in targets && t.id == u.id && t.version != u.version)
  }

  method RecordTargets(targets: seq<Target>, generations: map<string, Version>) returns (ok: bool, after: map<string, Version>)
    ensures ok ==> Records(after, generations, targets)
    ensures !ok ==> Clash(targets, generations)
  {
    after := generations;
    for i := 0 to |targets|
      invariant Records(after, generations, targets[..i])
    {
      var t := targets[i];
      assert targets[..i + 1] == targets[..i] + [t];
      if t.id in after && after[t.id] != t.version {
        if t.id !in generations {
          var u :| u in targets[..i] && u.id == t.id;
        }
        return false, after;
      }
      after := after[t.id := t.version];
    }
    assert targets[..|targets|] == targets;
    ok := true;
  }

  lemma RecordsJoin(middle: map<string, Version>, after: map<string, Version>, before: map<string, Version>,
                    a: seq<Target>, b: seq<Target>)
    requires Records(middle, before, a) && Records(after, middle, b)
    ensures Records(after, before, a + b)
  {
  }

  lemma ClashJoins(middle: map<string, Version>, before: map<string, Version>, a: seq<Target>, b: seq<Target>, rest: seq<Target>)
    requires Records(middle, before, a) && Clash(b, middle)
    ensures Clash(a + b + rest, before)
  {
    if t, u :| t in b && u in b && t.id == u.id && t.version != u.version {
      assert t in a + b + rest && u in a + b + rest;
    } else {
      var t :| t in b && t.id in middle && middle[t.id] != t.version;
      assert t in a + b + rest;
      if t.id !in before {
        var u :| u in a && u.id == t.id;
        assert u in a + b + rest;
      }
    }
  }

  lemma {:induction false} KeyedMembers(listing: seq<Route>)
    requires NamesDistinct(listing)
    ensures forall i :: 0 <= i < |listing| ==> listing[i].name in Keyed(listing) && Keyed(listing)[listing[i].name] == listing[i]
    ensures forall name :: name in Keyed(listing) ==> exists i :: 0 <= i < |listing| && listing[i].name == name
  {
    if listing != [] {
      var init := listing[..|listing| - 1];
      KeyedMembers(init);
      forall name | name in Keyed(listing) ensures exists i :: 0 <= i < |listing| && listing[i].name == name {
        if name in Keyed(init) {
          var i :| 0 <= i < |init| && init[i].name == name;
          assert listing[i].name == name;
        } else {
          assert listing[|listing| - 1].name == name;
        }
      }
    }
  }

  lemma {:induction false} AllTargetsSplit(listing: seq<Route>, i: nat)
    requires i < |listing|
    ensures AllTargets(listing[..i + 1]) == AllTargets(listing[..i]) + TargetsOf(listing[i])
    ensures AllTargets(listing[..i + 1]) <= AllTargets(listing)
    decreases |listing|
  {
    assert listing[..i + 1][..i] == listing[..i];
    var init := listing[..|listing| - 1];
    if i + 1 < |listing| {
      AllTargetsSplit(init, i);
      assert init[..i + 1] == listing[..i + 1] && init[..i] == listing[..i];
    } else {
      assert listing[..i + 1] == listing;
    }
  }

  lemma ListedTarget(listing: seq<Route>, i: nat, t: Target)
    requires i < |listing| && t in TargetsOf(listing[i])
    ensures t in AllTargets(listing)
  {
    AllTargetsSplit(listing, i);
  }

  lemma {:induction false} ListedSomewhere(listing: seq<Route>, t: Target) returns (i: nat)
    requires t in AllTargets(listing)
    ensures i < |listing| && t in TargetsOf(listing[i])
  {
    var last := |listing| - 1;
    if t in TargetsOf(listing[last]) {
      i := last;
    } else {
      i := ListedSomewhere(listing[..last], t);
    }
  }

  lemma ListedIsActive(listing: seq<Route>, t: Target)
    requires NamesDistinct(listing)
    ensures t in AllTargets(listing) <==> t in Active(Keyed(listing))
  {
    KeyedMembers(listing);
    if t in AllTargets(listing) {
      var i := ListedSomewhere(listing, t);
      assert Keyed(listing)[listing[i].name] == listing[i];
    }
    if t in Active(Keyed(listing)) {
      var name :| name in Keyed(listing) && t in TargetsOf(Keyed(listing)[name]);
      var i :| 0 <= i < |listing| && listing[i].name == name;
      ListedTarget(listing, i, t);
    }
  }

  // A clash is never restorable.
  lemma ClashRefuses(listing: seq<Route>, generations: map<string, Version>)
    requires NamesDistinct(listing) && Clash(AllTargets(listing), generations)
    ensures !Agrees(Keyed(listing), generations) || !ValidRoutes(Keyed(listing))
  {
    var targets := AllTargets(listing);
    var routes := Keyed(listing);
    if ValidRoutes(routes) {
      ActiveUnique(routes);
      if t, u :| t in targets && u in targets && t.id == u.id && t.version != u.version {
        ListedIsActive(listing, t);
        ListedIsActive(listing, u);
      } else {
        var t :| t in targets && t.id in generations && generations[t.id] != t.version;
        ListedIsActive(listing, t);
        var name :| name in routes && t in TargetsOf(routes[name]);
      }
    }
  }

  lemma RecordsAreVersions(active: set<Target>, targets: seq<Target>, generations: map<string, Version>,
                           after: map<string, Version>)
    requires OnePerId(active) && (forall t :: t in targets <==> t in active)
    requires Records(after, generations, targets)
    ensures after == generations + Versions(active)
  {
    var versions := Versions(active);
    assert versions.Keys == Ids(targets) by {
      forall t | t in targets ensures t.id in versions {
        assert t in active;
      }
      forall id | id in versions ensures id in Ids(targets) {
        var t :| t in active && t.id == id;
        assert t in targets;
      }
    }
    forall id | id in versions ensures after[id] == versions[id] {
      var t :| t in active && t.id == id && versions[id] == t.version;
      assert t in targets;
    }
  }

  lemma RecordsAreRecorded(listing: seq<Route>, generations: map<string, Version>, after: map<string, Version>)
    requires NamesDistinct(listing) && ValidRoutes(Keyed(listing)) && Records(after, generations, AllTargets(listing))
    ensures after == Recorded(Keyed(listing), generations)
  {
    ActiveUnique(Keyed(listing));
    forall t ensures t in AllTargets(listing) <==> t in Active(Keyed(listing)) {
      ListedIsActive(listing, t);
    }
    RecordsAreVersions(Active(Keyed(listing)), AllTargets(listing), generations, after);
  }

  lemma RecordsAgree(listing: seq<Route>, generations: map<string, Version>, after: map<string, Version>)
    requires NamesDistinct(listing) && Records(after, generations, AllTargets(listing))
    ensures Agrees(Keyed(listing), generations)
  {
    var routes := Keyed(listing);
    forall name, t | name in routes && t in TargetsOf(routes[name]) && t.id in generations
      ensures generations[t.id] == t.version
    {
      ListedIsActive(listing, t);
    }
  }

  lemma {:induction false} DistinctPrefix(listing: seq<Route>, i: nat)
    requires i < |listing| && NamesDistinct(listing[..i])
    ensures listing[i].name in Keyed(listing[..i]) ==> !NamesDistinct(listing)
    ensures listing[i].name !in Keyed(listing[..i]) ==> NamesDistinct(listing[..i + 1])
    ensures Keyed(listing[..i + 1]) == Keyed(listing[..i])[listing[i].name := listing[i]]
  {
    KeyedMembers(listing[..i]);
    assert listing[..i + 1][..i] == listing[..i];
    if listing[i].name in Keyed(listing[..i]) {
      var j :| 0 <= j < i && listing[..i][j].name == listing[i].name;
      assert listing[j].name == listing[i].name;
    } else {
      var longer := listing[..i + 1];
      forall a, b | 0 <= a < b < |longer| ensures longer[a].name != longer[b].name {
        assert listing[..i][a] == longer[a];
        assert b < i ==> listing[..i][b] == longer[b];
      }
    }
  }

  method ValidateWorkspace(w: Workspace) returns (ok: bool)
    ensures ok <==> ValidWorkspace(w)
  {
    if w.slug == "" || w.routes == map[] || w.defaultRoute !in w.routes {
      return false;
    }
    var left := w.routes.Keys;
    var claimed: set<string> := {};
    while left != {}
      invariant left <= w.routes.Keys
      invariant Claims(w.routes, w.routes.Keys - left, claimed)
    {
      var name :| name in left;
      var route := w.routes[name];
      if route.name != name {
        return false;
      }
      var valid := ValidateRoute(route);
      if !valid {
        return false;
      }
      var admitted, after := AdmitTargets(TargetsOf(route), claimed);
      if !admitted {
        ClaimRefused(w.routes, w.routes.Keys - left, name, claimed);
        return false;
      }
      ClaimMore(w.routes, w.routes.Keys - left, name, claimed);
      left, claimed := left - {name}, after;
      assert w.routes.Keys - left == (w.routes.Keys - (left + {name})) + {name};
    }
    assert w.routes.Keys - left == w.routes.Keys;
    ok := true;
  }

  // The named routes are valid and share no target ID, and claimed holds theirs.
  ghost predicate Claims(routes: map<string, Route>, names: set<string>, claimed: set<string>)
    requires names <= routes.Keys
  {
    && (forall name :: name in names ==> routes[name].name == name && ValidRoute(routes[name]))
    && (forall a, b :: a in names && b in names && a != b ==> Ids(TargetsOf(routes[a])) !! Ids(TargetsOf(routes[b])))
    && (forall name :: name in names ==> Ids(TargetsOf(routes[name])) <= claimed)
    && (forall id :: id in claimed ==> exists name :: name in names && id in Ids(TargetsOf(routes[name])))
  }

  lemma ClaimMore(routes: map<string, Route>, names: set<string>, name: string, claimed: set<string>)
    requires names <= routes.Keys && name in routes && name !in names && Claims(routes, names, claimed)
    requires routes[name].name == name && ValidRoute(routes[name])
    requires Admissible(claimed, TargetsOf(routes[name]))
    ensures Claims(routes, names + {name}, claimed + Ids(TargetsOf(routes[name])))
  {
    var ids := Ids(TargetsOf(routes[name]));
    forall id | id in claimed + ids ensures exists n :: n in names + {name} && id in Ids(TargetsOf(routes[n])) {
      if id in ids {
        assert name in names + {name};
      } else {
        var n :| n in names && id in Ids(TargetsOf(routes[n]));
        assert n in names + {name};
      }
    }
  }

  lemma ClaimRefused(routes: map<string, Route>, names: set<string>, name: string, claimed: set<string>)
    requires names <= routes.Keys && name in routes && name !in names && Claims(routes, names, claimed)
    requires ValidRoute(routes[name]) && !Admissible(claimed, TargetsOf(routes[name]))
    ensures !ValidRoutes(routes)
  {
    var id :| id in Ids(TargetsOf(routes[name])) && id in claimed;
    var n :| n in names && id in Ids(TargetsOf(routes[n]));
  }

  method RestoreWorkspace(slug: string, defaultRoute: string, listing: seq<Route>, generations: map<string, Version>)
    returns (r: Result<Workspace, RoutingError>)
    ensures r == if NamesDistinct(listing) then Restored(slug, defaultRoute, Keyed(listing), generations)
                 else Err(InvalidConfig)
  {
    if id :| id in generations && (id == "" || generations[id] == 0) {
      return Err(InvalidConfig);
    }
    var routes: map<string, Route> := map[];
    var ledger := generations;
    for i := 0 to |listing|
      invariant NamesDistinct(listing[..i]) && routes == Keyed(listing[..i])
      invariant Records(ledger, generations, AllTargets(listing[..i]))
    {
      DistinctPrefix(listing, i);
      if listing[i].name in routes {
        return Err(InvalidConfig);
      }
      routes := routes[listing[i].name := listing[i]];
      AllTargetsSplit(listing, i);
      var ok, after := RecordTargets(TargetsOf(listing[i]), ledger);
      if !ok {
        RefusedOnClash(listing, i, generations, ledger);
        return Err(InvalidConfig);
      }
      RecordsJoin(ledger, after, generations, AllTargets(listing[..i]), TargetsOf(listing[i]));
      ledger := after;
    }
    assert listing[..|listing|] == listing;
    RestoreVerdict(slug, defaultRoute, listing, generations, ledger);
    var w := Workspace(slug, defaultRoute, routes, ledger);
    var ok := ValidateWorkspace(w);
    r := if ok then Ok(w) else Err(InvalidConfig);
  }

  lemma RestoreVerdict(slug: string, defaultRoute: string, listing: seq<Route>, generations: map<string, Version>,
                       ledger: map<string, Version>)
    requires ValidLedger(generations) && NamesDistinct(listing) && Records(ledger, generations, AllTargets(listing))
    ensures var w := Workspace(slug, defaultRoute, Keyed(listing), ledger);
            Restored(slug, defaultRoute, Keyed(listing), generations)
            == if ValidWorkspace(w) then Ok(w) else Err(InvalidConfig)
  {
    RecordsAgree(listing, generations, ledger);
    if ValidRoutes(Keyed(listing)) {
      RecordsAreRecorded(listing, generations, ledger);
    }
  }

  lemma RefusedOnClash(listing: seq<Route>, i: nat, generations: map<string, Version>, ledger: map<string, Version>)
    requires i < |listing| && Records(ledger, generations, AllTargets(listing[..i]))
    requires Clash(TargetsOf(listing[i]), ledger)
    ensures NamesDistinct(listing) ==> !Agrees(Keyed(listing), generations) || !ValidRoutes(Keyed(listing))
  {
    AllTargetsSplit(listing, i);
    var all := AllTargets(listing);
    var rest := all[|AllTargets(listing[..i + 1])|..];
    assert all == AllTargets(listing[..i]) + TargetsOf(listing[i]) + rest;
    ClashJoins(ledger, generations, AllTargets(listing[..i]), TargetsOf(listing[i]), rest);
    if NamesDistinct(listing) {
      ClashRefuses(listing, generations);
    }
  }
}
