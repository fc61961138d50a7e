// Reconciling a route with its desired specification, and the edits of a
// workspace (internal/routing/reconcile.go and edit.go).
module RoutingEdits {
  import opened Wrappers
  import opened Routing

  // -------------------------------------------------------------- reconciling

  function Highest(generations: map<string, Version>, id: string): Version {
    if id in generations then generations[id] else 0
  }

  // The target for one desired entry: an unknown ID starts one past the highest
  // version it ever had, a known one keeps its version until its settings change.
  function TargetFromSpec(spec: TargetSpec, current: Option<Target>, highest: Version): Result<Target, RoutingError> {
    if spec.id == "" || !ValidSettings(spec.settings) then Err(InvalidConfig)
    else
      match current
      case None =>
        if highest == MAX_VERSION then Err(InvalidConfig)
        else Ok(Target(spec.id, if highest > 0 then highest + 1 else INITIAL_VERSION, spec.settings))
      case Some(target) =>
        if target.settings == spec.settings then Ok(Target(spec.id, target.version, spec.settings))
        else if target.version == MAX_VERSION then Err(InvalidConfig)
        else Ok(Target(spec.id, target.version + 1, spec.settings))
  }

  function Existing(targets: seq<Target>): map<string, Target> {
    if targets == [] then map[]
    else Existing(targets[..|targets| - 1])[targets[|targets| - 1].id := targets[|targets| - 1]]
  }

  // The target a desired entry settles on; a refused one is given the version no
  // valid target has.
  function Settled(spec: TargetSpec, existing: map<string, Target>, history: map<string, Version>): (target: Target)
    ensures target.id == spec.id && target.settings == spec.settings
  {
    var current := if spec.id in existing then Some(existing[spec.id]) else None;
    var r := TargetFromSpec(spec, current, Highest(history, spec.id));
    if r.Ok? then r.value else Target(spec.id, 0, spec.settings)
  }

  function SettledTier(specs: seq<TargetSpec>, existing: map<string, Target>, history: map<string, Version>): (targets: seq<Target>)
    ensures |targets| == |specs|
  {
    seq(|specs|, j requires 0 <= j < |specs| => Settled(specs[j], existing, history))
  }

  function Materialized(current: Route, desired: RouteSpec, history: map<string, Version>): Route {
    var existing := Existing(TargetsOf(current));
    Route(current.name,
          seq(|desired|, i requires 0 <= i < |desired| => SettledTier(desired[i], existing, history)))
  }

  function Applied(current: Route, desired: RouteSpec, history: map<string, Version>): Result<Route, RoutingError> {
    var route := Materialized(current, desired, history);
    if ValidRoute(route) then Ok(route) else Err(InvalidConfig)
  }

  method IndexTargets(targets: seq<Target>) returns (existing: map<string, Target>)
    ensures existing == Existing(targets)
  {
    existing := map[];
    for i := 0 to |targets|
      invariant existing == Existing(targets[..i])
    {
      assert targets[..i + 1][..i] == targets[..i];
      existing := existing[targets[i].id := targets[i]];
    }
    assert targets[..|targets|] == targets;
  }

  lemma OneMore(all: seq<Target>, j: nat, seen: set<string>)
    requires j < |all| && Admissible(seen, all[..j])
    ensures Admissible(seen, all[..j + 1]) <==> ValidTarget(all[j]) && all[j].id !in seen + Ids(all[..j])
    ensures Admissible(seen, all) ==> Admissible(seen, all[..j + 1])
    ensures Ids(all[..j + 1]) == Ids(all[..j]) + {all[j].id}
  {
    assert all[..j + 1] == all[..j] + [all[j]] && all == all[..j + 1] + all[j + 1..];
    assert Ids([all[j]]) == {all[j].id};
    AppendUnique(all[..j], [all[j]]);
    AppendUnique(all[..j + 1], all[j + 1..]);
  }

  method ReconcileTier(specs: seq<TargetSpec>, existing: map<string, Target>, history: map<string, Version>, seen: set<string>)
    returns (ok: bool, targets: seq<Target>, after: set<string>)
    ensures ok <==> Admissible(seen, SettledTier(specs, existing, history))
    ensures ok ==> targets == SettledTier(specs, existing, history) && after == seen + Ids(targets)
  {
    ghost var all := SettledTier(specs, existing, history);
    targets, after := [], seen;
    for j := 0 to |specs|
      invariant targets == all[..j]
      invariant Admissible(seen, all[..j]) && after == seen + Ids(all[..j])
    {
      OneMore(all, j, seen);
      if specs[j].id == "" || specs[j].id in after {
        return false, targets, after;
      }
      after := after + {specs[j].id};
      var current := if specs[j].id in existing then Some(existing[specs[j].id]) else None;
      var target := TargetFromSpec(specs[j], current, Highest(history, specs[j].id));
      if target.Err? || !ValidTarget(target.value) {
        return false, targets, after;
      }
      targets := targets + [target.value];
    }
    assert all[..|specs|] == all;
    ok := true;
  }

  method ApplySpec(current: Route, desired: RouteSpec, history: map<string, Version>) returns (r: Result<Route, RoutingError>)
    ensures r == Applied(current, desired, history)
  {
    if current.name == "" || desired == [] {
      return Err(InvalidConfig);
    }
    var existing := IndexTargets(TargetsOf(current));
    ghost var route := Materialized(current, desired, history);
    var seen: set<string> := {};
    var tiers: seq<seq<Target>> := [];
    for i := 0 to |desired|
      invariant tiers == route.tiers[..i] && NoEmptyTier(tiers)
      invariant AllValid(Flat(tiers)) && UniqueIds(Flat(tiers)) && seen == Ids(Flat(tiers))
    {
      if desired[i] == [] {
        assert |route.tiers[i]| == 0;
        return Err(InvalidConfig);
      }
      TierJoins(route.tiers, i, Flat(tiers), TargetsOf(route));
      var ok, targets, after := ReconcileTier(desired[i], existing, history, seen);
      if !ok {
        return Err(InvalidConfig);
      }
      seen := after;
      tiers := tiers + [targets];
      assert route.tiers[..i + 1] == tiers;
    }
    assert route.tiers[..|desired|] == route.tiers;
    r := NewRoute(current.name, tiers);
  }

  function SpecOf(route: Route): RouteSpec {
    seq(|route.tiers|, i requires 0 <= i < |route.tiers| => SpecOfTier(route.tiers[i]))
  }

  function SpecOfTier(targets: seq<Target>): seq<TargetSpec> {
    seq(|targets|, j requires 0 <= j < |targets| => TargetSpec(targets[j].id, targets[j].settings))
  }

  // -------------------------------------------------------------------- edits

  datatype Edit =
    | CreateRoute(name: string, first: Target)
    | RenameRoute(from: string, to: string)
    | SetDefaultRoute(name: string)
    | DeleteRoute(name: string, replacement: Option<string>)
    | ApplyRouteSpec(name: string, desired: RouteSpec)

  function Noted(generations: map<string, Version>, targets: seq<Target>): map<string, Version> {
    if targets == [] then generations
    else Noted(generations, targets[..|targets| - 1])[targets[|targets| - 1].id := targets[|targets| - 1].version]
  }

  // The first target of a new route takes a version its ID never had.
  function FirstTarget(w: Workspace, first: Target): Target
    requires Highest(w.generations, first.id) < MAX_VERSION
  {
    var highest := Highest(w.generations, first.id);
    if highest > 0 then first.(version := highest + 1) else first
  }

  ghost function Edited(w: Workspace, edit: Edit): Result<Workspace, RoutingError> {
    match edit
    case CreateRoute(name, first) =>
      if name in w.routes then Err(Conflict)
      else if Highest(w.generations, first.id) == MAX_VERSION then Err(InvalidConfig)
      else
        var target := FirstTarget(w, first);
        if !ValidTarget(target) || name == "" then Err(InvalidConfig)
        else Restored(w.slug, w.defaultRoute, w.routes[name := Route(name, [[target]])],
                      w.generations[target.id := target.version])
    case RenameRoute(from, to) =>
      if from !in w.routes then Err(NotFound)
      else if to in w.routes then Err(Conflict)
      else Restored(w.slug, if w.defaultRoute == from then to else w.defaultRoute,
                    (w.routes - {from})[to := w.routes[from].(name := to)], w.generations)
    case SetDefaultRoute(name) =>
      if name !in w.routes then Err(NotFound) else Restored(w.slug, name, w.routes, w.generations)
    case DeleteRoute(name, replacement) =>
      if name !in w.routes then Err(NotFound)
      else if |w.routes| == 1 then Err(LastRoute)
      else if w.defaultRoute != name then Restored(w.slug, w.defaultRoute, w.routes - {name}, w.generations)
      else if replacement.None? then Err(DefaultReplacementRequired)
      else if replacement.value == name then Err(Conflict)
      else if replacement.value !in w.routes then Err(NotFound)
      else Restored(w.slug, replacement.value, w.routes - {name}, w.generations)
    case ApplyRouteSpec(name, desired) =>
      if name !in w.routes then Err(NotFound)
      else WithRoute(w, name, Applied(w.routes[name], desired, w.generations))
  }

  // The route replaced by its reconciled form, and the versions written down.
  ghost function WithRoute(w: Workspace, name: string, r: Result<Route, RoutingError>): Result<Workspace, RoutingError> {
    if r.Err? then Err(r.error)
    else Restored(w.slug, w.defaultRoute, w.routes[name := r.value], Noted(w.generations, TargetsOf(r.value)))
  }

  predicate NamesMatch(routes: map<string, Route>) {
    forall name :: name in routes ==> routes[name].name == name
  }

  lemma ListMore(routes: map<string, Route>, listing: seq<Route>, left: map<string, Route>, name: string)
    requires NamesMatch(left) && NamesDistinct(listing) && name in left
    requires left.Keys !! Keyed(listing).Keys && routes == Keyed(listing) + left
    ensures NamesDistinct(listing + [left[name]])
    ensures Keyed(listing + [left[name]]) == Keyed(listing)[name := left[name]]
    ensures routes == Keyed(listing)[name := left[name]] + (left - {name})
  {
    var longer := listing + [left[name]];
    assert longer[..|listing|] == listing && longer[..|listing| + 1] == longer;
    DistinctPrefix(longer, |listing|);
  }

  // The routes in some order.
  method RoutesOf(routes: map<string, Route>) returns (listing: seq<Route>)
    requires NamesMatch(routes)
    ensures NamesDistinct(listing) && Keyed(listing) == routes
  {
    listing := [];
    var left := routes;
    while left != map[]
      invariant NamesDistinct(listing) && NamesMatch(left)
      invariant left.Keys !! Keyed(listing).Keys && routes == Keyed(listing) + left
      decreases left.Keys
    {
      var name :| name in left;
      ListMore(routes, listing, left, name);
      listing := listing + [left[name]];
      left := left - {name};
    }
  }

  method Restore(slug: string, defaultRoute: string, routes: map<string, Route>, generations: map<string, Version>)
    returns (r: Result<Workspace, RoutingError>)
    requires NamesMatch(routes)
    ensures r == Restored(slug, defaultRoute, routes, generations)
  {
    var listing := RoutesOf(routes);
    r := RestoreWorkspace(slug, defaultRoute, listing, generations);
  }

  lemma SingleTarget(name: string, target: Target)
    ensures ValidTier([target]) <==> ValidTarget(target)
    ensures ValidRoute(Route(name, [[target]])) <==> name != "" && ValidTarget(target)
    ensures TargetsOf(Route(name, [[target]])) == [target]
  {
    var tiers := [[target]];
    var route := Route(name, tiers);
    FlatAppends([], [target]);
    assert [] + [[target]] == tiers && [] + [target] == [target];
    assert TargetsOf(route) == [target];
    assert AllValid([target]) <==> ValidTarget([target][0]);
    assert |tiers[0]| == 1 && NoEmptyTier(tiers) && UniqueIds([target]);
  }

  method AddRoute(w: Workspace, name: string, first: Target) returns (r: Result<Workspace, RoutingError>)
    requires ValidWorkspace(w)
    ensures r == Edited(w, CreateRoute(name, first))
  {
    if name in w.routes {
      return Err(Conflict);
    }
    var target := first;
    var highest := Highest(w.generations, first.id);
    if highest > 0 {
      if highest == MAX_VERSION {
        return Err(InvalidConfig);
      }
      target := first.(version := highest + 1);
      if !ValidTarget(target) {
        return Err(InvalidConfig);
      }
    }
    r := AddRouteFor(w, name, target);
  }

  method AddRouteFor(w: Workspace, name: string, target: Target) returns (r: Result<Workspace, RoutingError>)
    requires ValidWorkspace(w)
    ensures r == if !ValidTarget(target) || name == "" then Err(InvalidConfig)
                 else Restored(w.slug, w.defaultRoute, w.routes[name := Route(name, [[target]])],
                               w.generations[target.id := target.version])
  {
    SingleTarget(name, target);
    var tier := NewTier([target]);
    if tier.Err? {
      return Err(InvalidConfig);
    }
    var route := NewRoute(name, [tier.value]);
    if route.Err? {
      return Err(InvalidConfig);
    }
    r := Restore(w.slug, w.defaultRoute, w.routes[name := route.value], w.generations[target.id := target.version]);
  }

  method Rename(w: Workspace, from: string, to: string) returns (r: Result<Workspace, RoutingError>)
    requires ValidWorkspace(w)
    ensures r == Edited(w, RenameRoute(from, to))
  {
    if from !in w.routes {
      return Err(NotFound);
    }
    if to in w.routes {
      return Err(Conflict);
    }
    var routes := w.routes - {from};
    routes := routes[to := w.routes[from].(name := to)];
    var defaultRoute := w.defaultRoute;
    if defaultRoute == from {
      defaultRoute := to;
    }
    r := Restore(w.slug, defaultRoute, routes, w.generations);
  }

  method SetDefault(w: Workspace, name: string) returns (r: Result<Workspace, RoutingError>)
    requires ValidWorkspace(w)
    ensures r == Edited(w, SetDefaultRoute(name))
  {
    if name !in w.routes {
      return Err(NotFound);
    }
    r := Restore(w.slug, name, w.routes, w.generations);
  }

  method Remove(w: Workspace, name: string, replacement: Option<string>) returns (r: Result<Workspace, RoutingError>)
    requires ValidWorkspace(w)
    ensures r == Edited(w, DeleteRoute(name, replacement))
  {
    if name !in w.routes {
      return Err(NotFound);
    }
    if |w.routes| == 1 {
      return Err(LastRoute);
    }
    var defaultRoute := w.defaultRoute;
    if defaultRoute == name {
      if replacement.None? {
        return Err(DefaultReplacementRequired);
      }
      if replacement.value == name {
        return Err(Conflict);
      }
      if replacement.value !in w.routes {
        return Err(NotFound);
      }
      defaultRoute := replacement.value;
    }
    r := Restore(w.slug, defaultRoute, w.routes - {name}, w.generations);
  }

  method NoteTargets(generations: map<string, Version>, targets: seq<Target>) returns (after: map<string, Version>)
    ensures after == Noted(generations, targets)
  {
    after := generations;
    for i := 0 to |targets|
      invariant after == Noted(generations, targets[..i])
    {
      assert targets[..i + 1][..i] == targets[..i];
      after := after[targets[i].id := targets[i].version];
    }
    assert targets[..|targets|] == targets;
  }

  method Reconcile(w: Workspace, name: string, desired: RouteSpec) returns (r: Result<Workspace, RoutingError>)
    requires ValidWorkspace(w)
    ensures r == Edited(w, ApplyRouteSpec(name, desired))
  {
    if name !in w.routes {
      return Err(NotFound);
    }
    var route := ApplySpec(w.routes[name], desired, w.generations);
    if route.Err? {
      return Err(route.error);
    }
    var generations := NoteTargets(w.generations, TargetsOf(route.value));
    r := Restore(w.slug, w.defaultRoute, w.routes[name := route.value], generations);
  }
}
