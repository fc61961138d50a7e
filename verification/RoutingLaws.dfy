// What every edit of a workspace keeps: versions are never reused for other
// settings, across any run of edits.
module RoutingLaws {
  import opened Wrappers
  import opened Routing
  import opened RoutingEdits

  // ------------------------------------------------------- the ledger invariant

  predicate NeverFalls(before: map<string, Version>, after: map<string, Version>) {
    forall id :: id in before ==> id in after && before[id] <= after[id]
  }

  ghost predicate OneSettings(ever: set<Target>) {
    forall t, u :: t in ever && u in ever && t.id == u.id && t.version == u.version ==> t.settings == u.settings
  }

  ghost predicate Current(active: set<Target>, generations: map<string, Version>) {
    forall t :: t in active ==> t.id in generations && generations[t.id] == t.version
  }

  ghost predicate Bounded(ever: set<Target>, generations: map<string, Version>) {
    forall t :: t in ever ==> t.id in generations && t.version <= generations[t.id]
  }

  // ever holds every target that was ever active in this workspace.
  ghost predicate Tracked(w: Workspace, ever: set<Target>) {
    && ValidWorkspace(w) && ValidLedger(w.generations)
    && Current(Active(w.routes), w.generations)
    && Active(w.routes) <= ever
    && Bounded(ever, w.generations)
    && OneSettings(ever)
  }

  // A target the workspace already runs, or a version its ID never had.
  ghost predicate Admitted(w: Workspace, t: Target) {
    t in Active(w.routes) || Highest(w.generations, t.id) < t.version
  }

  ghost predicate AllAdmitted(w: Workspace, targets: set<Target>) {
    forall t :: t in targets ==> Admitted(w, t)
  }

  lemma AdmittedKeepOneSettings(w: Workspace, ever: set<Target>, active: set<Target>)
    requires Tracked(w, ever) && AllAdmitted(w, active) && OnePerId(active)
    ensures OneSettings(ever + active)
  {
  }

  lemma RestoredLedger(routes: map<string, Route>, generations: map<string, Version>, after: map<string, Version>)
    requires ValidRoutes(routes) && ValidLedger(generations) && Agrees(routes, generations)
    requires after == Recorded(routes, generations)
    ensures OnePerId(Active(routes)) && Current(Active(routes), after)
    ensures (forall id :: id in generations ==> id in after && after[id] == generations[id])
    ensures ValidLedger(after)
  {
    ActiveUnique(routes);
    var active := Active(routes);
    var versions := Versions(active);
    forall t | t in active ensures t.id in after && after[t.id] == t.version {
      assert t.id in versions;
    }
    forall id | id in versions ensures id != "" && after[id] != 0 && (id in generations ==> after[id] == generations[id]) {
      var t :| t in active && t.id == id;
      var name :| name in routes && t in TargetsOf(routes[name]);
    }
  }

  // Restoring over admitted targets and a ledger that did not fall keeps the
  // invariant.
  lemma RestoredTracks(w: Workspace, ever: set<Target>, defaultRoute: string, routes: map<string, Route>,
                       generations: map<string, Version>, next: Workspace)
    requires Tracked(w, ever) && NeverFalls(w.generations, generations) && AllAdmitted(w, Active(routes))
    requires Restored(w.slug, defaultRoute, routes, generations) == Ok(next)
    ensures Tracked(next, ever + Active(next.routes)) && NeverFalls(w.generations, next.generations)
    ensures next.slug == w.slug
  {
    RestoredLedger(routes, generations, next.generations);
    AdmittedKeepOneSettings(w, ever, Active(routes));
  }

  // --------------------------------------------------------------- each edit

  // Every target of b is one of a.
  lemma FewerRoutes(w: Workspace, routes: map<string, Route>)
    requires forall name :: name in routes ==> exists was ::
               was in w.routes && TargetsOf(w.routes[was]) == TargetsOf(routes[name])
    ensures AllAdmitted(w, Active(routes))
  {
    forall t | t in Active(routes) ensures t in Active(w.routes) {
      var name :| name in routes && t in TargetsOf(routes[name]);
    }
  }

  lemma {:induction false} ExistingMembers(targets: seq<Target>)
    ensures forall id :: id in Existing(targets) ==> Existing(targets)[id] in targets && Existing(targets)[id].id == id
    ensures forall t :: t in targets ==> t.id in Existing(targets)
  {
    if targets != [] {
      ExistingMembers(targets[..|targets| - 1]);
    }
  }

  // A known ID keeps its version while its settings stay and goes up by one when
  // they change; an unknown one starts past everything it ever had.
  predicate Continues(c: Target, t: Target) {
    c.id == t.id && t.version as nat == if c.settings == t.settings then c.version else c.version + 1
  }

  lemma SettledVersion(spec: TargetSpec, targets: seq<Target>, history: map<string, Version>, t: Target)
    requires t == Settled(spec, Existing(targets), history) && t.version != 0
    ensures t.id in Ids(targets) ==> exists c :: c in targets && Continues(c, t)
    ensures t.id !in Ids(targets) ==> t.version == Highest(history, t.id) + 1
  {
    ExistingMembers(targets);
    if spec.id in Existing(targets) {
      assert Continues(Existing(targets)[spec.id], t);
    }
  }

  // A valid settled target is admitted.
  lemma SettledAdmitted(w: Workspace, ever: set<Target>, name: string, spec: TargetSpec, t: Target)
    requires Tracked(w, ever) && name in w.routes
    requires t == Settled(spec, Existing(TargetsOf(w.routes[name])), w.generations) && t.version != 0
    ensures Admitted(w, t)
  {
    var targets := TargetsOf(w.routes[name]);
    SettledVersion(spec, targets, w.generations, t);
    if t.id in Ids(targets) {
      var c :| c in targets && Continues(c, t);
      assert c in Active(w.routes);
    }
  }

  // The targets of a materialized route are the settled entries of the spec.
  lemma MaterializedComesFrom(current: Route, desired: RouteSpec, history: map<string, Version>, t: Target)
    returns (spec: TargetSpec)
    requires t in TargetsOf(Materialized(current, desired, history))
    ensures spec in Flat(desired) && t == Settled(spec, Existing(TargetsOf(current)), history)
  {
    var route := Materialized(current, desired, history);
    FlatMembers(route.tiers, t);
    var i :| 0 <= i < |route.tiers| && t in route.tiers[i];
    var j :| 0 <= j < |route.tiers[i]| && route.tiers[i][j] == t;
    spec := desired[i][j];
    FlatMembers(desired, spec);
    assert spec in desired[i];
  }

  lemma MaterializedAdmitted(w: Workspace, ever: set<Target>, name: string, desired: RouteSpec, route: Route)
    requires Tracked(w, ever) && name in w.routes && Applied(w.routes[name], desired, w.generations) == Ok(route)
    ensures forall t :: t in TargetsOf(route) ==> Admitted(w, t)
    ensures AllAdmitted(w, Active(w.routes[name := route]))
  {
    forall t | t in TargetsOf(route) ensures Admitted(w, t) {
      var spec := MaterializedComesFrom(w.routes[name], desired, w.generations, t);
      SettledAdmitted(w, ever, name, spec, t);
    }
    forall t | t in Active(w.routes[name := route]) ensures Admitted(w, t) {
      var n :| n in w.routes[name := route] && t in TargetsOf(w.routes[name := route][n]);
    }
  }

  lemma {:induction false} NotedNeverFalls(w: Workspace, ever: set<Target>, targets: seq<Target>)
    requires Tracked(w, ever) && UniqueIds(targets) && forall t :: t in targets ==> Admitted(w, t)
    ensures NeverFalls(w.generations, Noted(w.generations, targets))
    ensures forall id :: id in Noted(w.generations, targets) && id !in Ids(targets) ==>
              id in w.generations && Noted(w.generations, targets)[id] == w.generations[id]
    decreases |targets|
  {
    if targets != [] {
      var init := targets[..|targets| - 1];
      NotedNeverFalls(w, ever, init);
      var last := targets[|targets| - 1];
      assert targets == init + [last];
      assert Ids(targets) == Ids(init) + {last.id};
      assert Admitted(w, last);
    }
  }

  lemma CreateAdmitted(w: Workspace, name: string, t: Target, route: Route)
    requires TargetsOf(route) == [t] && Admitted(w, t)
    ensures AllAdmitted(w, Active(w.routes[name := route]))
  {
    var routes := w.routes[name := route];
    forall u | u in Active(routes) ensures Admitted(w, u) {
      var n :| n in routes && u in TargetsOf(routes[n]);
      assert n != name ==> u in Active(w.routes);
    }
  }

  lemma CreateTracks(w: Workspace, ever: set<Target>, name: string, first: Target, next: Workspace)
    requires Tracked(w, ever) && Edited(w, CreateRoute(name, first)) == Ok(next)
    ensures Tracked(next, ever + Active(next.routes)) && NeverFalls(w.generations, next.generations)
    ensures next.slug == w.slug
  {
    var t := FirstTarget(w, first);
    var route := Route(name, [[t]]);
    SingleTarget(name, t);
    CreateAdmitted(w, name, t, route);
    RestoredTracks(w, ever, w.defaultRoute, w.routes[name := route], w.generations[t.id := t.version], next);
  }

  lemma RenameTracks(w: Workspace, ever: set<Target>, from: string, to: string, next: Workspace)
    requires Tracked(w, ever) && Edited(w, RenameRoute(from, to)) == Ok(next)
    ensures Tracked(next, ever + Active(next.routes)) && NeverFalls(w.generations, next.generations)
    ensures next.slug == w.slug
  {
    var routes := (w.routes - {from})[to := w.routes[from].(name := to)];
    forall name | name in routes
      ensures exists was :: was in w.routes && TargetsOf(w.routes[was]) == TargetsOf(routes[name])
    {
      var was := if name == to then from else name;
      assert TargetsOf(w.routes[was]) == TargetsOf(routes[name]);
    }
    FewerRoutes(w, routes);
    RestoredTracks(w, ever, if w.defaultRoute == from then to else w.defaultRoute, routes, w.generations, next);
  }

  lemma KeptTracks(w: Workspace, ever: set<Target>, defaultRoute: string, routes: map<string, Route>, next: Workspace)
    requires Tracked(w, ever) && Restored(w.slug, defaultRoute, routes, w.generations) == Ok(next)
    requires forall name :: name in routes ==> name in w.routes && routes[name] == w.routes[name]
    ensures Tracked(next, ever + Active(next.routes)) && NeverFalls(w.generations, next.generations)
    ensures next.slug == w.slug
  {
    FewerRoutes(w, routes);
    RestoredTracks(w, ever, defaultRoute, routes, w.generations, next);
  }

  lemma ApplyTracks(w: Workspace, ever: set<Target>, name: string, desired: RouteSpec, next: Workspace)
    requires Tracked(w, ever) && Edited(w, ApplyRouteSpec(name, desired)) == Ok(next)
    ensures Tracked(next, ever + Active(next.routes)) && NeverFalls(w.generations, next.generations)
    ensures next.slug == w.slug
  {
    var route := Applied(w.routes[name], desired, w.generations).value;
    MaterializedAdmitted(w, ever, name, desired, route);
    NotedNeverFalls(w, ever, TargetsOf(route));
    RestoredTracks(w, ever, w.defaultRoute, w.routes[name := route], Noted(w.generations, TargetsOf(route)), next);
  }

  lemma SetDefaultTracks(w: Workspace, ever: set<Target>, name: string, next: Workspace)
    requires Tracked(w, ever) && Edited(w, SetDefaultRoute(name)) == Ok(next)
    ensures Tracked(next, ever + Active(next.routes)) && NeverFalls(w.generations, next.generations)
    ensures next.slug == w.slug
  {
    KeptTracks(w, ever, name, w.routes, next);
  }

  lemma DeleteTracks(w: Workspace, ever: set<Target>, name: string, replacement: Option<string>, next: Workspace)
    requires Tracked(w, ever) && Edited(w, DeleteRoute(name, replacement)) == Ok(next)
    ensures Tracked(next, ever + Active(next.routes)) && NeverFalls(w.generations, next.generations)
    ensures next.slug == w.slug
  {
    var defaultRoute := DefaultAfterDelete(w, name, replacement);
    DeleteRestores(w, name, replacement, defaultRoute, next);
    KeptTracks(w, ever, defaultRoute, w.routes - {name}, next);
  }

  function DefaultAfterDelete(w: Workspace, name: string, replacement: Option<string>): string {
    if w.defaultRoute == name && replacement.Some? then replacement.value else w.defaultRoute
  }

  lemma DeleteRestores(w: Workspace, name: string, replacement: Option<string>, defaultRoute: string, next: Workspace)
    requires Edited(w, DeleteRoute(name, replacement)) == Ok(next)
    requires defaultRoute == DefaultAfterDelete(w, name, replacement)
    ensures Restored(w.slug, defaultRoute, w.routes - {name}, w.generations) == Ok(next)
  {
  }

  // Every accepted edit keeps the invariant, with the newly active targets added
  // to what was ever active.
  lemma EditTracks(w: Workspace, ever: set<Target>, edit: Edit, next: Workspace)
    requires Tracked(w, ever) && Edited(w, edit) == Ok(next)
    ensures Tracked(next, ever + Active(next.routes)) && NeverFalls(w.generations, next.generations)
    ensures next.slug == w.slug
  {
    match edit
    case CreateRoute(name, first) => CreateTracks(w, ever, name, first, next);
    case RenameRoute(from, to) => RenameTracks(w, ever, from, to, next);
    case SetDefaultRoute(name) => SetDefaultTracks(w, ever, name, next);
    case DeleteRoute(name, replacement) => DeleteTracks(w, ever, name, replacement, next);
    case ApplyRouteSpec(name, desired) => ApplyTracks(w, ever, name, desired, next);
  }

  // --------------------------------------------------------------- whole runs

  // A refused edit changes nothing.
  ghost function After(w: Workspace, edit: Edit): Workspace {
    if Edited(w, edit).Ok? then Edited(w, edit).value else w
  }

  ghost function Ended(w: Workspace, edits: seq<Edit>): Workspace
    decreases |edits|
  {
    if edits == [] then w else Ended(After(w, edits[0]), edits[1..])
  }

  // Every target active at some point of the run.
  ghost function Ever(w: Workspace, edits: seq<Edit>): set<Target>
    decreases |edits|
  {
    Active(w.routes) + if edits == [] then {} else Ever(After(w, edits[0]), edits[1..])
  }

  lemma {:induction false} RunTracks(w: Workspace, ever: set<Target>, edits: seq<Edit>)
    requires Tracked(w, ever)
    ensures Tracked(Ended(w, edits), ever + Ever(w, edits))
    ensures NeverFalls(w.generations, Ended(w, edits).generations)
    decreases |edits|
  {
    if edits == [] {
      assert ever + Ever(w, edits) == ever;
    } else {
      var next := After(w, edits[0]);
      if Edited(w, edits[0]).Ok? {
        EditTracks(w, ever, edits[0], next);
      }
      assert ever + Active(w.routes) == ever;
      RunTracks(next, ever + Active(next.routes), edits[1..]);
      assert Active(next.routes) <= Ever(next, edits[1..]);
      assert ever + Active(next.routes) + Ever(next, edits[1..]) == ever + Ever(w, edits);
    }
  }

  lemma RestoredIsTracked(slug: string, defaultRoute: string, routes: map<string, Route>,
                          generations: map<string, Version>, w: Workspace)
    requires Restored(slug, defaultRoute, routes, generations) == Ok(w)
    ensures Tracked(w, Active(w.routes))
  {
    RestoredLedger(routes, generations, w.generations);
  }

  // From any restored workspace and over any edits, each target ID and version
  // ever active names one settings value, active versions are their generation,
  // and generations never fall.
  lemma VersionsAreNeverReused(slug: string, defaultRoute: string, routes: map<string, Route>,
                               generations: map<string, Version>, w: Workspace, edits: seq<Edit>)
    requires Restored(slug, defaultRoute, routes, generations) == Ok(w)
    ensures OneSettings(Ever(w, edits))
    ensures Current(Active(Ended(w, edits).routes), Ended(w, edits).generations)
    ensures NeverFalls(w.generations, Ended(w, edits).generations)
  {
    RestoredIsTracked(slug, defaultRoute, routes, generations, w);
    RunTracks(w, Active(w.routes), edits);
    assert Active(w.routes) + Ever(w, edits) == Ever(w, edits);
  }

  // ----------------------------------------------------- what a spec asks for

  // The version a desired entry gets: kept while the settings stay, one more when
  // they change, and one past everything its ID ever had when it is (re)added.
  lemma VersionsFollowSettings(w: Workspace, name: string, desired: RouteSpec, route: Route, t: Target)
    requires name in w.routes && ValidRoute(w.routes[name])
    requires Applied(w.routes[name], desired, w.generations) == Ok(route) && t in TargetsOf(route)
    ensures forall c :: c in TargetsOf(w.routes[name]) && c.id == t.id ==> Continues(c, t)
    ensures t.id !in Ids(TargetsOf(w.routes[name])) ==> t.version == Highest(w.generations, t.id) + 1
  {
    var targets := TargetsOf(w.routes[name]);
    var spec := MaterializedComesFrom(w.routes[name], desired, w.generations, t);
    SettledVersion(spec, targets, w.generations, t);
  }

  lemma MaterializedIsDesired(current: Route, desired: RouteSpec, history: map<string, Version>, route: Route)
    requires route == Materialized(current, desired, history)
    ensures SpecOf(route) == desired
  {
    forall i | 0 <= i < |desired| ensures SpecOfTier(route.tiers[i]) == desired[i] {
    }
  }

  lemma ApplyEdits(w: Workspace, name: string, desired: RouteSpec, route: Route)
    requires name in w.routes && route == Materialized(w.routes[name], desired, w.generations)
    ensures Edited(w, ApplyRouteSpec(name, desired))
         == WithRoute(w, name, if ValidRoute(route) then Ok(route) else Err(InvalidConfig))
  {
    assert Applied(w.routes[name], desired, w.generations) == if ValidRoute(route) then Ok(route) else Err(InvalidConfig);
  }

  lemma ApplyShape(w: Workspace, name: string, desired: RouteSpec, route: Route, next: Workspace)
    requires name in w.routes && Edited(w, ApplyRouteSpec(name, desired)) == Ok(next)
    requires route == Materialized(w.routes[name], desired, w.generations)
    ensures next.routes == w.routes[name := route] && next.slug == w.slug && next.defaultRoute == w.defaultRoute
  {
    var generations := Noted(w.generations, TargetsOf(route));
    ApplyEdits(w, name, desired, route);
    RestoredShape(w.slug, w.defaultRoute, w.routes[name := route], generations, next);
  }

  // Applying a spec leaves exactly that spec on the route, and every other route
  // and the default as they were.
  lemma AppliedIsDesired(w: Workspace, name: string, desired: RouteSpec, next: Workspace)
    requires name in w.routes && Edited(w, ApplyRouteSpec(name, desired)) == Ok(next)
    ensures name in next.routes && SpecOf(next.routes[name]) == desired
    ensures next.routes - {name} == w.routes - {name}
    ensures next.slug == w.slug && next.defaultRoute == w.defaultRoute
  {
    var route := Materialized(w.routes[name], desired, w.generations);
    ApplyShape(w, name, desired, route, next);
    MaterializedIsDesired(w.routes[name], desired, w.generations, route);
  }

  lemma RestoredShape(slug: string, defaultRoute: string, routes: map<string, Route>, generations: map<string, Version>,
                      next: Workspace)
    requires Restored(slug, defaultRoute, routes, generations) == Ok(next)
    ensures next.slug == slug && next.defaultRoute == defaultRoute && next.routes == routes
  {
  }

  lemma SettledIsKept(route: Route, history: map<string, Version>, t: Target)
    requires ValidRoute(route) && t in TargetsOf(route)
    ensures Settled(TargetSpec(t.id, t.settings), Existing(TargetsOf(route)), history) == t
  {
    ExistingMembers(TargetsOf(route));
    var c := Existing(TargetsOf(route))[t.id];
    assert c in TargetsOf(route) && c.id == t.id;
  }

  lemma OwnSpecMaterializes(route: Route, history: map<string, Version>)
    requires ValidRoute(route)
    ensures Materialized(route, SpecOf(route), history) == route
  {
    var spec := SpecOf(route);
    var existing := Existing(TargetsOf(route));
    forall i | 0 <= i < |route.tiers| ensures SettledTier(spec[i], existing, history) == route.tiers[i] {
      forall j | 0 <= j < |route.tiers[i]| ensures SettledTier(spec[i], existing, history)[j] == route.tiers[i][j] {
        FlatMembers(route.tiers, route.tiers[i][j]);
        assert route.tiers[i][j] in route.tiers[i];
        SettledIsKept(route, history, route.tiers[i][j]);
      }
    }
    assert Materialized(route, spec, history).tiers == route.tiers;
  }

  lemma {:induction false} NotedIsKept(generations: map<string, Version>, targets: seq<Target>)
    requires forall t :: t in targets ==> t.id in generations && generations[t.id] == t.version
    ensures Noted(generations, targets) == generations
  {
    if targets != [] {
      NotedIsKept(generations, targets[..|targets| - 1]);
      assert targets[|targets| - 1] in targets;
    }
  }

  lemma OwnVersionsNoted(w: Workspace, ever: set<Target>, name: string)
    requires Tracked(w, ever) && name in w.routes
    ensures Noted(w.generations, TargetsOf(w.routes[name])) == w.generations
  {
    forall t | t in TargetsOf(w.routes[name]) ensures t.id in w.generations && w.generations[t.id] == t.version {
      assert t in Active(w.routes);
    }
    NotedIsKept(w.generations, TargetsOf(w.routes[name]));
  }

  lemma SameRouteKeeps(w: Workspace, ever: set<Target>, name: string, desired: RouteSpec)
    requires Tracked(w, ever) && name in w.routes
    requires Materialized(w.routes[name], desired, w.generations) == w.routes[name]
    ensures Edited(w, ApplyRouteSpec(name, desired)) == Ok(w)
  {
    OwnVersionsNoted(w, ever, name);
    assert w.routes[name := w.routes[name]] == w.routes;
    ApplyEdits(w, name, desired, w.routes[name]);
    RestoresItself(w, ever);
    assert ValidRoute(w.routes[name]);
  }

  // Applying a route's own spec changes nothing.
  lemma OwnSpecIsIdentity(w: Workspace, ever: set<Target>, name: string)
    requires Tracked(w, ever) && name in w.routes
    ensures Edited(w, ApplyRouteSpec(name, SpecOf(w.routes[name]))) == Ok(w)
  {
    OwnSpecMaterializes(w.routes[name], w.generations);
    SameRouteKeeps(w, ever, name, SpecOf(w.routes[name]));
  }

  lemma RestoresItself(w: Workspace, ever: set<Target>)
    requires Tracked(w, ever)
    ensures Restored(w.slug, w.defaultRoute, w.routes, w.generations) == Ok(w)
  {
    RecordedIsKept(w, ever);
  }

  lemma RecordedIsKept(w: Workspace, ever: set<Target>)
    requires Tracked(w, ever)
    ensures Agrees(w.routes, w.generations) && Recorded(w.routes, w.generations) == w.generations
  {
    forall name, t | name in w.routes && t in TargetsOf(w.routes[name]) && t.id in w.generations
      ensures w.generations[t.id] == t.version
    {
      assert t in Active(w.routes);
    }
    ActiveUnique(w.routes);
    CurrentIsKept(Active(w.routes), w.generations);
  }

  // Writing versions the ledger already has changes nothing.
  lemma CurrentIsKept(active: set<Target>, generations: map<string, Version>)
    requires OnePerId(active) && Current(active, generations)
    ensures generations + Versions(active) == generations
  {
  }

  // --------------------------------------------- edits that select among routes

  // Restoring over targets the workspace already runs leaves the ledger exactly
  // as it was.
  lemma KeptRestores(w: Workspace, ever: set<Target>, defaultRoute: string, routes: map<string, Route>)
    requires Tracked(w, ever) && Active(routes) <= Active(w.routes)
    requires defaultRoute in routes && ValidRoutes(routes)
    ensures Restored(w.slug, defaultRoute, routes, w.generations)
         == Ok(w.(defaultRoute := defaultRoute, routes := routes))
  {
    ActiveUnique(routes);
    LedgerAgrees(w, ever, routes);
    CurrentIsKept(Active(routes), w.generations);
  }

  lemma LedgerAgrees(w: Workspace, ever: set<Target>, routes: map<string, Route>)
    requires Tracked(w, ever) && Active(routes) <= Active(w.routes)
    ensures Agrees(routes, w.generations) && Current(Active(routes), w.generations)
  {
    forall name, t | name in routes && t in TargetsOf(routes[name]) && t.id in w.generations
      ensures w.generations[t.id] == t.version
    {
      assert t in Active(routes);
    }
  }

  // Choosing a default changes the default and nothing else, and is refused only
  // for a route that is not there.
  lemma SetDefaultOutcome(w: Workspace, ever: set<Target>, name: string)
    requires Tracked(w, ever)
    ensures Edited(w, SetDefaultRoute(name))
         == if name in w.routes then Ok(w.(defaultRoute := name)) else Err(NotFound)
  {
    if name in w.routes {
      KeptRestores(w, ever, name, w.routes);
    }
  }

  // The routes with one of them under another name.
  function Renamed(routes: map<string, Route>, from: string, to: string): map<string, Route>
    requires from in routes
  {
    (routes - {from})[to := routes[from].(name := to)]
  }

  lemma RenamedIsValid(routes: map<string, Route>, from: string, to: string)
    requires ValidRoutes(routes) && from in routes && to !in routes && to != ""
    ensures ValidRoutes(Renamed(routes, from, to))
  {
    var renamed := Renamed(routes, from, to);
    assert TargetsOf(renamed[to]) == TargetsOf(routes[from]);
    assert forall name :: name in renamed && name != to ==> name in routes && name != from && renamed[name] == routes[name];
  }

  lemma RenamedIsActive(routes: map<string, Route>, from: string, to: string)
    requires from in routes && to !in routes
    ensures Active(Renamed(routes, from, to)) == Active(routes)
  {
    var renamed := Renamed(routes, from, to);
    assert TargetsOf(renamed[to]) == TargetsOf(routes[from]);
    forall t | t in Active(renamed) ensures t in Active(routes) {
      var name :| name in renamed && t in TargetsOf(renamed[name]);
      assert name == to ==> t in TargetsOf(routes[from]);
    }
    forall t | t in Active(routes) ensures t in Active(renamed) {
      var name :| name in routes && t in TargetsOf(routes[name]);
      assert name != from ==> name in renamed;
    }
  }

  // A rename moves the route and, with it, the default, keeps every target, its
  // version and the ledger, and is refused exactly for a missing route, a taken
  // name or the empty name.
  lemma RenameOutcome(w: Workspace, ever: set<Target>, from: string, to: string)
    requires Tracked(w, ever)
    ensures Edited(w, RenameRoute(from, to)) ==
            if from !in w.routes then Err(NotFound)
            else if to in w.routes then Err(Conflict)
            else if to == "" then Err(InvalidConfig)
            else Ok(w.(routes := Renamed(w.routes, from, to),
                       defaultRoute := if w.defaultRoute == from then to else w.defaultRoute))
    ensures from in w.routes && to !in w.routes ==> Active(Renamed(w.routes, from, to)) == Active(w.routes)
  {
    if from in w.routes && to !in w.routes {
      RenamedIsActive(w.routes, from, to);
      if to != "" {
        RenamedIsValid(w.routes, from, to);
        KeptRestores(w, ever, if w.defaultRoute == from then to else w.defaultRoute, Renamed(w.routes, from, to));
      } else {
        NamelessIsInvalid(Renamed(w.routes, from, to));
      }
    }
  }

  lemma NamelessIsInvalid(routes: map<string, Route>)
    requires "" in routes
    ensures !ValidRoutes(routes)
  {
  }

  // Renaming back restores the workspace, ledger included.
  lemma RenameRoundTrip(w: Workspace, ever: set<Target>, from: string, to: string, next: Workspace)
    requires Tracked(w, ever) && Edited(w, RenameRoute(from, to)) == Ok(next)
    ensures Edited(next, RenameRoute(to, from)) == Ok(w)
  {
    RenameOutcome(w, ever, from, to);
    EditTracks(w, ever, RenameRoute(from, to), next);
    RenameOutcome(next, ever + Active(next.routes), to, from);
    RenamedBack(w.routes, from, to);
  }

  lemma RenamedBack(routes: map<string, Route>, from: string, to: string)
    requires ValidRoutes(routes) && from in routes && to !in routes
    ensures from != "" && from !in Renamed(routes, from, to)
    ensures Renamed(Renamed(routes, from, to), to, from) == routes
  {
    assert ValidRoute(routes[from]) && routes[from].name == from;
  }

  // Why a delete is refused, in the order the reasons are found.
  function DeleteRefusal(w: Workspace, name: string, replacement: Option<string>): Option<RoutingError> {
    if name !in w.routes then Some(NotFound)
    else if w.routes.Keys == {name} then Some(LastRoute)
    else if w.defaultRoute != name then None
    else if replacement.None? then Some(DefaultReplacementRequired)
    else if replacement.value == name then Some(Conflict)
    else if replacement.value !in w.routes then Some(NotFound)
    else None
  }

  lemma FewerIsValid(routes: map<string, Route>, name: string)
    requires ValidRoutes(routes)
    ensures ValidRoutes(routes - {name}) && Active(routes - {name}) <= Active(routes)
  {
  }

  lemma OnlyRoute(routes: map<string, Route>, name: string)
    requires name in routes
    ensures |routes| == 1 <==> routes.Keys == {name}
  {
    assert |routes| == |routes.Keys|;
    if |routes| == 1 {
      assert |routes.Keys - {name}| == 0;
      assert routes.Keys == {name} + (routes.Keys - {name});
    }
  }

  // A delete takes the route away and keeps every other route, the whole ledger,
  // and a default that still exists; it is refused for no other reason than the
  // four, and never as invalid.
  lemma DeleteOutcome(w: Workspace, ever: set<Target>, name: string, replacement: Option<string>)
    requires Tracked(w, ever)
    ensures var refusal := DeleteRefusal(w, name, replacement);
            Edited(w, DeleteRoute(name, replacement)) ==
            if refusal.Some? then Err(refusal.value)
            else Ok(w.(routes := w.routes - {name},
                       defaultRoute := if w.defaultRoute == name then replacement.value else w.defaultRoute))
  {
    if name in w.routes {
      OnlyRoute(w.routes, name);
      if DeleteRefusal(w, name, replacement).None? {
        FewerIsValid(w.routes, name);
        KeptRestores(w, ever, if w.defaultRoute == name then replacement.value else w.defaultRoute, w.routes - {name});
      }
    }
  }

  // A target deleted with its route and created again gets one past the version
  // it had, whatever its settings.
  lemma RecreatedTargetMovesOn(
    w: Workspace, ever: set<Target>, name: string, replacement: Option<string>, t: Target, again: string, first: Target,
    middle: Workspace, next: Workspace)
    requires Tracked(w, ever) && name in w.routes && t in TargetsOf(w.routes[name]) && first.id == t.id
    requires Edited(w, DeleteRoute(name, replacement)) == Ok(middle)
    requires Edited(middle, CreateRoute(again, first)) == Ok(next)
    ensures t.version < MAX_VERSION && first.(version := t.version + 1) in Active(next.routes)
  {
    DeleteKeepsLedger(w, ever, name, replacement, middle);
    ActiveVersion(w, ever, name, t);
    CreatedIsActive(middle, again, first, next, t.version);
  }

  lemma DeleteKeepsLedger(w: Workspace, ever: set<Target>, name: string, replacement: Option<string>, next: Workspace)
    requires Tracked(w, ever) && Edited(w, DeleteRoute(name, replacement)) == Ok(next)
    ensures next.generations == w.generations
  {
    DeleteOutcome(w, ever, name, replacement);
  }

  lemma ActiveVersion(w: Workspace, ever: set<Target>, name: string, t: Target)
    requires Tracked(w, ever) && name in w.routes && t in TargetsOf(w.routes[name])
    ensures t.id in w.generations && w.generations[t.id] == t.version && t.version != 0
  {
    assert t in Active(w.routes);
  }

  lemma CreateRestores(w: Workspace, name: string, first: Target, next: Workspace) returns (target: Target)
    requires Edited(w, CreateRoute(name, first)) == Ok(next)
    ensures Highest(w.generations, first.id) < MAX_VERSION && target == FirstTarget(w, first)
    ensures Restored(w.slug, w.defaultRoute, w.routes[name := Route(name, [[target]])],
                     w.generations[target.id := target.version]) == Ok(next)
  {
    target := FirstTarget(w, first);
  }

  lemma RouteIsActive(routes: map<string, Route>, name: string, target: Target)
    requires name in routes && routes[name] == Route(name, [[target]])
    ensures target in Active(routes)
  {
    SingleTarget(name, target);
    assert target in TargetsOf(routes[name]);
  }

  lemma CreatedIsActive(w: Workspace, name: string, first: Target, next: Workspace, highest: Version)
    requires Edited(w, CreateRoute(name, first)) == Ok(next)
    requires first.id in w.generations && w.generations[first.id] == highest && highest != 0
    ensures highest < MAX_VERSION && first.(version := highest + 1) in Active(next.routes)
  {
    var target := CreateRestores(w, name, first, next);
    RestoredShape(w.slug, w.defaultRoute, w.routes[name := Route(name, [[target]])],
                  w.generations[target.id := target.version], next);
    RouteIsActive(next.routes, name, target);
  }
}
