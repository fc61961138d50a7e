// When an edit that brings targets into a workspace is accepted, stated on the
// edit and the workspace it meets, and what the accepted workspace then holds
// (internal/routing/edit.go and reconcile.go).
module RoutingOutcomes {
  import opened Wrappers
  import opened Routing
  import opened RoutingEdits
  import opened RoutingLaws

  // A model, a protocol, and a connection to a named provider that speaks it.
  predicate Complete(settings: Settings) {
    && settings.connection.Some?
    && "" !in {settings.model, settings.protocol.value, settings.protocol.provider}
    && settings.connection.value.provider == settings.protocol.provider
  }

  // Some other route already runs a target under this ID.
  ghost predicate TakenElsewhere(w: Workspace, name: string, id: string) {
    exists other, u :: other in w.routes && other != name && u in TargetsOf(w.routes[other]) && u.id == id
  }

  // The ledger with these targets' versions written over it.
  predicate Overwrites(after: map<string, Version>, before: map<string, Version>, targets: seq<Target>) {
    && after.Keys == before.Keys + Ids(targets)
    && (forall i :: 0 <= i < |targets| ==> targets[i].id in after && after[targets[i].id] == targets[i].version)
    && (forall id :: id in before && id !in Ids(targets) ==> id in after && after[id] == before[id])
  }

  // ---------------------------------------------- a route put into a workspace

  ghost predicate Disjoint(w: Workspace, name: string, targets: seq<Target>) {
    forall i :: 0 <= i < |targets| ==> !TakenElsewhere(w, name, targets[i].id)
  }

  lemma PutIsValid(w: Workspace, name: string, route: Route)
    requires ValidWorkspace(w) && route.name == name && ValidRoute(route) && Disjoint(w, name, TargetsOf(route))
    ensures ValidRoutes(w.routes[name := route])
  {
    forall other | other in w.routes && other != name ensures Ids(TargetsOf(w.routes[other])) !! Ids(TargetsOf(route)) {
      forall t, u | t in TargetsOf(route) && u in TargetsOf(w.routes[other]) ensures t.id != u.id {
        assert t.id == u.id ==> TakenElsewhere(w, name, t.id);
      }
    }
  }

  lemma PutAgrees(w: Workspace, ever: set<Target>, name: string, route: Route, generations: map<string, Version>)
    requires Tracked(w, ever) && Disjoint(w, name, TargetsOf(route))
    requires Overwrites(generations, w.generations, TargetsOf(route))
    ensures Current(Active(w.routes[name := route]), generations)
    ensures Agrees(w.routes[name := route], generations)
  {
    var routes := w.routes[name := route];
    forall n, t | n in routes && t in TargetsOf(routes[n])
      ensures t.id in generations && generations[t.id] == t.version
    {
      if n != name {
        assert t in Active(w.routes);
        assert TakenElsewhere(w, name, t.id);
      }
    }
    forall t | t in Active(routes) ensures t.id in generations && generations[t.id] == t.version {
      var n :| n in routes && t in TargetsOf(routes[n]);
    }
  }

  lemma PutLedger(before: map<string, Version>, after: map<string, Version>, targets: seq<Target>)
    requires ValidLedger(before) && AllValid(targets) && Overwrites(after, before, targets)
    ensures ValidLedger(after)
  {
    forall id | id in after ensures id != "" && after[id] != 0 {
      if id in Ids(targets) {
        var t :| t in targets && t.id == id;
      }
    }
  }

  lemma RestoredAsIs(w: Workspace, routes: map<string, Route>, generations: map<string, Version>)
    requires ValidWorkspace(w) && w.routes.Keys <= routes.Keys && ValidRoutes(routes)
    requires ValidLedger(generations) && Agrees(routes, generations) && Current(Active(routes), generations)
    ensures Restored(w.slug, w.defaultRoute, routes, generations) == Ok(w.(routes := routes, generations := generations))
  {
    ActiveUnique(routes);
    CurrentIsKept(Active(routes), generations);
  }

  // A valid route whose IDs no other route runs goes in, with its versions
  // written down and nothing else changed.
  lemma PutRestores(w: Workspace, ever: set<Target>, name: string, route: Route, generations: map<string, Version>)
    requires Tracked(w, ever) && route.name == name && ValidRoute(route) && Disjoint(w, name, TargetsOf(route))
    requires Overwrites(generations, w.generations, TargetsOf(route))
    ensures Restored(w.slug, w.defaultRoute, w.routes[name := route], generations)
         == Ok(w.(routes := w.routes[name := route], generations := generations))
  {
    PutIsValid(w, name, route);
    PutAgrees(w, ever, name, route, generations);
    PutLedger(w.generations, generations, TargetsOf(route));
    RestoredAsIs(w, w.routes[name := route], generations);
  }

  // A route that shares an ID with another one never goes in.
  lemma TakenRefuses(w: Workspace, name: string, route: Route, generations: map<string, Version>, id: string)
    requires id in Ids(TargetsOf(route)) && TakenElsewhere(w, name, id)
    ensures Restored(w.slug, w.defaultRoute, w.routes[name := route], generations) == Err(InvalidConfig)
  {
    var routes := w.routes[name := route];
    var other, u :| other in w.routes && other != name && u in TargetsOf(w.routes[other]) && u.id == id;
    assert id in Ids(TargetsOf(routes[other])) && id in Ids(TargetsOf(routes[name]));
  }

  // ------------------------------------------------------------ a route created

  // What the first target of a new route must be.
  ghost predicate Creatable(w: Workspace, name: string, first: Target) {
    && name != "" && first.id != "" && Complete(first.settings)
    && !TakenElsewhere(w, name, first.id)
    && if first.id in w.generations then w.generations[first.id] < MAX_VERSION else first.version != 0
  }

  // The target it gets: a version past everything its ID had, or its own.
  function Starting(w: Workspace, first: Target): Target
    requires first.id in w.generations ==> w.generations[first.id] < MAX_VERSION
  {
    if first.id in w.generations then first.(version := w.generations[first.id] + 1) else first
  }

  lemma StartsAs(w: Workspace, ever: set<Target>, first: Target)
    requires Tracked(w, ever)
    ensures Highest(w.generations, first.id) == MAX_VERSION
       <==> first.id in w.generations && w.generations[first.id] == MAX_VERSION
    ensures Highest(w.generations, first.id) < MAX_VERSION ==> FirstTarget(w, first) == Starting(w, first)
  {
  }

  lemma CreateEdits(w: Workspace, ever: set<Target>, name: string, first: Target, t: Target)
    requires Tracked(w, ever) && name !in w.routes
    requires (first.id in w.generations ==> w.generations[first.id] < MAX_VERSION) && t == Starting(w, first)
    ensures Edited(w, CreateRoute(name, first)) ==
            if !ValidTarget(t) || name == "" then Err(InvalidConfig)
            else Restored(w.slug, w.defaultRoute, w.routes[name := Route(name, [[t]])], w.generations[t.id := t.version])
  {
    StartsAs(w, ever, first);
  }

  lemma StartingIsValid(w: Workspace, ever: set<Target>, name: string, first: Target, t: Target)
    requires Tracked(w, ever)
    requires (first.id in w.generations ==> w.generations[first.id] < MAX_VERSION) && t == Starting(w, first)
    ensures name != "" && ValidTarget(t) && !TakenElsewhere(w, name, t.id) <==> Creatable(w, name, first)
  {
  }

  lemma CreatePuts(w: Workspace, ever: set<Target>, name: string, t: Target)
    requires Tracked(w, ever) && name != "" && ValidTarget(t)
    ensures Restored(w.slug, w.defaultRoute, w.routes[name := Route(name, [[t]])], w.generations[t.id := t.version]) ==
            if TakenElsewhere(w, name, t.id) then Err(InvalidConfig)
            else Ok(w.(routes := w.routes[name := Route(name, [[t]])], generations := w.generations[t.id := t.version]))
  {
    var route := Route(name, [[t]]);
    SingleTarget(name, t);
    var targets := TargetsOf(route);
    assert targets == [t] && targets[0] == t && Ids(targets) == {t.id};
    if TakenElsewhere(w, name, t.id) {
      TakenRefuses(w, name, route, w.generations[t.id := t.version], t.id);
    } else {
      assert Overwrites(w.generations[t.id := t.version], w.generations, targets);
      PutRestores(w, ever, name, route, w.generations[t.id := t.version]);
    }
  }

  // A new route is accepted exactly when its name is free and not empty and its
  // target is complete, under an ID no route runs and with a version to give; it
  // then holds that one target, and only that ID's generation moves.
  lemma CreateOutcome(w: Workspace, ever: set<Target>, name: string, first: Target)
    requires Tracked(w, ever)
    ensures Edited(w, CreateRoute(name, first)) ==
            if name in w.routes then Err(Conflict)
            else if !Creatable(w, name, first) then Err(InvalidConfig)
            else var t := Starting(w, first);
                 Ok(w.(routes := w.routes[name := Route(name, [[t]])], generations := w.generations[t.id := t.version]))
  {
    if name !in w.routes {
      if first.id in w.generations && w.generations[first.id] == MAX_VERSION {
        StartsAs(w, ever, first);
      } else {
        var t := Starting(w, first);
        CreateEdits(w, ever, name, first, t);
        StartingIsValid(w, ever, name, first, t);
        if ValidTarget(t) && name != "" {
          CreatePuts(w, ever, name, t);
        }
      }
    }
  }

  // ------------------------------------------------------------- a spec applied

  predicate SpecsDistinct(specs: seq<TargetSpec>) {
    forall i, j :: 0 <= i < j < |specs| ==> specs[i].id != specs[j].id
  }

  // An ID that used up its versions may only stay as it is.
  ghost predicate HasRoom(w: Workspace, name: string, spec: TargetSpec)
    requires name in w.routes
  {
    spec.id in w.generations && w.generations[spec.id] == MAX_VERSION ==>
      exists c :: c in TargetsOf(w.routes[name]) && c.id == spec.id && c.settings == spec.settings
  }

  ghost predicate SpecFits(w: Workspace, name: string, spec: TargetSpec)
    requires name in w.routes
  {
    spec.id != "" && Complete(spec.settings) && HasRoom(w, name, spec)
  }

  // What a desired spec must be for the route to take it.
  ghost predicate Appliable(w: Workspace, name: string, desired: RouteSpec)
    requires name in w.routes
  {
    var specs := Flat(desired);
    && desired != [] && [] !in desired
    && SpecsDistinct(specs)
    && (forall k :: 0 <= k < |specs| ==> SpecFits(w, name, specs[k]) && !TakenElsewhere(w, name, specs[k].id))
  }

  lemma {:induction false} FlatSettles(
    tiers: seq<seq<Target>>, desired: RouteSpec, existing: map<string, Target>, history: map<string, Version>)
    requires |tiers| == |desired|
    requires forall i :: 0 <= i < |tiers| ==> tiers[i] == SettledTier(desired[i], existing, history)
    ensures Flat(tiers) == SettledTier(Flat(desired), existing, history)
  {
    if tiers != [] {
      FlatSettles(tiers[1..], desired[1..], existing, history);
      assert SettledTier(desired[0] + Flat(desired[1..]), existing, history)
          == SettledTier(desired[0], existing, history) + SettledTier(Flat(desired[1..]), existing, history);
    }
  }

  lemma TargetsSettle(current: Route, desired: RouteSpec, history: map<string, Version>)
    ensures TargetsOf(Materialized(current, desired, history))
         == SettledTier(Flat(desired), Existing(TargetsOf(current)), history)
  {
    FlatSettles(Materialized(current, desired, history).tiers, desired, Existing(TargetsOf(current)), history);
  }

  // The target a spec settles on, and its version, from the workspace alone.
  lemma SettlesTo(w: Workspace, ever: set<Target>, name: string, spec: TargetSpec, t: Target)
    requires Tracked(w, ever) && name in w.routes
    requires t == Settled(spec, Existing(TargetsOf(w.routes[name])), w.generations)
    ensures t.id == spec.id && t.settings == spec.settings
    ensures ValidTarget(t) <==> SpecFits(w, name, spec)
    ensures ValidTarget(t) ==> Dated(w, name, t)
  {
    var targets := TargetsOf(w.routes[name]);
    ExistingMembers(targets);
    if spec.id in Existing(targets) {
      var c := Existing(targets)[spec.id];
      ActiveVersion(w, ever, name, c);
      KnownSettles(w, name, spec, c, t);
    } else {
      assert spec.id !in Ids(targets);
      UnknownSettles(w, name, spec, t);
    }
  }

  lemma KnownSettles(w: Workspace, name: string, spec: TargetSpec, c: Target, t: Target)
    requires ValidWorkspace(w) && name in w.routes && c in TargetsOf(w.routes[name]) && c.id == spec.id
    requires c.id in w.generations && w.generations[c.id] == c.version && c.version != 0
    requires var r := TargetFromSpec(spec, Some(c), c.version);
             t == if r.Ok? then r.value else Target(spec.id, 0, spec.settings)
    ensures ValidTarget(t) <==> SpecFits(w, name, spec)
    ensures ValidTarget(t) ==> Dated(w, name, t)
  {
    OnlyOne(w, name, c);
  }

  lemma UnknownSettles(w: Workspace, name: string, spec: TargetSpec, t: Target)
    requires name in w.routes && spec.id !in Ids(TargetsOf(w.routes[name])) && ValidLedger(w.generations)
    requires var r := TargetFromSpec(spec, None, Highest(w.generations, spec.id));
             t == if r.Ok? then r.value else Target(spec.id, 0, spec.settings)
    ensures ValidTarget(t) <==> SpecFits(w, name, spec)
    ensures ValidTarget(t) ==> Dated(w, name, t)
  {
  }

  lemma OnlyOne(w: Workspace, name: string, c: Target)
    requires ValidWorkspace(w) && name in w.routes && c in TargetsOf(w.routes[name])
    ensures forall d :: d in TargetsOf(w.routes[name]) && d.id == c.id ==> d == c
  {
    assert UniqueIds(TargetsOf(w.routes[name]));
  }

  // A target the route already had continues; a new ID starts at version 1, and a
  // returning one past the last version it had.
  ghost predicate Dated(w: Workspace, name: string, t: Target)
    requires name in w.routes
  {
    && (forall c :: c in TargetsOf(w.routes[name]) && c.id == t.id ==> Continues(c, t))
    && (t.id !in Ids(TargetsOf(w.routes[name])) ==>
          t.version as nat == 1 + if t.id in w.generations then w.generations[t.id] as nat else 0)
  }

  lemma MaterializedFits(w: Workspace, ever: set<Target>, name: string, desired: RouteSpec, targets: seq<Target>)
    requires Tracked(w, ever) && name in w.routes
    requires targets == SettledTier(Flat(desired), Existing(TargetsOf(w.routes[name])), w.generations)
    ensures UniqueIds(targets) <==> SpecsDistinct(Flat(desired))
    ensures forall k :: 0 <= k < |targets| ==>
              && targets[k].id == Flat(desired)[k].id
              && (ValidTarget(targets[k]) <==> SpecFits(w, name, Flat(desired)[k]))
              && (ValidTarget(targets[k]) ==> Dated(w, name, targets[k]))
  {
    forall k | 0 <= k < |targets|
      ensures && targets[k].id == Flat(desired)[k].id
              && (ValidTarget(targets[k]) <==> SpecFits(w, name, Flat(desired)[k]))
              && (ValidTarget(targets[k]) ==> Dated(w, name, targets[k]))
    {
      SettlesTo(w, ever, name, Flat(desired)[k], targets[k]);
    }
  }

  lemma SameTiers(current: Route, desired: RouteSpec, history: map<string, Version>)
    ensures NoEmptyTier(Materialized(current, desired, history).tiers) <==> [] !in desired
  {
    var tiers := Materialized(current, desired, history).tiers;
    assert forall i :: 0 <= i < |desired| ==> |tiers[i]| == |desired[i]|;
  }

  lemma AppliableIsValid(w: Workspace, ever: set<Target>, name: string, desired: RouteSpec, route: Route)
    requires Tracked(w, ever) && name in w.routes && route == Materialized(w.routes[name], desired, w.generations)
    ensures Appliable(w, name, desired) <==> ValidRoute(route) && Disjoint(w, name, TargetsOf(route))
    ensures ValidRoute(route) ==> forall k :: 0 <= k < |TargetsOf(route)| ==> Dated(w, name, TargetsOf(route)[k])
  {
    TargetsSettle(w.routes[name], desired, w.generations);
    SameTiers(w.routes[name], desired, w.generations);
    MaterializedFits(w, ever, name, desired, TargetsOf(route));
  }

  lemma {:induction false} NotedOverwrites(generations: map<string, Version>, targets: seq<Target>)
    requires UniqueIds(targets)
    ensures Overwrites(Noted(generations, targets), generations, targets)
  {
    if targets != [] {
      var init := targets[..|targets| - 1];
      NotedOverwrites(generations, init);
      OverwritesOneMore(Noted(generations, init), generations, init, targets[|targets| - 1]);
      assert targets == init + [targets[|targets| - 1]];
    }
  }

  lemma OverwritesOneMore(after: map<string, Version>, before: map<string, Version>, targets: seq<Target>, last: Target)
    requires Overwrites(after, before, targets) && UniqueIds(targets + [last])
    ensures Overwrites(after[last.id := last.version], before, targets + [last])
  {
    AppendUnique(targets, [last]);
    assert Ids([last]) == {last.id};
  }

  // A desired spec is accepted exactly when it has no empty tier, names no ID
  // twice nor one another route runs, and every entry is complete and has a
  // version to take.
  lemma ApplyOutcome(w: Workspace, ever: set<Target>, name: string, desired: RouteSpec)
    requires Tracked(w, ever)
    ensures var r := Edited(w, ApplyRouteSpec(name, desired));
            if name !in w.routes then r == Err(NotFound)
            else if Appliable(w, name, desired) then r.Ok? && Follows(w, name, desired, r.value)
            else r == Err(InvalidConfig)
  {
    if name in w.routes {
      var route := Materialized(w.routes[name], desired, w.generations);
      ApplyEdits(w, name, desired, route);
      AppliableIsValid(w, ever, name, desired, route);
      if ValidRoute(route) {
        ApplyPuts(w, ever, name, route);
        MaterializedIsDesired(w.routes[name], desired, w.generations, route);
        NotedOverwrites(w.generations, TargetsOf(route));
      }
    }
  }

  lemma ApplyPuts(w: Workspace, ever: set<Target>, name: string, route: Route)
    requires Tracked(w, ever) && name in w.routes && route.name == name && ValidRoute(route)
    ensures Restored(w.slug, w.defaultRoute, w.routes[name := route], Noted(w.generations, TargetsOf(route))) ==
            if Disjoint(w, name, TargetsOf(route))
            then Ok(w.(routes := w.routes[name := route], generations := Noted(w.generations, TargetsOf(route))))
            else Err(InvalidConfig)
  {
    var targets := TargetsOf(route);
    if Disjoint(w, name, targets) {
      NotedOverwrites(w.generations, targets);
      PutRestores(w, ever, name, route, Noted(w.generations, targets));
    } else {
      var i :| 0 <= i < |targets| && TakenElsewhere(w, name, targets[i].id);
      TakenRefuses(w, name, route, Noted(w.generations, targets), targets[i].id);
    }
  }

  // The route holds the desired spec, dated by what it held before; its versions
  // are written down, and nothing else changed.
  ghost predicate Follows(w: Workspace, name: string, desired: RouteSpec, next: Workspace)
    requires name in w.routes
  {
    && name in next.routes && SpecOf(next.routes[name]) == desired
    && (forall k :: 0 <= k < |TargetsOf(next.routes[name])| ==> Dated(w, name, TargetsOf(next.routes[name])[k]))
    && Overwrites(next.generations, w.generations, TargetsOf(next.routes[name]))
    && next == w.(routes := w.routes[name := next.routes[name]], generations := next.generations)
  }
}
