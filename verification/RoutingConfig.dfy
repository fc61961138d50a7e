// Edits of the whole configuration (internal/routing/edit.go), and the version
// law for one workspace followed through them.
module RoutingConfig {
  import opened Wrappers
  import opened Routing
  import opened RoutingEdits
  import opened RoutingLaws

  datatype ConfigEdit =
    | CreateWorkspace(slug: string, route: string, target: Target)
    | RenameWorkspace(from: string, to: string)
    | DeleteWorkspace(slug: string)
    | EditWorkspace(slug: string, edit: Edit)

  predicate ValidConfig(c: Config) {
    forall slug :: slug in c ==> c[slug].slug == slug && ValidWorkspace(c[slug])
  }

  // Publishing revalidates every workspace.
  ghost function Published(c: Config): Result<Config, RoutingError> {
    if ValidConfig(c) then Ok(c) else Err(InvalidConfig)
  }

  ghost function Committed(c: Config, slug: string, r: Result<Workspace, RoutingError>): Result<Config, RoutingError> {
    if r.Ok? then Published(c[slug := r.value]) else Err(r.error)
  }

  ghost function ConfigEdited(c: Config, edit: ConfigEdit): Result<Config, RoutingError> {
    match edit
    case CreateWorkspace(slug, route, target) =>
      if slug in c then Err(Conflict)
      else if !ValidTarget(target) || route == "" then Err(InvalidConfig)
      else Committed(c, slug, Restored(slug, route, map[route := Route(route, [[target]])], map[]))
    case RenameWorkspace(from, to) =>
      if from !in c then Err(NotFound)
      else if to in c then Err(Conflict)
      else Published((c - {from})[to := c[from].(slug := to)])
    case DeleteWorkspace(slug) =>
      if slug !in c then Err(NotFound) else Published(c - {slug})
    case EditWorkspace(slug, change) =>
      if slug !in c then Err(NotFound)
      else Committed(c, slug, Edited(c[slug], change))
  }

  ghost function AfterEdit(c: Config, edit: ConfigEdit): Config {
    if ConfigEdited(c, edit).Ok? then ConfigEdited(c, edit).value else c
  }

  // Where the followed workspace is after an edit.
  ghost function Moved(c: Config, slug: string, edit: ConfigEdit): string {
    if edit.RenameWorkspace? && edit.from == slug && ConfigEdited(c, edit).Ok? then edit.to else slug
  }

  // An edit touches one workspace, or moves or removes it; no other changes.
  lemma OtherWorkspacesStay(c: Config, edit: ConfigEdit, slug: string)
    requires slug in c
    requires match edit
             case CreateWorkspace(_, _, _) => true
             case RenameWorkspace(from, _) => slug != from
             case DeleteWorkspace(gone) => slug != gone
             case EditWorkspace(at, _) => slug != at
    ensures slug in AfterEdit(c, edit) && AfterEdit(c, edit)[slug] == c[slug]
  {
  }

  lemma CommitAccepts(c: Config, slug: string, w: Workspace)
    requires ValidConfig(c) && w.slug == slug && ValidWorkspace(w)
    ensures Committed(c, slug, Ok(w)) == Ok(c[slug := w]) && ValidConfig(c[slug := w])
  {
  }

  lemma EditCommits(c: Config, slug: string, edit: Edit, r: Result<Workspace, RoutingError>)
    requires slug in c && r == Edited(c[slug], edit)
    ensures ConfigEdited(c, EditWorkspace(slug, edit)) == Committed(c, slug, r)
  {
  }

  lemma EditStaysValid(w: Workspace, ever: set<Target>, edit: Edit, next: Workspace)
    requires Tracked(w, ever) && Edited(w, edit) == Ok(next)
    ensures next.slug == w.slug && ValidWorkspace(next)
  {
    EditTracks(w, ever, edit, next);
  }

  // An accepted workspace edit is never refused on publication.
  lemma PublicationAccepts(c: Config, ever: set<Target>, slug: string, edit: Edit, w: Workspace)
    requires ValidConfig(c) && slug in c && Tracked(c[slug], ever) && Edited(c[slug], edit) == Ok(w)
    ensures ConfigEdited(c, EditWorkspace(slug, edit)) == Ok(c[slug := w]) && ValidConfig(c[slug := w])
  {
    EditStaysValid(c[slug], ever, edit, w);
    CommitAccepts(c, slug, w);
    EditCommits(c, slug, edit, Ok(w));
  }

  lemma RenamedTracks(w: Workspace, ever: set<Target>, slug: string)
    requires Tracked(w, ever) && slug != ""
    ensures Tracked(w.(slug := slug), ever)
  {
  }

  ghost predicate Followed(c: Config, slug: string, ever: set<Target>) {
    ValidConfig(c) && slug in c && Tracked(c[slug], ever)
  }

  lemma OwnEditFollows(c: Config, slug: string, ever: set<Target>, edit: ConfigEdit, next: Config)
    requires Followed(c, slug, ever) && edit.EditWorkspace? && edit.slug == slug && next == AfterEdit(c, edit)
    ensures slug in next && Followed(next, slug, ever + Active(next[slug].routes))
    ensures NeverFalls(c[slug].generations, next[slug].generations)
  {
    assert ever + Active(c[slug].routes) == ever;
    if Edited(c[slug], edit.edit).Ok? {
      PublicationAccepts(c, ever, slug, edit.edit, Edited(c[slug], edit.edit).value);
      EditTracks(c[slug], ever, edit.edit, Edited(c[slug], edit.edit).value);
    }
  }

  lemma EditFollows(c: Config, slug: string, ever: set<Target>, edit: ConfigEdit)
    requires Followed(c, slug, ever) && edit != DeleteWorkspace(slug)
    ensures var next := AfterEdit(c, edit);
            var at := Moved(c, slug, edit);
            && at in next && Followed(next, at, ever + Active(next[at].routes))
            && NeverFalls(c[slug].generations, next[at].generations)
  {
    var next := AfterEdit(c, edit);
    if edit.EditWorkspace? && edit.slug == slug {
      OwnEditFollows(c, slug, ever, edit, next);
    } else if edit.RenameWorkspace? && edit.from == slug {
      OwnRenameFollows(c, slug, ever, edit, next, Moved(c, slug, edit));
    } else {
      OtherEditFollows(c, slug, ever, edit, next);
    }
  }

  lemma OwnRenameFollows(c: Config, slug: string, ever: set<Target>, edit: ConfigEdit, next: Config, at: string)
    requires Followed(c, slug, ever) && edit.RenameWorkspace? && edit.from == slug
    requires next == AfterEdit(c, edit) && at == Moved(c, slug, edit)
    ensures at in next && Followed(next, at, ever + Active(next[at].routes))
    ensures NeverFalls(c[slug].generations, next[at].generations)
  {
    assert ever + Active(c[slug].routes) == ever;
    if ConfigEdited(c, edit).Ok? {
      assert edit.to != "" by { assert ValidWorkspace(next[edit.to]); }
      RenamedTracks(c[slug], ever, edit.to);
    }
  }

  lemma OtherEditFollows(c: Config, slug: string, ever: set<Target>, edit: ConfigEdit, next: Config)
    requires Followed(c, slug, ever) && edit != DeleteWorkspace(slug) && next == AfterEdit(c, edit)
    requires !(edit.EditWorkspace? && edit.slug == slug) && !(edit.RenameWorkspace? && edit.from == slug)
    ensures slug in next && Followed(next, slug, ever + Active(next[slug].routes))
    ensures NeverFalls(c[slug].generations, next[slug].generations)
  {
    assert ever + Active(c[slug].routes) == ever;
    OtherWorkspacesStay(c, edit, slug);
    AfterEditIsValid(c, edit);
  }

  lemma AfterEditIsValid(c: Config, edit: ConfigEdit)
    requires ValidConfig(c)
    ensures ValidConfig(AfterEdit(c, edit))
  {
    if ConfigEdited(c, edit).Ok? {
      PublishedIsValid(c, edit, ConfigEdited(c, edit).value);
    }
  }

  lemma PublishedIsValid(c: Config, edit: ConfigEdit, next: Config)
    requires ConfigEdited(c, edit) == Ok(next)
    ensures Published(next) == Ok(next)
  {
  }

  // The followed workspace is not deleted along the run.
  ghost predicate Survives(c: Config, slug: string, edits: seq<ConfigEdit>)
    decreases |edits|
  {
    edits != [] ==>
      edits[0] != DeleteWorkspace(slug) && Survives(AfterEdit(c, edits[0]), Moved(c, slug, edits[0]), edits[1..])
  }

  ghost function EverAt(c: Config, slug: string, edits: seq<ConfigEdit>): set<Target>
    decreases |edits|
  {
    (if slug in c then Active(c[slug].routes) else {})
    + if edits == [] then {} else EverAt(AfterEdit(c, edits[0]), Moved(c, slug, edits[0]), edits[1..])
  }

  lemma {:induction false} RunFollows(c: Config, slug: string, ever: set<Target>, edits: seq<ConfigEdit>)
    requires Followed(c, slug, ever) && Survives(c, slug, edits)
    ensures OneSettings(ever + EverAt(c, slug, edits))
    decreases |edits|
  {
    if edits == [] {
      assert ever + EverAt(c, slug, edits) == ever;
    } else {
      var next := AfterEdit(c, edits[0]);
      var at := Moved(c, slug, edits[0]);
      EditFollows(c, slug, ever, edits[0]);
      RunFollows(next, at, ever + Active(next[at].routes), edits[1..]);
      assert ever + Active(next[at].routes) + EverAt(next, at, edits[1..]) == ever + EverAt(c, slug, edits);
    }
  }

  // Through any edits of the configuration that do not delete it, renames
  // included, a workspace never reuses a target version for other settings.
  lemma SurvivingWorkspaceNeverReuses(c: Config, slug: string, edits: seq<ConfigEdit>)
    requires ValidConfig(c) && slug in c && Tracked(c[slug], Active(c[slug].routes)) && Survives(c, slug, edits)
    ensures OneSettings(EverAt(c, slug, edits))
  {
    RunFollows(c, slug, Active(c[slug].routes), edits);
    assert Active(c[slug].routes) + EverAt(c, slug, edits) == EverAt(c, slug, edits);
  }

  lemma SingleRoute(route: string, target: Target)
    requires route != "" && ValidTarget(target)
    ensures var routes := map[route := Route(route, [[target]])];
            Active(routes) == {target} && ValidRoutes(routes) && routes != map[]
  {
    var routes := map[route := Route(route, [[target]])];
    SingleTarget(route, target);
    assert route in routes && routes[route] == Route(route, [[target]]);
    assert target in TargetsOf(routes[route]);
    assert forall t :: t in Active(routes) ==> t in TargetsOf(Route(route, [[target]]));
  }

  lemma SingleRestores(slug: string, route: string, routes: map<string, Route>) returns (w: Workspace)
    requires slug != "" && route in routes && ValidRoutes(routes)
    ensures Restored(slug, route, routes, map[]) == Ok(w)
    ensures w.slug == slug && w.routes == routes && ValidWorkspace(w)
  {
    w := Workspace(slug, route, routes, Recorded(routes, map[]));
    assert ValidWorkspace(Workspace(slug, route, routes, map[]));
  }

  lemma CreatedWorkspace(c: Config, slug: string, route: string, target: Target) returns (w: Workspace)
    requires ValidConfig(c) && slug !in c && slug != "" && route != "" && ValidTarget(target)
    ensures ConfigEdited(c, CreateWorkspace(slug, route, target)) == Ok(c[slug := w])
    ensures Active(w.routes) == {target}
  {
    SingleRoute(route, target);
    w := SingleRestores(slug, route, map[route := Route(route, [[target]])]);
    CommitAccepts(c, slug, w);
  }

  lemma DeletedWorkspace(c: Config, slug: string, w: Workspace)
    requires ValidConfig(c) && slug !in c
    ensures AfterEdit(c[slug := w], DeleteWorkspace(slug)) == c
  {
    assert c[slug := w] - {slug} == c;
  }

  // Deleting a workspace forgets its ledger: created anew, it gives the same
  // target ID and version to whatever settings it is created with.
  lemma RecreatedWorkspaceForgets(c: Config, slug: string, route: string, a: Target, b: Target)
    requires ValidConfig(c) && slug !in c && slug != "" && route != "" && ValidTarget(a) && ValidTarget(b)
    requires a.id == b.id && a.version == b.version && a.settings != b.settings
    ensures var created := AfterEdit(c, CreateWorkspace(slug, route, a));
            var deleted := AfterEdit(created, DeleteWorkspace(slug));
            var again := AfterEdit(deleted, CreateWorkspace(slug, route, b));
            slug in created && slug in again
            && !OneSettings(Active(created[slug].routes) + Active(again[slug].routes))
  {
    var first := CreatedWorkspace(c, slug, route, a);
    var second := CreatedWorkspace(c, slug, route, b);
    DeletedWorkspace(c, slug, first);
    assert a in {a} + {b} && b in {a} + {b};
  }
}
