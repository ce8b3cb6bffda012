/**
 * What holds of every single access-group request.
 */
module AccessGroupTheorems {
  import opened Common
  import opened AccessGroups

  ghost predicate Carries(groups: map<Id, Group>, g: Id, d: (Id, Id)) {
    g in groups && d.0 in groups[g].models && d.1 in groups[g].regions
  }

  ghost predicate OptsIn(groups: map<Id, Group>, g: Id, team: Id, region: Id) {
    g in groups && team in groups[g].teams && region in groups[g].regions
  }

  lemma SameTags(s: Store, t: Store, d: (Id, Id))
    requires forall g :: Carries(s.groups, g, d) <==> Carries(t.groups, g, d)
    requires forall g | g in s.groups && g in t.groups :: s.groups[g].slug == t.groups[g].slug
    ensures Tags(s, d.0, d.1) == Tags(t, d.0, d.1)
  {
    forall slug
      ensures slug in Tags(s, d.0, d.1) <==> slug in Tags(t, d.0, d.1)
    {
      assert slug in Tags(s, d.0, d.1) <==> exists g :: Carries(s.groups, g, d) && s.groups[g].slug == slug;
      assert slug in Tags(t, d.0, d.1) <==> exists g :: Carries(t.groups, g, d) && t.groups[g].slug == slug;
    }
  }

  lemma SameLists(s: Store, t: Store, team: Id, region: Id)
    requires forall g :: OptsIn(s.groups, g, team, region) <==> OptsIn(t.groups, g, team, region)
    requires forall g | g in s.groups && g in t.groups :: s.groups[g].slug == t.groups[g].slug
    requires region in s.regions && region in t.regions && s.regions[region] == t.regions[region]
    requires forall g | s.regions[region].default == Some(g) :: g in s.groups && g in t.groups
    ensures EffectiveSlugs(s, team, region) == EffectiveSlugs(t, team, region)
  {
    forall slug
      ensures slug in OptInSlugs(s, team, region) <==> slug in OptInSlugs(t, team, region)
    {
      assert slug in OptInSlugs(s, team, region) <==>
        exists g :: OptsIn(s.groups, g, team, region) && s.groups[g].slug == slug;
      assert slug in OptInSlugs(t, team, region) <==>
        exists g :: OptsIn(t.groups, g, team, region) && t.groups[g].slug == slug;
    }
    assert OptInSlugs(s, team, region) == OptInSlugs(t, team, region);
    assert DefaultSlugs(s, region) == DefaultSlugs(t, region);
  }

  /** A live deployment whose tags change is marked pending and queued. */
  ghost predicate TagsFollow(s: Store, e: Effect, d: (Id, Id)) {
    Tags(s, d.0, d.1) != Tags(e.store, d.0, d.1) ==>
      && SyncModel(d.0, d.1) in e.tasks
      && d in s.deployments && d in e.store.deployments
      && e.store.deployments[d] == s.deployments[d].(status := Pending)
  }

  /** A team whose list changes in a region is queued, alone or with the region. */
  ghost predicate ListsFollow(s: Store, e: Effect, team: Id, region: Id)
    requires region in s.regions && region in e.store.regions
  {
    EffectiveSlugs(s, team, region) != EffectiveSlugs(e.store, team, region) ==>
      SyncTeam(team, region) in e.tasks || SyncRegionTeams(region) in e.tasks
  }

  lemma CreatedTags(s: Store, q: Request, d: (Id, Id))
    requires References(s) && Pushable(s, d) && q.Create? && Created(s, q).Ok?
    ensures TagsFollow(s, Created(s, q).value, d)
  {
    if d.0 !in q.models {
      SameTags(s, Created(s, q).value.store, d);
    }
  }

  lemma UpdatedTags(s: Store, q: Request, d: (Id, Id))
    requires Pushable(s, d) && q.Update? && Updated(s, q).Ok?
    ensures TagsFollow(s, Updated(s, q).value, d)
  {
    var e := Updated(s, q).value;
    if SyncModel(d.0, d.1) !in e.tasks {
      SameTags(s, e.store, d);
    }
  }

  lemma DeletedTags(s: Store, q: Request, d: (Id, Id))
    requires Pushable(s, d) && q.Delete? && Deleted(s, q).Ok?
    ensures TagsFollow(s, Deleted(s, q).value, d)
  {
    if d.0 !in s.groups[q.group].models {
      SameTags(s, Deleted(s, q).value.store, d);
    }
  }

  lemma DefaultSetTags(s: Store, q: Request, d: (Id, Id))
    requires q.SetDefault? && DefaultSet(s, q).Ok?
    ensures TagsFollow(s, DefaultSet(s, q).value, d)
  {
    SameTags(s, DefaultSet(s, q).value.store, d);
  }

  lemma TeamGroupsTags(s: Store, q: Request, d: (Id, Id))
    requires q.SetTeamGroups? && TeamGroupsSet(s, q).Ok?
    ensures TagsFollow(s, TeamGroupsSet(s, q).value, d)
  {
    SameTags(s, TeamGroupsSet(s, q).value.store, d);
  }

  /** Every live deployment whose tags a request changes is marked pending and queued. */
  lemma TagChangesAreQueued(s: Store, q: Request, d: (Id, Id))
    requires References(s) && Pushable(s, d) && Handled(s, q).Ok?
    ensures TagsFollow(s, Handled(s, q).value, d)
  {
    hide TagsFollow, Created, Updated, Deleted, DefaultSet, TeamGroupsSet;
    match q
    case Create(_, _, _, _, _) => CreatedTags(s, q, d);
    case Update(_, _, _, _, _) => UpdatedTags(s, q, d);
    case Delete(_) => DeletedTags(s, q, d);
    case SetDefault(_, _) => DefaultSetTags(s, q, d);
    case SetTeamGroups(_, _) => TeamGroupsTags(s, q, d);
    case RetryRun(_) => RetriedFollows(s, q, d, 0, 0);
  }

  /** The team and region named by a list: a region the team belongs to. */
  ghost predicate Belongs(s: Store, team: Id, region: Id) {
    team in s.teams && region in TeamRegions(s, team)
  }

  lemma CreatedLists(s: Store, q: Request, team: Id, region: Id)
    requires References(s) && DefaultsDeployed(s) && Belongs(s, team, region) && q.Create? && Created(s, q).Ok?
    ensures ListsFollow(s, Created(s, q).value, team, region)
  {
    SameLists(s, Created(s, q).value.store, team, region);
  }

  lemma UpdatedLists(s: Store, q: Request, team: Id, region: Id)
    requires DefaultsDeployed(s) && Belongs(s, team, region) && q.Update? && Updated(s, q).Ok?
    ensures ListsFollow(s, Updated(s, q).value, team, region)
  {
    var e := Updated(s, q).value;
    if Enforced(s, region) && SyncTeam(team, region) !in e.tasks {
      assert region in EnforcedRegions(e.store, team);
      SameLists(s, e.store, team, region);
    }
  }

  lemma DeletedLists(s: Store, q: Request, team: Id, region: Id)
    requires DefaultsDeployed(s) && Belongs(s, team, region) && q.Delete? && Deleted(s, q).Ok?
    ensures ListsFollow(s, Deleted(s, q).value, team, region)
  {
    var e := Deleted(s, q).value;
    if Enforced(s, region) && SyncTeam(team, region) !in e.tasks {
      assert region in EnforcedRegions(e.store, team);
      assert !IsDefaultIn(s, q.group, region);
      SameLists(s, e.store, team, region);
    }
  }

  lemma DefaultSetLists(s: Store, q: Request, team: Id, region: Id)
    requires DefaultsDeployed(s) && Belongs(s, team, region) && q.SetDefault? && DefaultSet(s, q).Ok?
    ensures ListsFollow(s, DefaultSet(s, q).value, team, region)
  {
    if region != q.region {
      SameLists(s, DefaultSet(s, q).value.store, team, region);
    }
  }

  lemma TeamGroupsLists(s: Store, q: Request, team: Id, region: Id)
    requires DefaultsDeployed(s) && Belongs(s, team, region) && q.SetTeamGroups? && TeamGroupsSet(s, q).Ok?
    ensures ListsFollow(s, TeamGroupsSet(s, q).value, team, region)
  {
    if team != q.team {
      SameLists(s, TeamGroupsSet(s, q).value.store, team, region);
    }
  }

  /** Every team of an active region whose list a request changes is queued, alone or with its region. */
  lemma ListChangesAreQueued(s: Store, q: Request, team: Id, region: Id)
    requires References(s) && DefaultsDeployed(s) && Belongs(s, team, region) && Handled(s, q).Ok?
    ensures region in Handled(s, q).value.store.regions
    ensures ListsFollow(s, Handled(s, q).value, team, region)
  {
    OtherTablesStay(s, q);
    hide ListsFollow, Created, Updated, Deleted, DefaultSet, TeamGroupsSet;
    match q
    case Create(_, _, _, _, _) => CreatedLists(s, q, team, region);
    case Update(_, _, _, _, _) => UpdatedLists(s, q, team, region);
    case Delete(_) => DeletedLists(s, q, team, region);
    case SetDefault(_, _) => DefaultSetLists(s, q, team, region);
    case SetTeamGroups(_, _) => TeamGroupsLists(s, q, team, region);
    case RetryRun(_) => RetriedFollows(s, q, (0, 0), team, region);
  }

  lemma RetriedFollows(s: Store, q: Request, d: (Id, Id), team: Id, region: Id)
    requires q.RetryRun? && RunRetried(s, q).Ok?
    ensures TagsFollow(s, RunRetried(s, q).value, d)
    ensures region in s.regions ==> ListsFollow(s, RunRetried(s, q).value, team, region)
  {
  }

  /** Requests touch the group table, the defaults and the sync columns, and nothing else. */
  lemma OtherTablesStay(s: Store, q: Request)
    requires Handled(s, q).Ok?
    ensures
      var t := Handled(s, q).value.store;
      && t.teams == s.teams && t.models == s.models
      && t.regions.Keys == s.regions.Keys && t.deployments.Keys == s.deployments.Keys
      && (forall r | r in s.regions ::
           t.regions[r].active == s.regions[r].active && t.regions[r].managed == s.regions[r].managed)
      && (forall d | d in s.deployments :: t.deployments[d].active == s.deployments[d].active)
  {
    hide SlugTaken, KnownModels, KnownRegions, StripsDefault, MayBecomeDefault, Chosen, TeamTasks, ModelTasks, Pushable;
  }

  /** A sync column changes only to pending, and only for a live deployment that is queued. */
  lemma MarksAreQueued(s: Store, q: Request, d: (Id, Id))
    requires Handled(s, q).Ok? && d in s.deployments
    ensures
      var Effect(t, tasks) := Handled(s, q).value;
      && d in t.deployments
      && (t.deployments[d] == s.deployments[d]
          || (Pushable(s, d) && t.deployments[d].status == Pending && SyncModel(d.0, d.1) in tasks))
  {
    hide SlugTaken, KnownModels, KnownRegions, StripsDefault, MayBecomeDefault, Chosen, TeamTasks;
  }

  /** References stay sound and slugs unique. */
  lemma ReferencesKept(s: Store, q: Request)
    requires References(s) && Handled(s, q).Ok?
    ensures References(Handled(s, q).value.store)
  {
    hide StripsDefault, MayBecomeDefault, Chosen, TeamTasks, ModelTasks, Pushable;
  }

  /** A region's default group always exists and is deployed there. */
  lemma DefaultsKept(s: Store, q: Request)
    requires References(s) && DefaultsDeployed(s) && Handled(s, q).Ok?
    ensures DefaultsDeployed(Handled(s, q).value.store)
  {
    hide SlugTaken, KnownModels, KnownRegions, Chosen, TeamTasks, ModelTasks, Pushable;
  }

  /** The group a request is about. */
  function Subject(s: Store, q: Request): Option<Id> {
    match q
    case Create(_, _, _, _, _) => Some(s.nextId)
    case Update(g, _, _, _, _) => Some(g)
    case Delete(g) => Some(g)
    case _ => None
  }

  ghost predicate HadMember(groups: map<Id, Group>, g: Option<Id>, model: Id) {
    g.Some? && g.value in groups && model in groups[g.value].models
  }

  ghost predicate HadTeam(groups: map<Id, Group>, g: Option<Id>, team: Id) {
    g.Some? && g.value in groups && team in groups[g.value].teams
  }

  /**
   * Nothing else is pushed: a deployment only if it is live and its model was or becomes a member of the
   * request's group, a team only in an enforced region of its own and if it is the request's team or is
   * opted into the request's group, a region only if the request names it.
   */
  lemma PushesConcernTheRequest(s: Store, q: Request, task: Task)
    requires Handled(s, q).Ok? && task in Handled(s, q).value.tasks
    ensures
      var after := Handled(s, q).value.store;
      match task
      case SyncModel(m, r) =>
        Pushable(s, (m, r)) && (HadMember(s.groups, Subject(s, q), m) || HadMember(after.groups, Subject(s, q), m))
      case SyncTeam(t, r) =>
        t in s.teams && r in EnforcedRegions(s, t) &&
        ((q.SetTeamGroups? && t == q.team) || HadTeam(s.groups, Subject(s, q), t))
      case SyncRegionTeams(r) => (q.SetDefault? || q.RetryRun?) && r == q.region && r in s.regions && s.regions[r].active
  {
    hide SlugTaken, KnownModels, KnownRegions, StripsDefault, MayBecomeDefault, Chosen;
  }

  // ------------------------------------------------------------ the rows after a request

  /** The same rows but for this one. */
  ghost predicate OtherGroupsStay(s: Store, t: Store, group: Id) {
    forall g | g != group :: Get(t.groups, g) == Get(s.groups, g)
  }

  /** Nothing but groups, the id sequence and sync columns differs. */
  ghost predicate RegionsStay(s: Store, t: Store) {
    t.regions == s.regions && t.teams == s.teams && t.models == s.models
  }

  /** A created group has the listed caption, description, models and regions, and no team. */
  lemma CreatedRow(s: Store, q: Request)
    requires References(s) && q.Create? && Handled(s, q).Ok?
    ensures
      var t := Handled(s, q).value.store;
      && s.nextId !in s.groups && s.nextId in t.groups && t.nextId == s.nextId + 1
      && OtherGroupsStay(s, t, s.nextId) && RegionsStay(s, t)
      && var row := t.groups[s.nextId];
         && row.slug == q.slug && row.caption == q.caption && row.description == q.description && row.teams == {}
         && (forall m :: m in row.models <==> m in q.models)
         && (forall r :: r in row.regions <==> r in q.regions)
  {
    hide ModelTasks, Pushable, KnownModels, KnownRegions, SlugTaken;
  }

  /** An updated group has what the request gives and keeps the rest, its slug and teams in any case. */
  lemma UpdatedRow(s: Store, q: Request)
    requires q.Update? && Handled(s, q).Ok?
    ensures
      var t := Handled(s, q).value.store;
      && q.group in s.groups && q.group in t.groups && t.nextId == s.nextId
      && OtherGroupsStay(s, t, q.group) && RegionsStay(s, t)
      && var was, row := s.groups[q.group], t.groups[q.group];
         && row.slug == was.slug && row.teams == was.teams
         && row.caption == (if q.newCaption.Some? then q.newCaption.value else was.caption)
         && row.description == (if q.newDescription.Some? then q.newDescription else was.description)
         && (forall m :: m in row.models <==> if q.newModels.Some? then m in q.newModels.value else m in was.models)
         && (forall r :: r in row.regions <==> if q.newRegions.Some? then r in q.newRegions.value else r in was.regions)
  {
    hide ModelTasks, TeamTasks, Pushable, KnownModels, KnownRegions, StripsDefault;
  }

  /** A deleted group is gone and the others stay. */
  lemma DeletedRow(s: Store, q: Request)
    requires q.Delete? && Handled(s, q).Ok?
    ensures
      var t := Handled(s, q).value.store;
      && q.group in s.groups && q.group !in t.groups && t.nextId == s.nextId
      && OtherGroupsStay(s, t, q.group) && RegionsStay(s, t)
  {
    hide ModelTasks, TeamTasks, Pushable, StripsDefault;
  }

  /** The region has the requested default, and nothing else changes. */
  lemma DefaultRow(s: Store, q: Request)
    requires q.SetDefault? && Handled(s, q).Ok?
    ensures
      var t := Handled(s, q).value.store;
      && q.region in t.regions && t.regions[q.region].default == q.default
      && t.regions.Keys == s.regions.Keys
      && (forall r | r in s.regions && r != q.region :: t.regions[r] == s.regions[r])
      && t == s.(regions := t.regions)
  {
    hide MayBecomeDefault;
  }

  /** The team is opted into exactly the groups whose slugs are listed; every other team, and everything else
      about the groups, stays. */
  lemma OptInsAreListed(s: Store, q: Request)
    requires q.SetTeamGroups? && Handled(s, q).Ok?
    ensures
      var t := Handled(s, q).value.store;
      && t == s.(groups := t.groups) && t.groups.Keys == s.groups.Keys
      && (forall g | g in s.groups :: q.team in t.groups[g].teams <==> s.groups[g].slug in q.slugs)
      && (forall g, other | g in s.groups && other != q.team :: other in t.groups[g].teams <==> other in s.groups[g].teams)
      && (forall g | g in s.groups :: t.groups[g] == s.groups[g].(teams := t.groups[g].teams))
  {
    hide EnforcedRegions, SlugTaken;
  }

  /** So where enforcement is on, the team's list becomes the region's default and the listed groups deployed there. */
  lemma ListAfterOptIn(s: Store, q: Request, region: Id, slug: string)
    requires q.SetTeamGroups? && Handled(s, q).Ok?
    requires region in s.regions && s.regions[region].managed && s.regions[region].default.Some?
    ensures
      var t := Handled(s, q).value.store;
      && region in t.regions && EffectiveSlugs(t, q.team, region).Some?
      && (slug in EffectiveSlugs(t, q.team, region).value <==>
          exists g | g in s.groups ::
            s.groups[g].slug == slug &&
            (s.regions[region].default == Some(g) || (slug in q.slugs && region in s.groups[g].regions)))
  {
    OptInsAreListed(s, q);
    hide Handled;
    var t := Handled(s, q).value.store;
    assert slug in DefaultSlugs(t, region) <==>
      exists g | g in s.groups :: s.groups[g].slug == slug && s.regions[region].default == Some(g);
    assert slug in OptInSlugs(t, q.team, region) <==>
      exists g | g in s.groups :: s.groups[g].slug == slug && slug in q.slugs && region in s.groups[g].regions;
  }

  // ------------------------------------------------------------ which requests are accepted

  /** The region is active, the team belongs to it, and it has a default. */
  predicate EnforcedFor(s: Store, team: Id, region: Id)
    requires team in s.teams
  {
    && region in s.regions && s.regions[region].active && s.regions[region].default.Some?
    && (s.teams[team].primary == Some(region) || region in s.teams[team].allowed)
  }

  /** The model's deployment in the region is active, and the model is not deleted. */
  predicate Deployed(s: Store, model: Id, region: Id) {
    model in s.models && !s.models[model].deleted && (model, region) in s.deployments && s.deployments[(model, region)].active
  }

  /** Exactly which requests are carried out. */
  lemma AcceptedExactly(s: Store, q: Request)
    ensures Handled(s, q).Ok? <==>
      match q
      case Create(slug, _, _, models, regions) =>
        && (forall g | g in s.groups :: s.groups[g].slug != slug)
        && (forall m | m in models :: m in s.models && !s.models[m].deleted)
        && (forall r | r in regions :: r in s.regions)
      case Update(group, _, _, models, regions) =>
        && group in s.groups
        && (models.Some? ==> forall m | m in models.value :: m in s.models && !s.models[m].deleted)
        && (regions.Some? ==>
             && (forall r | r in regions.value :: r in s.regions)
             && ((forall r :: r in regions.value <==> r in s.groups[group].regions) ||
                 forall r | r in s.regions && s.regions[r].default == Some(group) :: r in regions.value))
      case Delete(group) =>
        group in s.groups && forall r | r in s.regions :: s.regions[r].default != Some(group)
      case SetDefault(region, default) =>
        && region in s.regions && s.regions[region].active
        && (default == s.regions[region].default || default == None ||
            (&& default.value in s.groups && region in s.groups[default.value].regions
             && (exists m | m in s.groups[default.value].models :: Deployed(s, m, region))
             && (forall m | m in s.groups[default.value].models && Deployed(s, m, region) ::
                  s.deployments[(m, region)].status == Synced)))
      case SetTeamGroups(team, slugs) =>
        && team in s.teams && !s.teams[team].deleted
        && (exists r :: EnforcedFor(s, team, r))
        && (forall slug | slug in slugs :: exists g | g in s.groups :: s.groups[g].slug == slug)
        && (forall g | g in s.groups && s.groups[g].slug in slugs :: exists r | r in s.groups[g].regions :: EnforcedFor(s, team, r))
      case RetryRun(region) => region in s.regions && s.regions[region].active
  {
    match q
    case Create(_, _, _, _, _) =>
    case Update(_, _, _, _, _) => UpdateAccepted(s, q);
    case Delete(_) =>
    case SetDefault(_, _) => DefaultAccepted(s, q);
    case SetTeamGroups(_, _) => TeamGroupsAccepted(s, q);
    case RetryRun(_) =>
  }

  lemma UpdateAccepted(s: Store, q: Request)
    requires q.Update?
    ensures Updated(s, q).Ok? <==>
      && q.group in s.groups
      && (q.newModels.Some? ==> forall m | m in q.newModels.value :: m in s.models && !s.models[m].deleted)
      && (q.newRegions.Some? ==>
           && (forall r | r in q.newRegions.value :: r in s.regions)
           && ((forall r :: r in q.newRegions.value <==> r in s.groups[q.group].regions) ||
               forall r | r in s.regions && s.regions[r].default == Some(q.group) :: r in q.newRegions.value))
  {
    if q.group in s.groups && q.newRegions.Some? {
      var now := Elements(q.newRegions.value);
      assert s.groups[q.group].regions == now <==> forall r :: r in q.newRegions.value <==> r in s.groups[q.group].regions;
      assert StripsDefault(s, q.group, now) <==>
        !(forall r | r in s.regions && s.regions[r].default == Some(q.group) :: r in q.newRegions.value);
    }
    hide Marked, ModelTasks, TeamTasks, StripsDefault;
  }

  lemma DefaultAccepted(s: Store, q: Request)
    requires q.SetDefault?
    ensures DefaultSet(s, q).Ok? <==>
      && q.region in s.regions && s.regions[q.region].active
      && (q.default == s.regions[q.region].default || q.default == None ||
          (&& q.default.value in s.groups && q.region in s.groups[q.default.value].regions
           && (exists m | m in s.groups[q.default.value].models :: Deployed(s, m, q.region))
           && (forall m | m in s.groups[q.default.value].models && Deployed(s, m, q.region) ::
                s.deployments[(m, q.region)].status == Synced)))
  {
    if q.default.Some? && q.default.value in s.groups {
      forall m | m in s.groups[q.default.value].models
        ensures ActiveMember(s, q.default.value, q.region, m) <==> Deployed(s, m, q.region)
      {
      }
    }
    hide ActiveMember, Deployed;
  }

  lemma TeamGroupsAccepted(s: Store, q: Request)
    requires q.SetTeamGroups?
    ensures TeamGroupsSet(s, q).Ok? <==>
      && q.team in s.teams && !s.teams[q.team].deleted
      && (exists r :: EnforcedFor(s, q.team, r))
      && (forall slug | slug in q.slugs :: exists g | g in s.groups :: s.groups[g].slug == slug)
      && (forall g | g in s.groups && s.groups[g].slug in q.slugs ::
           exists r | r in s.groups[g].regions :: EnforcedFor(s, q.team, r))
  {
    if q.team in s.teams {
      var enforced := EnforcedRegions(s, q.team);
      forall r
        ensures r in enforced <==> EnforcedFor(s, q.team, r)
      {
      }
      hide EnforcedFor, EnforcedRegions;
      assert enforced == {} <==> !exists r :: EnforcedFor(s, q.team, r);
      forall g | g in s.groups
        ensures s.groups[g].regions !! enforced <==> !exists r | r in s.groups[g].regions :: EnforcedFor(s, q.team, r)
      {
      }
    }
    hide OptedIn;
  }
}
