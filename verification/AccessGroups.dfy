/**
 * Access groups: named sets of models that exist on a proxy only as a tag on each member model and as an
 * entry in each team's list of allowed names.
 *
 * The requests of `app/api/access_groups.py` change the database and queue the pushes that must follow.
 * This module gives the tables, what a proxy should hold, and each request's outcome as a function of the
 * tables; `AccessGroupRequests` holds the code that computes those outcomes step by step, and
 * `AccessGroupTheorems` what holds of every run.
 */
module AccessGroups {
  import opened Common

  type Id = nat

  datatype Status = Pending | Synced | Failed | NotConfigured

  /** `models`, `regions` and `teams` are the group's rows in its three association tables. */
  datatype Group = Group(slug: string, caption: string, description: Option<string>,
                         models: set<Id>, regions: set<Id>, teams: set<Id>)

  /** `managed` is what `catalog_manages(name)` answers; a `default` switches enforcement on. */
  datatype Region = Region(active: bool, managed: bool, default: Option<Id>)

  datatype Team = Team(primary: Option<Id>, allowed: set<Id>, deleted: bool)

  datatype Model = Model(active: bool, deleted: bool)

  datatype Deployment = Deployment(active: bool, status: Status)

  /** `nextId` is the database's id sequence for groups. */
  datatype Store = Store(groups: map<Id, Group>, regions: map<Id, Region>, teams: map<Id, Team>,
                         models: map<Id, Model>, deployments: map<(Id, Id), Deployment>, nextId: Id)

  datatype Task = SyncModel(model: Id, region: Id) | SyncTeam(team: Id, region: Id) | SyncRegionTeams(region: Id)

  datatype Refusal = NotFound | BadRequest | Conflict

  datatype Effect = Effect(store: Store, tasks: set<Task>)

  // ------------------------------------------------------------ what a proxy should hold

  /** The tags of a model's deployment: groups that hold the model and are deployed to the region. */
  ghost function Tags(s: Store, model: Id, region: Id): set<string> {
    set g | g in s.groups && model in s.groups[g].models && region in s.groups[g].regions :: s.groups[g].slug
  }

  /** The active regions a team belongs to, through its primary region or its allowlist. */
  function TeamRegions(s: Store, team: Id): set<Id>
    requires team in s.teams
  {
    set r | r in s.regions && s.regions[r].active && (r in s.teams[team].allowed || s.teams[team].primary == Some(r))
  }

  predicate Enforced(s: Store, region: Id) {
    region in s.regions && s.regions[region].default.Some?
  }

  ghost function DefaultSlugs(s: Store, region: Id): set<string>
    requires region in s.regions
  {
    set g | g in s.groups && s.regions[region].default == Some(g) :: s.groups[g].slug
  }

  ghost function OptInSlugs(s: Store, team: Id, region: Id): set<string> {
    set g | g in s.groups && team in s.groups[g].teams && region in s.groups[g].regions :: s.groups[g].slug
  }

  /** The list a team is restricted to in a region; nothing where enforcement is off. */
  ghost function EffectiveSlugs(s: Store, team: Id, region: Id): Option<set<string>>
    requires region in s.regions
  {
    if Enforced(s, region) && s.regions[region].managed then
      Some(DefaultSlugs(s, region) + OptInSlugs(s, team, region))
    else
      None
  }

  // ------------------------------------------------------------ the pushes that follow a change

  predicate Pushable(s: Store, deployment: (Id, Id)) {
    && deployment in s.deployments
    && s.deployments[deployment].active
    && deployment.0 in s.models
    && s.models[deployment.0].active
    && !s.models[deployment.0].deleted
  }

  function ModelTasks(s: Store, models: set<Id>): set<Task> {
    set d | d in s.deployments && d.0 in models && Pushable(s, d) :: SyncModel(d.0, d.1)
  }

  /** The deployments of these models become pending. */
  function Marked(s: Store, models: set<Id>): Store {
    s.(deployments := map d | d in s.deployments ::
      if d.0 in models && Pushable(s, d) then s.deployments[d].(status := Pending)
      else s.deployments[d])
  }

  function EnforcedRegions(s: Store, team: Id): set<Id>
    requires team in s.teams
  {
    set r | r in TeamRegions(s, team) && Enforced(s, r)
  }

  function TeamTasks(s: Store, teams: set<Id>): set<Task> {
    set t, r | t in teams && t in s.teams && r in EnforcedRegions(s, t) :: SyncTeam(t, r)
  }

  // ------------------------------------------------------------ the requests

  predicate KnownModels(s: Store, ids: seq<Id>) {
    forall m | m in ids :: m in s.models && !s.models[m].deleted
  }

  predicate KnownRegions(s: Store, ids: seq<Id>) {
    forall r | r in ids :: r in s.regions
  }

  predicate SlugTaken(s: Store, slug: string) {
    exists g | g in s.groups :: s.groups[g].slug == slug
  }

  datatype Request =
    | Create(slug: string, caption: string, description: Option<string>, models: seq<Id>, regions: seq<Id>)
    | Update(group: Id, newCaption: Option<string>, newDescription: Option<string>,
             newModels: Option<seq<Id>>, newRegions: Option<seq<Id>>)
    | Delete(group: Id)
    | SetDefault(region: Id, default: Option<Id>)
    | SetTeamGroups(team: Id, slugs: seq<string>)
    | RetryRun(region: Id)

  function Created(s: Store, q: Request): Result<Effect, Refusal>
    requires q.Create?
  {
    if SlugTaken(s, q.slug) || !KnownModels(s, q.models) || !KnownRegions(s, q.regions) then
      Err(BadRequest)
    else
      var group := Group(q.slug, q.caption, q.description, Elements(q.models), Elements(q.regions), {});
      var next := s.(groups := s.groups[s.nextId := group], nextId := s.nextId + 1);
      Ok(Effect(Marked(next, group.models), ModelTasks(next, group.models)))
  }

  function Edited(group: Group, q: Request): Group
    requires q.Update?
  {
    group.(
      caption := q.newCaption.GetOr(group.caption),
      description := if q.newDescription.Some? then q.newDescription else group.description,
      models := if q.newModels.Some? then Elements(q.newModels.value) else group.models,
      regions := if q.newRegions.Some? then Elements(q.newRegions.value) else group.regions)
  }

  predicate IsDefaultIn(s: Store, group: Id, region: Id) {
    region in s.regions && s.regions[region].default == Some(group)
  }

  /** The group would leave a region whose default it is. */
  predicate StripsDefault(s: Store, group: Id, regions: set<Id>) {
    exists r | r in s.regions :: IsDefaultIn(s, group, r) && r !in regions
  }

  function Updated(s: Store, q: Request): Result<Effect, Refusal>
    requires q.Update?
  {
    if q.group !in s.groups then Err(NotFound)
    else if q.newModels.Some? && !KnownModels(s, q.newModels.value) then Err(BadRequest)
    else if q.newRegions.Some? && !KnownRegions(s, q.newRegions.value) then Err(BadRequest)
    else
      var was, now := s.groups[q.group], Edited(s.groups[q.group], q);
      var moved := was.regions != now.regions;
      if moved && StripsDefault(s, q.group, now.regions) then Err(Conflict)
      else
        var next := s.(groups := s.groups[q.group := now]);
        var models := if was.models != now.models || moved then was.models + now.models else {};
        var teams := if moved then was.teams else {};
        Ok(Effect(Marked(next, models), ModelTasks(next, models) + TeamTasks(next, teams)))
  }

  function Deleted(s: Store, q: Request): Result<Effect, Refusal>
    requires q.Delete?
  {
    if q.group !in s.groups then Err(NotFound)
    else if StripsDefault(s, q.group, {}) then Err(Conflict)
    else
      var was := s.groups[q.group];
      var next := s.(groups := s.groups - {q.group});
      Ok(Effect(Marked(next, was.models), ModelTasks(next, was.models) + TeamTasks(next, was.teams)))
  }

  /** The model's deployment in the region is active. */
  predicate ActiveIn(s: Store, model: Id, region: Id) {
    && model in s.models && !s.models[model].deleted
    && (model, region) in s.deployments && s.deployments[(model, region)].active
  }

  /** A member of the group whose deployment in the region is active. */
  predicate ActiveMember(s: Store, group: Id, region: Id, model: Id) {
    group in s.groups && model in s.groups[group].models && ActiveIn(s, model, region)
  }

  /** Teams may be restricted to the group: it is deployed, it has members there, and all have been pushed. */
  predicate MayBecomeDefault(s: Store, group: Id, region: Id) {
    && group in s.groups
    && region in s.groups[group].regions
    && (exists m | m in s.groups[group].models :: ActiveMember(s, group, region, m))
    && (forall m | m in s.groups[group].models && ActiveMember(s, group, region, m) ::
         s.deployments[(m, region)].status == Synced)
  }

  function DefaultSet(s: Store, q: Request): Result<Effect, Refusal>
    requires q.SetDefault?
  {
    if q.region !in s.regions || !s.regions[q.region].active then Err(NotFound)
    else if q.default == s.regions[q.region].default then Ok(Effect(s, {}))
    else if q.default.Some? && q.default.value !in s.groups then Err(NotFound)
    else if q.default.Some? && !MayBecomeDefault(s, q.default.value, q.region) then Err(Conflict)
    else
      Ok(Effect(s.(regions := s.regions[q.region := s.regions[q.region].(default := q.default)]),
                {SyncRegionTeams(q.region)}))
  }

  function Chosen(s: Store, slugs: seq<string>): set<Id> {
    set g | g in s.groups && s.groups[g].slug in slugs
  }

  /** The team's opt-ins become exactly the chosen groups. */
  function OptedIn(groups: map<Id, Group>, team: Id, chosen: set<Id>): map<Id, Group> {
    map g | g in groups ::
      groups[g].(teams := if g in chosen then groups[g].teams + {team} else groups[g].teams - {team})
  }

  function TeamGroupsSet(s: Store, q: Request): Result<Effect, Refusal>
    requires q.SetTeamGroups?
  {
    if q.team !in s.teams || s.teams[q.team].deleted then Err(NotFound)
    else if EnforcedRegions(s, q.team) == {} then Err(Conflict)
    else if exists slug | slug in q.slugs :: !SlugTaken(s, slug) then Err(BadRequest)
    else if exists g | g in Chosen(s, q.slugs) :: s.groups[g].regions !! EnforcedRegions(s, q.team) then
      Err(BadRequest)
    else
      Ok(Effect(s.(groups := OptedIn(s.groups, q.team, Chosen(s, q.slugs))),
                set r | r in EnforcedRegions(s, q.team) :: SyncTeam(q.team, r)))
  }

  function RunRetried(s: Store, q: Request): Result<Effect, Refusal>
    requires q.RetryRun?
  {
    if q.region !in s.regions || !s.regions[q.region].active then Err(NotFound)
    else Ok(Effect(s, {SyncRegionTeams(q.region)}))
  }

  function Handled(s: Store, q: Request): Result<Effect, Refusal> {
    match q
    case Create(_, _, _, _, _) => Created(s, q)
    case Update(_, _, _, _, _) => Updated(s, q)
    case Delete(_) => Deleted(s, q)
    case SetDefault(_, _) => DefaultSet(s, q)
    case SetTeamGroups(_, _) => TeamGroupsSet(s, q)
    case RetryRun(_) => RunRetried(s, q)
  }

  // ------------------------------------------------------------ invariants of the tables

  /** Every association points at a row that exists, and slugs are unique. */
  ghost predicate References(s: Store) {
    && (forall g | g in s.groups ::
         && g < s.nextId
         && s.groups[g].models <= s.models.Keys
         && s.groups[g].regions <= s.regions.Keys
         && s.groups[g].teams <= s.teams.Keys)
    && (forall g, h | g in s.groups && h in s.groups && s.groups[g].slug == s.groups[h].slug :: g == h)
  }

  /** A region's default group exists and is deployed to that region. */
  ghost predicate DefaultsDeployed(s: Store) {
    forall r | r in s.regions && s.regions[r].default.Some? ::
      s.regions[r].default.value in s.groups && r in s.groups[s.regions[r].default.value].regions
  }
}
