/**
 * The backfill that reconciles each region's proxy with the database: first the teams, then the users and
 * their team memberships. This module gives each row's outcome as a function of the proxies it finds; users
 * are reconciled by reading the team's roster afresh every time. `BackfillRunner` holds the loops, with the
 * roster cache the script keeps, and `BackfillTheorems` what a run promises.
 */
module Backfill {
  import opened Common

  type Id = nat

  datatype Region = Region(id: Id, name: string, active: bool, dedicated: bool)

  /** `gated` is `requires_pool_purchase_gate`. */
  datatype Team = Team(id: Id, active: bool, deleted: bool, gated: bool)

  datatype User = User(id: Id, email: Option<string>, active: bool, team: Option<Id>)

  /** The tables, in the order their queries return them; `associations` are (team id, region id) rows. */
  datatype Database = Database(regions: seq<Region>, associations: seq<(Id, Id)>, teams: seq<Team>, users: seq<User>)

  /** Ids are primary keys. */
  ghost predicate Keyed(db: Database) {
    && (forall i, j | 0 <= i < j < |db.regions| :: db.regions[i].id != db.regions[j].id)
    && (forall i, j | 0 <= i < j < |db.teams| :: db.teams[i].id != db.teams[j].id)
    && (forall i, j | 0 <= i < j < |db.users| :: db.users[i].id != db.users[j].id)
  }

  // ------------------------------------------------------------ the proxies

  /** A team's id on a proxy: the region's name with its spaces replaced, an underscore, the team's id. */
  datatype LiteId = LiteId(region: string, team: Id)

  datatype LiteTeam = LiteTeam(maxBudget: Option<int>, duration: Option<string>, members: set<Id>)

  datatype Proxy = Proxy(users: set<Id>, teams: map<LiteId, LiteTeam>)

  /** The calls the script makes to one region's proxy. */
  datatype Call =
    | ReadTeam(region: Id, lite: LiteId)
    | ReadUser(region: Id, user: Id)
    | NewTeam(region: Id, lite: LiteId, maxBudget: Option<int>, duration: Option<string>)
    | NewUser(region: Id, user: Id)
    | AddMember(region: Id, lite: LiteId, user: Id)

  /** The proxies by region id, and the writes that reached them, in order. */
  datatype World = World(proxies: map<Id, Proxy>, writes: seq<Call>) {
    function At(region: Id): Proxy {
      Get(proxies, region).GetOr(Proxy({}, map[]))
    }

    function Members(region: Id, lite: LiteId): set<Id> {
      if lite in At(region).teams then At(region).teams[lite].members else {}
    }

    /** Creating what already exists counts as success and changes nothing. */
    function Write(call: Call): World {
      var p := At(call.region);
      var now := match call
        case NewTeam(_, lite, budget, duration) =>
          if lite in p.teams then p else p.(teams := p.teams[lite := LiteTeam(budget, duration, {})])
        case NewUser(_, user) => p.(users := p.users + {user})
        case AddMember(_, lite, user) =>
          if lite in p.teams then p.(teams := p.teams[lite := p.teams[lite].(members := p.teams[lite].members + {user})])
          else p
        case _ => p;
      World(proxies[call.region := now], writes + [call])
    }
  }

  function Underscored(name: string): string {
    seq(|name|, i requires 0 <= i < |name| => if name[i] == ' ' then '_' else name[i])
  }

  function FormatTeamId(region: Region, team: Id): LiteId {
    LiteId(Underscored(region.name), team)
  }

  /** How a run is set up: `faults` are the calls that fail, other than by finding nothing. */
  datatype Setup = Setup(dryRun: bool, limit: Option<int>, onlyTeam: Option<Id>, onlyUser: Option<Id>,
                         poolDuration: string, faults: set<Call>)

  /** A write fails on a fault, and adding a member to a team that is not there fails too. */
  predicate Writable(w: World, faults: set<Call>, call: Call) {
    && call !in faults
    && (call.AddMember? ==> call.lite in w.At(call.region).teams)
  }

  // ------------------------------------------------------------ target regions

  function Shared(regions: seq<Region>): seq<Region> {
    if regions == [] then []
    else
      var last := regions[|regions| - 1];
      Shared(regions[..|regions| - 1]) + if last.active && !last.dedicated then [last] else []
  }

  /** The active dedicated regions associated with a team, in row order. */
  function Dedicated(db: Database, rows: seq<(Id, Id)>, team: Id): seq<Region> {
    if rows == [] then []
    else
      var last := rows[|rows| - 1];
      Dedicated(db, rows[..|rows| - 1], team) +
      if last.0 == team then DedicatedRegion(db.regions, last.1) else []
  }

  function DedicatedRegion(regions: seq<Region>, id: Id): seq<Region> {
    if regions == [] then []
    else if regions[0].id == id && regions[0].active && regions[0].dedicated then [regions[0]]
    else DedicatedRegion(regions[1..], id)
  }

  /** The first region of each id, in order. */
  function Dedupe(regions: seq<Region>): seq<Region> {
    if regions == [] then []
    else
      var out, last := Dedupe(regions[..|regions| - 1]), regions[|regions| - 1];
      if exists r | r in out :: r.id == last.id then out else out + [last]
  }

  function TargetRegions(db: Database, team: Id): seq<Region> {
    Dedupe(Shared(db.regions) + Dedicated(db, db.associations, team))
  }

  // ------------------------------------------------------------ counting rows

  datatype Counters = Counters(processed: nat, changed: nat, skipped: nat, failed: nat)

  datatype Failure = TeamFailure(team: Id, region: Id) | UserFailure(user: Id)

  datatype Progress = Progress(world: World, counters: Counters, failures: seq<Failure>)

  const NONE_YET := Counters(0, 0, 0, 0)

  datatype Row = Changed | Unchanged | Failed

  predicate LimitHit(limit: Option<int>, c: Counters) {
    limit.Some? && c.processed >= limit.value
  }

  // ------------------------------------------------------------ teams

  function EnsureTeam(s: Setup, w: World, region: Region, team: Team): (World, Row) {
    var lite := FormatTeamId(region, team.id);
    if ReadTeam(region.id, lite) in s.faults then (w, Failed)
    else if lite in w.At(region.id).teams then (w, Unchanged)
    else if s.dryRun then (w, Changed)
    else
      var create := if team.gated then NewTeam(region.id, lite, Some(0), Some(s.poolDuration))
                    else NewTeam(region.id, lite, None, None);
      if create in s.faults then (w, Failed) else (w.Write(create), Changed)
  }

  function TeamRow(s: Setup, p: Progress, row: (Team, Region)): Progress {
    var (w, end) := EnsureTeam(s, p.world, row.1, row.0);
    var c := p.counters.(processed := p.counters.processed + 1);
    match end
    case Changed => Progress(w, c.(changed := c.changed + 1), p.failures)
    case Unchanged => Progress(w, c, p.failures)
    case Failed => Progress(w, c.(failed := c.failed + 1), p.failures + [TeamFailure(row.0.id, row.1.id)])
  }

  function TeamsFrom(s: Setup, p: Progress, rows: seq<(Team, Region)>): Progress
    decreases |rows|
  {
    if rows == [] then p
    else
      var q := TeamRow(s, p, rows[0]);
      if LimitHit(s.limit, q.counters) then q else TeamsFrom(s, q, rows[1..])
  }

  function TeamsInScope(s: Setup, teams: seq<Team>): seq<Team> {
    if teams == [] then []
    else
      (if !teams[0].deleted && teams[0].active && (s.onlyTeam.None? || s.onlyTeam == Some(teams[0].id)) then [teams[0]]
       else []) + TeamsInScope(s, teams[1..])
  }

  function Paired(team: Team, regions: seq<Region>): seq<(Team, Region)> {
    seq(|regions|, i requires 0 <= i < |regions| => (team, regions[i]))
  }

  function TeamRows(db: Database, teams: seq<Team>): seq<(Team, Region)> {
    if teams == [] then []
    else Paired(teams[0], TargetRegions(db, teams[0].id)) + TeamRows(db, teams[1..])
  }

  function TeamsPhase(s: Setup, db: Database, w: World, failures: seq<Failure>): Progress {
    TeamsFrom(s, Progress(w, NONE_YET, failures), TeamRows(db, TeamsInScope(s, db.teams)))
  }

  // ------------------------------------------------------------ users

  function EndsWith(text: string, suffix: string): bool {
    |suffix| <= |text| && text[|text| - |suffix|..] == suffix
  }

  predicate IsTrialUser(email: Option<string>) {
    var lowered := Lower(email.GetOr(""));
    "trial-" <= lowered && EndsWith(lowered, "@example.com")
  }

  function FindTeam(teams: seq<Team>, id: Id): Option<Team> {
    if teams == [] then None else if teams[0].id == id then Some(teams[0]) else FindTeam(teams[1..], id)
  }

  /** Where a user belongs; nowhere for a trial user or one whose team is gone or switched off. */
  function UserRegions(db: Database, u: User): Option<seq<Region>> {
    if IsTrialUser(u.email) then None
    else if u.team.None? then Some(Shared(db.regions))
    else
      match FindTeam(db.teams, u.team.value)
      case None => None
      case Some(t) => if t.deleted || !t.active then None else Some(TargetRegions(db, t.id))
  }

  /** The user's team membership in one region, after the user itself was found or created. */
  function EnsureMember(s: Setup, w: World, u: User, region: Region, existed: bool): (World, Row)
    requires u.team.Some?
  {
    var lite := FormatTeamId(region, u.team.value);
    if existed && ReadTeam(region.id, lite) in s.faults then (w, Failed)
    else if existed && u.id in w.Members(region.id, lite) then (w, Unchanged)
    else if s.dryRun then (w, Changed)
    else
      var add := AddMember(region.id, lite, u.id);
      if Writable(w, s.faults, add) then (w.Write(add), Changed) else (w, Failed)
  }

  function EnsureUser(s: Setup, w: World, u: User, region: Region): (World, Row) {
    if ReadUser(region.id, u.id) in s.faults then (w, Failed)
    else
      var existed := u.id in w.At(region.id).users;
      var create := NewUser(region.id, u.id);
      if !existed && !s.dryRun && create in s.faults then (w, Failed)
      else
        var w1 := if existed || s.dryRun then w else w.Write(create);
        if u.team.None? then (w1, if existed then Unchanged else Changed)
        else EnsureMember(s, w1, u, region, existed)
  }

  /** The user's regions one after the other; a failure leaves the rest for the next run. */
  function UserFrom(s: Setup, w: World, u: User, regions: seq<Region>, had: Row): (World, Row)
    decreases |regions|
  {
    if regions == [] then (w, had)
    else
      var (w1, row) := EnsureUser(s, w, u, regions[0]);
      if row.Failed? then (w1, Failed) else UserFrom(s, w1, u, regions[1..], if row.Changed? then Changed else had)
  }

  function UserRow(s: Setup, p: Progress, u: User, regions: seq<Region>): Progress {
    var (w, end) := UserFrom(s, p.world, u, regions, Unchanged);
    var c := p.counters.(processed := p.counters.processed + 1);
    match end
    case Changed => Progress(w, c.(changed := c.changed + 1), p.failures)
    case Unchanged => Progress(w, c.(skipped := c.skipped + 1), p.failures)
    case Failed => Progress(w, c.(failed := c.failed + 1), p.failures + [UserFailure(u.id)])
  }

  /** Rows skipped outright do not look at the limit: the source continues with the next user at once. */
  function UsersFrom(s: Setup, db: Database, p: Progress, users: seq<User>): Progress
    decreases |users|
  {
    if users == [] then p
    else
      match UserRegions(db, users[0])
      case None =>
        var c := p.counters;
        UsersFrom(s, db, p.(counters := c.(processed := c.processed + 1, skipped := c.skipped + 1)), users[1..])
      case Some(regions) =>
        var q := UserRow(s, p, users[0], regions);
        if LimitHit(s.limit, q.counters) then q else UsersFrom(s, db, q, users[1..])
  }

  function UsersInScope(s: Setup, users: seq<User>): seq<User> {
    if users == [] then []
    else
      (if users[0].active && (s.onlyUser.None? || s.onlyUser == Some(users[0].id)) then [users[0]] else [])
      + UsersInScope(s, users[1..])
  }

  function UsersPhase(s: Setup, db: Database, w: World, failures: seq<Failure>): Progress {
    UsersFrom(s, db, Progress(w, NONE_YET, failures), UsersInScope(s, db.users))
  }
}
