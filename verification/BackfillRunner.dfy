/**
 * The backfill's loops. `PhaseUsers` reads each team's roster at most once per region and never refreshes
 * it, although it adds members as it goes; it is proved to do exactly what reading every time would do.
 */
module BackfillRunner {
  import opened Common
  import opened Backfill

  ghost predicate DistinctIds(regions: seq<Region>) {
    forall i, j | 0 <= i < j < |regions| :: regions[i].id != regions[j].id
  }

  method DedupeRegions(regions: seq<Region>) returns (out: seq<Region>)
    ensures out == Dedupe(regions)
  {
    var seen: set<Id> := {};
    out := [];
    for i := 0 to |regions|
      invariant out == Dedupe(regions[..i])
      invariant seen == set r | r in out :: r.id
    {
      assert regions[..i + 1][..i] == regions[..i];
      var region := regions[i];
      if region.id !in seen {
        seen := seen + {region.id};
        out := out + [region];
      }
    }
    assert regions[..|regions|] == regions;
  }

  lemma {:induction false} DedupeDistinct(regions: seq<Region>)
    ensures DistinctIds(Dedupe(regions))
    ensures forall r | r in Dedupe(regions) :: r in regions
  {
    if regions != [] {
      DedupeDistinct(regions[..|regions| - 1]);
    }
  }

  /** No region is lost: each id of the list is still there. */
  lemma {:induction false} DedupeCovers(regions: seq<Region>, r: Region)
    requires r in regions
    ensures exists d | d in Dedupe(regions) :: d.id == r.id
  {
    var rest, last := regions[..|regions| - 1], regions[|regions| - 1];
    if r in rest {
      DedupeCovers(rest, r);
      var d :| d in Dedupe(rest) && d.id == r.id;
      assert d in Dedupe(regions);
    } else {
      assert r == last;
      assert (exists d | d in Dedupe(rest) :: d.id == last.id) || last in Dedupe(regions);
    }
  }

  // ------------------------------------------------------------ the roster cache

  /** Rosters by region and team, as they were when first read. */
  type Cache = map<(Id, LiteId), set<Id>>

  /** Outside these regions the cached rosters are still right about these users, and reading would not fail. */
  ghost predicate Fresh(s: Setup, w: World, cache: Cache, users: set<Id>, done: set<Id>) {
    forall k, u | k in cache && k.0 !in done && u in users ::
      && ReadTeam(k.0, k.1) !in s.faults
      && (u in cache[k] <==> u in w.Members(k.0, k.1))
  }

  /** A cache grows by rosters of one region, read from the proxy as it is. */
  ghost predicate Extends(s: Setup, w: World, cache: Cache, next: Cache, region: Id) {
    && (forall k | k in cache :: k in next && next[k] == cache[k])
    && (forall k | k in next && k !in cache ::
         k.0 == region && ReadTeam(k.0, k.1) !in s.faults && next[k] == w.Members(k.0, k.1))
  }

  ghost predicate DistinctUsers(users: seq<User>) {
    forall i, j | 0 <= i < j < |users| :: users[i].id != users[j].id
  }

  function Ids(users: seq<User>): set<Id> {
    set u | u in users :: u.id
  }

  function RegionIds(regions: seq<Region>): set<Id> {
    set r | r in regions :: r.id
  }

  /** Reconciling a user in a region changes that user's membership there, and no other. */
  lemma MembersFrame(s: Setup, w: World, u: User, region: Region, r: Id, lite: LiteId, user: Id)
    requires r != region.id || user != u.id
    ensures user in EnsureUser(s, w, u, region).0.Members(r, lite) <==> user in w.Members(r, lite)
  {
  }

  lemma FreshAfter(s: Setup, w: World, u: User, region: Region, cache: Cache, next: Cache, users: set<Id>, done: set<Id>)
    requires Fresh(s, w, cache, users, done) && Extends(s, w, cache, next, region.id)
    requires u.id !in users || region.id in done
    ensures Fresh(s, EnsureUser(s, w, u, region).0, next, users, done)
  {
    hide EnsureUser;
    forall k, user | k in next && k.0 !in done && user in users
      ensures ReadTeam(k.0, k.1) !in s.faults
      ensures user in next[k] <==> user in EnsureUser(s, w, u, region).0.Members(k.0, k.1)
    {
      MembersFrame(s, w, u, region, k.0, k.1, user);
    }
  }

  class Runner {
    const setup: Setup
    const db: Database
    var world: World
    var failures: seq<Failure>

    constructor (setup: Setup, db: Database, world: World)
      ensures this.setup == setup && this.db == db && this.world == world && failures == []
    {
      this.setup := setup;
      this.db := db;
      this.world := world;
      failures := [];
    }

    ghost function Now(c: Counters): Progress
      reads this
    {
      Progress(world, c, failures)
    }

    method ActiveSharedRegions() returns (shared: seq<Region>)
      ensures shared == Shared(db.regions)
    {
      shared := [];
      for i := 0 to |db.regions|
        invariant shared == Shared(db.regions[..i])
      {
        assert db.regions[..i + 1][..i] == db.regions[..i];
        if db.regions[i].active && !db.regions[i].dedicated {
          shared := shared + [db.regions[i]];
        }
      }
      assert db.regions[..|db.regions|] == db.regions;
    }

    /** The dedicated regions of every team, in one pass over the association rows. */
    method ActiveDedicatedRegionsByTeam() returns (byTeam: map<Id, seq<Region>>)
      ensures forall team :: Get(byTeam, team).GetOr([]) == Dedicated(db, db.associations, team)
    {
      byTeam := map[];
      for i := 0 to |db.associations|
        invariant forall team :: Get(byTeam, team).GetOr([]) == Dedicated(db, db.associations[..i], team)
      {
        assert db.associations[..i + 1][..i] == db.associations[..i];
        var row := db.associations[i];
        var found := DedicatedRegion(db.regions, row.1);
        if found != [] {
          byTeam := byTeam[row.0 := Get(byTeam, row.0).GetOr([]) + found];
        }
      }
      assert db.associations[..|db.associations|] == db.associations;
    }

    method TargetRegionsForTeam(team: Id, shared: seq<Region>, byTeam: map<Id, seq<Region>>)
      returns (regions: seq<Region>)
      requires shared == Shared(db.regions)
      requires Get(byTeam, team).GetOr([]) == Dedicated(db, db.associations, team)
      ensures regions == TargetRegions(db, team)
    {
      regions := DedupeRegions(shared + Get(byTeam, team).GetOr([]));
    }

    method EnsureTeamExists(region: Region, lite: LiteId, team: Team) returns (row: Row)
      requires lite == FormatTeamId(region, team.id)
      modifies `world
      ensures (world, row) == EnsureTeam(setup, old(world), region, team)
    {
      if ReadTeam(region.id, lite) in setup.faults {
        return Failed;
      }
      if lite in world.At(region.id).teams {
        return Unchanged;
      }
      var maxBudget: Option<int>, duration: Option<string> := None, None;
      if team.gated {
        maxBudget, duration := Some(0), Some(setup.poolDuration);
      }
      if setup.dryRun {
        return Changed;
      }
      var create := NewTeam(region.id, lite, maxBudget, duration);
      if create in setup.faults {
        return Failed;
      }
      world := world.Write(create);
      return Changed;
    }

    /** One row of the teams phase, counted. */
    method CountTeam(counters: Counters, team: Team, region: Region) returns (next: Counters)
      modifies `world, `failures
      ensures Now(next) == TeamRow(setup, old(Now(counters)), (team, region))
    {
      hide EnsureTeam;
      next := counters.(processed := counters.processed + 1);
      var row := EnsureTeamExists(region, FormatTeamId(region, team.id), team);
      match row
      case Failed =>
        next := next.(failed := next.failed + 1);
        failures := failures + [TeamFailure(team.id, region.id)];
      case Changed => next := next.(changed := next.changed + 1);
      case Unchanged =>
    }

    method PhaseTeams() returns (counters: Counters)
      modifies `world, `failures
      ensures Now(counters) == TeamsPhase(setup, db, old(world), old(failures))
    {
      counters := NONE_YET;
      var shared := ActiveSharedRegions();
      var byTeam := ActiveDedicatedRegionsByTeam();
      var teams := TeamsInScope(setup, db.teams);
      ghost var goal := TeamsPhase(setup, db, old(world), old(failures));
      assert goal == TeamsFrom(setup, Now(counters), TeamRows(db, teams));
      hide TeamsFrom, TeamRow, TeamsPhase, TeamRows, TargetRegions, TeamsInScope;
      assert teams[0..] == teams;
      for i := 0 to |teams|
        invariant TeamsFrom(setup, Now(counters), TeamRows(db, teams[i..])) == goal
      {
        var team := teams[i];
        var regions := TargetRegionsForTeam(team.id, shared, byTeam);
        ghost var later := TeamRows(db, teams[i + 1..]);
        TeamRowsTurn(db, teams, i);
        for j := 0 to |regions|
          invariant TeamsFrom(setup, Now(counters), Paired(team, regions[j..]) + later) == goal
        {
          TeamsTurn(setup, Now(counters), team, regions, j, later);
          counters := CountTeam(counters, team, regions[j]);
          if setup.limit.Some? && counters.processed >= setup.limit.value {
            return;
          }
        }
        assert Paired(team, regions[|regions|..]) + later == later;
      }
      TeamsEnd(setup, Now(counters), db, teams);
    }

    /** What one region needs for one user, with the rosters read so far. */
    method SyncUserInRegion(u: User, region: Region, cache: Cache) returns (row: Row, next: Cache)
      requires u.team.Some? ==> exists done | region.id !in done :: Fresh(setup, world, cache, {u.id}, done)
      modifies `world
      ensures (world, row) == EnsureUser(setup, old(world), u, region)
      ensures Extends(setup, old(world), cache, next, region.id)
    {
      row, next := Unchanged, cache;
      if ReadUser(region.id, u.id) in setup.faults {
        return Failed, cache;
      }
      var existed := u.id in world.At(region.id).users;
      if !existed {
        row := Changed;
        if !setup.dryRun {
          if NewUser(region.id, u.id) in setup.faults {
            return Failed, cache;
          }
          world := world.Write(NewUser(region.id, u.id));
        }
      }
      if u.team.Some? {
        var lite := FormatTeamId(region, u.team.value);
        var isMember := false;
        if existed {
          var key := (region.id, lite);
          if key !in cache {
            if ReadTeam(region.id, lite) in setup.faults {
              return Failed, cache;
            }
            next := cache[key := world.Members(region.id, lite)];
          }
          isMember := u.id in next[key];
        }
        if !isMember {
          row := Changed;
          if !setup.dryRun {
            var add := AddMember(region.id, lite, u.id);
            if !Writable(world, setup.faults, add) {
              return Failed, next;
            }
            world := world.Write(add);
          }
        }
      }
    }

    /** One user's regions, up to the first failure. */
    method SyncUser(u: User, regions: seq<Region>, cache: Cache, ghost later: set<Id>) returns (end: Row, next: Cache)
      requires u.team.Some? ==> DistinctIds(regions)
      requires Fresh(setup, world, cache, {u.id} + later, {}) && u.id !in later
      modifies `world
      ensures (world, end) == UserFrom(setup, old(world), u, regions, Unchanged)
      ensures Fresh(setup, world, next, later, {})
    {
      hide EnsureUser, Fresh, Extends, UserFrom;
      end, next := Unchanged, cache;
      ghost var goal := UserFrom(setup, old(world), u, regions, Unchanged);
      assert regions[0..] == regions;
      FreshParts(setup, world, cache, u.id, later);
      for j := 0 to |regions|
        invariant UserFrom(setup, world, u, regions[j..], end) == goal
        invariant Fresh(setup, world, next, {u.id}, RegionIds(regions[..j]))
        invariant Fresh(setup, world, next, later, {})
      {
        ghost var before, known := world, next;
        assert u.team.Some? ==> regions[j].id !in RegionIds(regions[..j]);
        UserTurn(setup, world, u, regions, j, end);
        var row;
        row, next := SyncUserInRegion(u, regions[j], next);
        FreshAfter(setup, before, u, regions[j], known, next, later, {});
        FreshWithout(setup, before, known, {u.id}, regions[..j], regions[j]);
        assert regions[..j + 1] == regions[..j] + [regions[j]];
        FreshAfter(setup, before, u, regions[j], known, next, {u.id}, RegionIds(regions[..j + 1]));
        match row
        case Failed => return Failed, next;
        case Changed => end := Changed;
        case Unchanged =>
      }
      UserEnd(setup, world, u, regions, end);
    }

    /** Where a user belongs, or nothing when the row is skipped. */
    method RegionsOfUser(user: User, shared: seq<Region>, byTeam: map<Id, seq<Region>>) returns (r: Option<seq<Region>>)
      requires shared == Shared(db.regions)
      requires forall team :: Get(byTeam, team).GetOr([]) == Dedicated(db, db.associations, team)
      ensures r == UserRegions(db, user)
      ensures r.Some? && user.team.Some? ==> DistinctIds(r.value)
    {
      hide IsTrialUser, TargetRegions;
      if IsTrialUser(user.email) {
        return None;
      }
      if user.team.None? {
        return Some(shared);
      }
      var team := FindTeam(db.teams, user.team.value);
      if team.None? || team.value.deleted || !team.value.active {
        return None;
      }
      FoundTeam(db.teams, user.team.value);
      TargetsDistinct(db, user.team.value);
      var regions := TargetRegionsForTeam(user.team.value, shared, byTeam);
      return Some(regions);
    }

    /** One row of the users phase, counted. */
    method CountUser(counters: Counters, user: User, regions: seq<Region>, cache: Cache, ghost later: set<Id>)
      returns (after: Counters, next: Cache)
      requires user.team.Some? ==> DistinctIds(regions)
      requires Fresh(setup, world, cache, {user.id} + later, {}) && user.id !in later
      modifies `world, `failures
      ensures Now(after) == UserRow(setup, old(Now(counters)), user, regions)
      ensures Fresh(setup, world, next, later, {})
    {
      hide UserFrom, Fresh;
      var end;
      end, next := SyncUser(user, regions, cache, later);
      after := counters.(processed := counters.processed + 1);
      match end
      case Changed => after := after.(changed := after.changed + 1);
      case Unchanged => after := after.(skipped := after.skipped + 1);
      case Failed =>
        after := after.(failed := after.failed + 1);
        failures := failures + [UserFailure(user.id)];
    }

    method PhaseUsers() returns (counters: Counters)
      requires Keyed(db)
      modifies `world, `failures
      ensures Now(counters) == UsersPhase(setup, db, old(world), old(failures))
    {
      counters := NONE_YET;
      var shared := ActiveSharedRegions();
      var byTeam := ActiveDedicatedRegionsByTeam();
      var users := UsersInScope(setup, db.users);
      ghost var goal := UsersPhase(setup, db, old(world), old(failures));
      assert goal == UsersFrom(setup, db, Now(counters), users);
      var cache: Cache := map[];
      ScopeKeepsIds(setup, db.users);
      assert users[0..] == users;
      assert Fresh(setup, world, cache, Ids(users[0..]), {});
      hide UsersFrom, UserRow, UsersPhase, UserRegions, UsersInScope, Fresh, DistinctUsers, Ids, Shared, Dedicated, DistinctIds, Keyed;
      for i := 0 to |users|
        invariant UsersFrom(setup, db, Now(counters), users[i..]) == goal
        invariant Fresh(setup, world, cache, Ids(users[i..]), {})
      {
        var user := users[i];
        FreshFewer(setup, world, cache, users, i);
        UsersTurn(setup, db, Now(counters), users, i);
        var regions := RegionsOfUser(user, shared, byTeam);
        if regions.None? {
          counters := counters.(processed := counters.processed + 1, skipped := counters.skipped + 1);
          continue;
        }
        counters, cache := CountUser(counters, user, regions.value, cache, Ids(users[i + 1..]));
        if setup.limit.Some? && counters.processed >= setup.limit.value {
          return;
        }
      }
      UsersEnd(setup, db, Now(counters), users);
    }
  }

  lemma FreshParts(s: Setup, w: World, cache: Cache, u: Id, later: set<Id>)
    requires Fresh(s, w, cache, {u} + later, {})
    ensures Fresh(s, w, cache, {u}, RegionIds([])) && Fresh(s, w, cache, later, {})
  {
  }

  lemma FreshWithout(s: Setup, w: World, cache: Cache, users: set<Id>, done: seq<Region>, region: Region)
    requires Fresh(s, w, cache, users, RegionIds(done))
    ensures Fresh(s, w, cache, users, RegionIds(done + [region])) && region.id in RegionIds(done + [region])
  {
    assert region in done + [region];
    assert forall r | r in done :: r in done + [region];
  }

  lemma FreshFewer(s: Setup, w: World, cache: Cache, users: seq<User>, i: nat)
    requires i < |users| && DistinctUsers(users) && Fresh(s, w, cache, Ids(users[i..]), {})
    ensures Fresh(s, w, cache, {users[i].id} + Ids(users[i + 1..]), {})
    ensures Fresh(s, w, cache, Ids(users[i + 1..]), {})
    ensures users[i].id !in Ids(users[i + 1..])
  {
    assert users[i..] == [users[i]] + users[i + 1..];
    assert Ids(users[i..]) == {users[i].id} + Ids(users[i + 1..]);
  }

  lemma UserTurn(s: Setup, w: World, u: User, regions: seq<Region>, j: nat, had: Row)
    requires j < |regions|
    ensures
      var (w1, row) := EnsureUser(s, w, u, regions[j]);
      UserFrom(s, w, u, regions[j..], had) ==
      if row.Failed? then (w1, Failed) else UserFrom(s, w1, u, regions[j + 1..], if row.Changed? then Changed else had)
  {
    assert regions[j..][1..] == regions[j + 1..];
  }

  lemma UserEnd(s: Setup, w: World, u: User, regions: seq<Region>, had: Row)
    ensures UserFrom(s, w, u, regions[|regions|..], had) == (w, had)
  {
  }

  lemma UsersTurn(s: Setup, db: Database, p: Progress, users: seq<User>, i: nat)
    requires i < |users|
    ensures
      var c := p.counters;
      UsersFrom(s, db, p, users[i..]) ==
      match UserRegions(db, users[i])
      case None =>
        UsersFrom(s, db, p.(counters := c.(processed := c.processed + 1, skipped := c.skipped + 1)), users[i + 1..])
      case Some(regions) =>
        var q := UserRow(s, p, users[i], regions);
        if LimitHit(s.limit, q.counters) then q else UsersFrom(s, db, q, users[i + 1..])
  {
    assert users[i..][1..] == users[i + 1..];
  }

  lemma UsersEnd(s: Setup, db: Database, p: Progress, users: seq<User>)
    ensures UsersFrom(s, db, p, users[|users|..]) == p
  {
  }

  lemma FoundTeam(teams: seq<Team>, id: Id)
    ensures FindTeam(teams, id).Some? ==> FindTeam(teams, id).value.id == id
  {
  }

  lemma TargetsDistinct(db: Database, team: Id)
    ensures DistinctIds(TargetRegions(db, team))
  {
    DedupeDistinct(Shared(db.regions) + Dedicated(db, db.associations, team));
  }

  lemma {:induction false} ScopeKeepsIds(s: Setup, users: seq<User>)
    requires DistinctUsers(users)
    ensures DistinctUsers(UsersInScope(s, users))
    ensures forall u | u in UsersInScope(s, users) :: u in users
  {
    if users != [] {
      ScopeKeepsIds(s, users[1..]);
      assert forall u | u in users[1..] :: u.id != users[0].id;
    }
  }

  lemma TeamRowsTurn(db: Database, teams: seq<Team>, i: nat)
    requires i < |teams|
    ensures
      var regions := TargetRegions(db, teams[i].id);
      TeamRows(db, teams[i..]) == Paired(teams[i], regions[0..]) + TeamRows(db, teams[i + 1..])
  {
    assert teams[i..][1..] == teams[i + 1..];
    assert TargetRegions(db, teams[i].id)[0..] == TargetRegions(db, teams[i].id);
  }

  lemma TeamsTurn(s: Setup, p: Progress, team: Team, regions: seq<Region>, j: nat, later: seq<(Team, Region)>)
    requires j < |regions|
    ensures
      var q := TeamRow(s, p, (team, regions[j]));
      TeamsFrom(s, p, Paired(team, regions[j..]) + later) ==
      if LimitHit(s.limit, q.counters) then q else TeamsFrom(s, q, Paired(team, regions[j + 1..]) + later)
  {
    hide TeamRow;
    var rows := Paired(team, regions[j..]) + later;
    assert rows[0] == (team, regions[j]);
    assert rows[1..] == Paired(team, regions[j + 1..]) + later;
  }

  lemma TeamsEnd(s: Setup, p: Progress, db: Database, teams: seq<Team>)
    ensures TeamsFrom(s, p, TeamRows(db, teams[|teams|..])) == p
  {
  }
}
