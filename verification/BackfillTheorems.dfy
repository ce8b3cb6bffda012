/**
 * What a backfill promises: its counts add up, a dry run writes nothing and predicts the real run, and a
 * second real run finds nothing left to do.
 */
module BackfillTheorems {
  import opened Common
  import opened Backfill
  import opened BackfillRunner

  // ------------------------------------------------------------ counts

  predicate AddsUp(c: Counters) {
    c.processed == c.changed + c.skipped + c.failed
  }

  /** In the users phase every processed row is counted once more, as changed, skipped or failed. */
  lemma {:induction false} UsersAddUp(s: Setup, db: Database, p: Progress, users: seq<User>)
    requires AddsUp(p.counters)
    ensures AddsUp(UsersFrom(s, db, p, users).counters)
    decreases |users|
  {
    hide UserFrom, UserRegions;
    if users != [] {
      match UserRegions(db, users[0])
      case None =>
        var c := p.counters;
        UsersAddUp(s, db, p.(counters := c.(processed := c.processed + 1, skipped := c.skipped + 1)), users[1..]);
      case Some(regions) => UsersAddUp(s, db, UserRow(s, p, users[0], regions), users[1..]);
    }
  }

  /** So the summary of the phase always adds up. */
  lemma UsersSummaryAddsUp(s: Setup, db: Database, w: World, failures: seq<Failure>)
    ensures AddsUp(UsersPhase(s, db, w, failures).counters)
  {
    hide UsersFrom;
    UsersAddUp(s, db, Progress(w, NONE_YET, failures), UsersInScope(s, db.users));
  }

  // ------------------------------------------------------------ the limit

  /** The users a run gets to before the limit stops it, having counted `done` rows already. */
  function Reached(s: Setup, db: Database, done: nat, users: seq<User>): seq<User>
    decreases |users|
  {
    if users == [] then []
    else if UserRegions(db, users[0]).Some? && s.limit.Some? && done + 1 >= s.limit.value then [users[0]]
    else [users[0]] + Reached(s, db, done + 1, users[1..])
  }

  /** The users phase counts exactly the users it reaches. */
  lemma {:induction false} CountsReached(s: Setup, db: Database, p: Progress, users: seq<User>)
    ensures
      UsersFrom(s, db, p, users).counters.processed == p.counters.processed + |Reached(s, db, p.counters.processed, users)|
    decreases |users|
  {
    hide UserFrom, UserRegions;
    if users != [] {
      match UserRegions(db, users[0])
      case None =>
        var c := p.counters;
        CountsReached(s, db, p.(counters := c.(processed := c.processed + 1, skipped := c.skipped + 1)), users[1..]);
      case Some(regions) => CountsReached(s, db, UserRow(s, p, users[0], regions), users[1..]);
    }
  }

  /** It stops at the first user, counting from the limit on, that is not skipped outright. */
  lemma {:induction false} StopsWhere(s: Setup, db: Database, done: nat, users: seq<User>)
    requires s.limit.Some?
    ensures
      var n := |Reached(s, db, done, users)|;
      && n <= |users| && Reached(s, db, done, users) == users[..n]
      && (n < |users| ==> n > 0 && done + n >= s.limit.value && UserRegions(db, users[n - 1]).Some?)
      && (forall i | 0 <= i < n - 1 && done + i + 1 >= s.limit.value :: UserRegions(db, users[i]).None?)
    decreases |users|
  {
    hide UserRegions;
    if users != [] && (UserRegions(db, users[0]).None? || done + 1 < s.limit.value) {
      StopsWhere(s, db, done + 1, users[1..]);
      var n := |Reached(s, db, done, users)|;
      assert users[..n] == [users[0]] + users[1..][..n - 1];
      forall i | 0 <= i < n - 1 && done + i + 1 >= s.limit.value
        ensures UserRegions(db, users[i]).None?
      {
        assert i > 0 ==> users[i] == users[1..][i - 1];
      }
    }
  }

  /**
   * The limit is not looked at after a skipped user. A users phase stays within its limit exactly if there
   * are no more users than that, or the one that reaches it is not skipped; a limit below one counts as one,
   * so any user at all passes it.
   */
  lemma LimitIsKeptExactly(s: Setup, db: Database, w: World, failures: seq<Failure>)
    requires s.limit.Some?
    ensures
      var users, limit := UsersInScope(s, db.users), if s.limit.value > 1 then s.limit.value else 1;
      && var processed := UsersPhase(s, db, w, failures).counters.processed;
      && (processed <= limit <==> |users| <= limit || UserRegions(db, users[limit - 1]).Some?)
      && (s.limit.value < 1 && users != [] ==> processed > s.limit.value)
  {
    hide UserRegions, UsersFrom, Reached, UsersInScope;
    var users := UsersInScope(s, db.users);
    CountsReached(s, db, Progress(w, NONE_YET, failures), users);
    StopsWhere(s, db, 0, users);
  }

  lemma {:induction false} TeamsCount(s: Setup, p: Progress, rows: seq<(Team, Region)>)
    ensures
      var left := if s.limit.None? then |rows|
                  else if s.limit.value <= p.counters.processed then 1
                  else s.limit.value - p.counters.processed;
      TeamsFrom(s, p, rows).counters.processed == p.counters.processed + if |rows| <= left then |rows| else left
    decreases |rows|
  {
    hide EnsureTeam;
    if rows != [] {
      TeamsCount(s, TeamRow(s, p, rows[0]), rows[1..]);
    }
  }

  /** The teams phase looks after every row: it processes as many rows as there are, but no more than the limit, or one. */
  lemma TeamsKeepTheLimit(s: Setup, db: Database, w: World, failures: seq<Failure>)
    ensures
      var rows, processed := TeamRows(db, TeamsInScope(s, db.teams)), TeamsPhase(s, db, w, failures).counters.processed;
      && (s.limit.None? ==> processed == |rows|)
      && (s.limit.Some? ==>
           var limit := if s.limit.value > 1 then s.limit.value else 1;
           processed == if |rows| <= limit then |rows| else limit)
  {
    hide TeamsFrom, TeamRows;
    TeamsCount(s, Progress(w, NONE_YET, failures), TeamRows(db, TeamsInScope(s, db.teams)));
  }

  /** The limit is not looked at after a skipped row, so a run can pass it: two trial users under a limit of one. */
  lemma LimitIsOvershot(s: Setup, w: World, first: User, second: User)
    requires s.limit == Some(1) && s.onlyUser == None
    requires first.active && second.active && IsTrialUser(first.email) && IsTrialUser(second.email)
    ensures UsersPhase(s, Database([], [], [], [first, second]), w, []).counters == Counters(2, 0, 2, 0)
  {
    var db := Database([], [], [], [first, second]);
    assert [first, second][1..] == [second] && [second][1..] == [];
    assert UsersInScope(s, [second]) == [second];
    assert UsersInScope(s, db.users) == [first] + [second] == [first, second];
    var p := Progress(w, NONE_YET, []);
    var p1 := p.(counters := Counters(1, 0, 1, 0));
    assert UsersFrom(s, db, p, [first, second]) == UsersFrom(s, db, p1, [second]);
    assert UsersFrom(s, db, p1, [second]) == UsersFrom(s, db, p1.(counters := Counters(2, 0, 2, 0)), []);
  }

  // ------------------------------------------------------------ a dry run writes nothing

  lemma {:induction false} DryUserWritesNothing(s: Setup, w: World, u: User, regions: seq<Region>, had: Row)
    requires s.dryRun
    ensures UserFrom(s, w, u, regions, had).0 == w
    decreases |regions|
  {
    if regions != [] {
      var (w1, row) := EnsureUser(s, w, u, regions[0]);
      DryUserWritesNothing(s, w, u, regions[1..], if row.Changed? then Changed else had);
    }
  }

  lemma {:induction false} DryUsersWriteNothing(s: Setup, db: Database, p: Progress, users: seq<User>)
    requires s.dryRun
    ensures UsersFrom(s, db, p, users).world == p.world
    decreases |users|
  {
    hide UserFrom, UserRegions;
    if users != [] {
      match UserRegions(db, users[0])
      case None =>
        var c := p.counters;
        DryUsersWriteNothing(s, db, p.(counters := c.(processed := c.processed + 1, skipped := c.skipped + 1)), users[1..]);
      case Some(regions) =>
        DryUserWritesNothing(s, p.world, users[0], regions, Unchanged);
        DryUsersWriteNothing(s, db, UserRow(s, p, users[0], regions), users[1..]);
    }
  }

  lemma {:induction false} DryTeamsWriteNothing(s: Setup, p: Progress, rows: seq<(Team, Region)>)
    requires s.dryRun
    ensures TeamsFrom(s, p, rows).world == p.world
    decreases |rows|
  {
    if rows != [] {
      DryTeamsWriteNothing(s, TeamRow(s, p, rows[0]), rows[1..]);
    }
  }

  /** Neither phase of a dry run changes a proxy. */
  lemma DryRunWritesNothing(s: Setup, db: Database, w: World, failures: seq<Failure>)
    requires s.dryRun
    ensures TeamsPhase(s, db, w, failures).world == w
    ensures UsersPhase(s, db, w, failures).world == w
  {
    DryTeamsWriteNothing(s, Progress(w, NONE_YET, failures), TeamRows(db, TeamsInScope(s, db.teams)));
    DryUsersWriteNothing(s, db, Progress(w, NONE_YET, failures), UsersInScope(s, db.users));
  }

  // ------------------------------------------------------------ what the phases leave alone

  predicate HasTeam(w: World, r: Id, lite: LiteId) {
    lite in w.At(r).teams
  }

  /** The two worlds look the same to this user, and hold the same teams. */
  ghost predicate AlikeFor(v: World, w: World, user: Id) {
    && MembersAlike(v, w, user)
    && forall r, lite :: HasTeam(v, r, lite) <==> HasTeam(w, r, lite)
  }

  ghost predicate MembersAlike(v: World, w: World, user: Id) {
    && (forall r :: user in v.At(r).users <==> user in w.At(r).users)
    && (forall r, lite :: user in v.Members(r, lite) <==> user in w.Members(r, lite))
  }

  lemma WriteFrame(w: World, call: Call, user: Id)
    requires call.NewUser? || call.AddMember?
    requires call.user != user
    ensures AlikeFor(w, w.Write(call), user)
  {
  }

  lemma EnsureUserFrame(s: Setup, w: World, u: User, region: Region, user: Id)
    requires user != u.id
    ensures AlikeFor(w, EnsureUser(s, w, u, region).0, user)
  {
    hide AlikeFor, Writable, FormatTeamId;
    AlikeSelf(w, user);
    var w1 := w.Write(NewUser(region.id, u.id));
    WriteFrame(w, NewUser(region.id, u.id), user);
    if u.team.Some? {
      var add := AddMember(region.id, FormatTeamId(region, u.team.value), u.id);
      WriteFrame(w, add, user);
      WriteFrame(w1, add, user);
      AlikeTwice(w, w1, w1.Write(add), user);
    }
  }

  lemma AlikeSelf(w: World, user: Id)
    ensures AlikeFor(w, w, user)
  {
  }

  lemma AlikeTwice(v: World, w: World, x: World, user: Id)
    requires AlikeFor(v, w, user) && AlikeFor(w, x, user)
    ensures AlikeFor(v, x, user)
  {
  }

  lemma {:induction false} UserFromFrame(s: Setup, w: World, u: User, regions: seq<Region>, had: Row, user: Id)
    requires user != u.id
    ensures AlikeFor(w, UserFrom(s, w, u, regions, had).0, user)
    decreases |regions|
  {
    hide EnsureUser;
    if regions != [] {
      var (w1, row) := EnsureUser(s, w, u, regions[0]);
      EnsureUserFrame(s, w, u, regions[0], user);
      UserFromFrame(s, w1, u, regions[1..], if row.Changed? then Changed else had, user);
    }
  }

  lemma {:induction false} UserFromKeepsTeams(s: Setup, w: World, u: User, regions: seq<Region>, had: Row)
    ensures forall r, lite :: HasTeam(w, r, lite) <==> HasTeam(UserFrom(s, w, u, regions, had).0, r, lite)
    decreases |regions|
  {
    UserFromFrame(s, w, u, regions, had, u.id + 1);
  }

  // ------------------------------------------------------------ prediction, teams

  predicate DistinctRows(rows: seq<(Team, Region)>) {
    forall i, j | 0 <= i < j < |rows| :: rows[i].0.id != rows[j].0.id || rows[i].1.id != rows[j].1.id
  }

  /** The rows' teams are present in both worlds or in neither. */
  ghost predicate RowsAlike(v: World, w: World, rows: seq<(Team, Region)>) {
    forall row | row in rows ::
      HasTeam(v, row.1.id, FormatTeamId(row.1, row.0.id)) <==> HasTeam(w, row.1.id, FormatTeamId(row.1, row.0.id))
  }

  lemma {:induction false} TeamsPredicted(s: Setup, p: Progress, q: Progress, rows: seq<(Team, Region)>)
    requires s.faults == {} && p.counters == q.counters
    requires DistinctRows(rows) && RowsAlike(p.world, q.world, rows)
    ensures TeamsFrom(s.(dryRun := true), p, rows).counters == TeamsFrom(s.(dryRun := false), q, rows).counters
    decreases |rows|
  {
    if rows != [] {
      var p1, q1 := TeamRow(s.(dryRun := true), p, rows[0]), TeamRow(s.(dryRun := false), q, rows[0]);
      TeamRowAlike(s, p, q, rows);
      TeamsPredicted(s, p1, q1, rows[1..]);
    }
  }

  lemma TeamRowAlike(s: Setup, p: Progress, q: Progress, rows: seq<(Team, Region)>)
    requires s.faults == {} && p.counters == q.counters && rows != []
    requires DistinctRows(rows) && RowsAlike(p.world, q.world, rows)
    ensures
      var p1, q1 := TeamRow(s.(dryRun := true), p, rows[0]), TeamRow(s.(dryRun := false), q, rows[0]);
      p1.counters == q1.counters && RowsAlike(p1.world, q1.world, rows[1..])
  {
    assert rows[0] in rows;
    var q1 := TeamRow(s.(dryRun := false), q, rows[0]);
    forall row | row in rows[1..]
      ensures
        HasTeam(q1.world, row.1.id, FormatTeamId(row.1, row.0.id)) <==> HasTeam(q.world, row.1.id, FormatTeamId(row.1, row.0.id))
    {
      var i :| 0 <= i < |rows| - 1 && rows[1..][i] == row;
      assert row == rows[i + 1];
    }
  }

  // ------------------------------------------------------------ prediction, users

  /** Each target region of the user's team has the team. */
  ghost predicate TeamsAt(w: World, u: User, regions: seq<Region>) {
    u.team.Some? ==> forall r | r in regions :: HasTeam(w, r.id, FormatTeamId(r, u.team.value))
  }

  /** In these regions the two worlds agree about the user and its membership. */
  ghost predicate AgreeOn(v: World, w: World, u: User, regions: seq<Region>) {
    forall r | r in regions ::
      && (u.id in v.At(r.id).users <==> u.id in w.At(r.id).users)
      && (u.team.Some? ==>
           (u.id in v.Members(r.id, FormatTeamId(r, u.team.value)) <==>
            u.id in w.Members(r.id, FormatTeamId(r, u.team.value))))
  }

  /** A real row ends as the dry row says, except that it fails where the team is missing. */
  lemma RowPredicted(s: Setup, v: World, w: World, u: User, region: Region)
    requires s.faults == {} && AgreeOn(v, w, u, [region])
    ensures
      var dry, live := EnsureUser(s.(dryRun := true), v, u, region).1, EnsureUser(s.(dryRun := false), w, u, region).1;
      && dry != Failed
      && (TeamsAt(w, u, [region]) ==> live == dry)
      && (u.team.Some? && !HasTeam(w, region.id, FormatTeamId(region, u.team.value)) ==> live == Failed)
  {
    assert region in [region];
    assert forall r | r in [region] :: r == region;
  }

  /** Other regions' proxies are not touched. */
  lemma OtherRegionsKept(s: Setup, w: World, u: User, region: Region, r: Id)
    requires r != region.id
    ensures EnsureUser(s, w, u, region).0.At(r) == w.At(r)
  {
  }

  lemma {:induction false} UserPredicted(s: Setup, v: World, w: World, u: User, regions: seq<Region>, had: Row)
    requires s.faults == {} && DistinctIds(regions) && AgreeOn(v, w, u, regions) && had != Failed
    ensures
      var dry, live := UserFrom(s.(dryRun := true), v, u, regions, had).1, UserFrom(s.(dryRun := false), w, u, regions, had).1;
      && dry != Failed
      && (if TeamsAt(w, u, regions) then live == dry else live == Failed)
    decreases |regions|
  {
    hide EnsureUser;
    if regions != [] {
      var region, rest := regions[0], regions[1..];
      var (v1, dry) := EnsureUser(s.(dryRun := true), v, u, region);
      var (w1, live) := EnsureUser(s.(dryRun := false), w, u, region);
      assert AgreeOn(v, w, u, [region]);
      RowPredicted(s, v, w, u, region);
      forall r | r in rest
        ensures v1.At(r.id) == v.At(r.id) && w1.At(r.id) == w.At(r.id) && r in regions
      {
        OtherRegionsKept(s.(dryRun := true), v, u, region, r.id);
        OtherRegionsKept(s.(dryRun := false), w, u, region, r.id);
      }
      assert AgreeOn(v1, w1, u, rest);
      UserPredicted(s, v1, w1, u, rest, if dry.Changed? then Changed else had);
      TeamsAtParts(w, u, regions);
      TeamsAtSame(w, w1, u, rest);
    }
  }

  lemma TeamsAtParts(w: World, u: User, regions: seq<Region>)
    requires regions != []
    ensures TeamsAt(w, u, regions) <==> TeamsAt(w, u, [regions[0]]) && TeamsAt(w, u, regions[1..])
    ensures TeamsAt(w, u, [regions[0]]) <==>
      (u.team.Some? ==> HasTeam(w, regions[0].id, FormatTeamId(regions[0], u.team.value)))
  {
    assert forall r :: r in regions <==> r in [regions[0]] || r in regions[1..];
  }

  lemma TeamsAtSame(v: World, w: World, u: User, regions: seq<Region>)
    requires forall r | r in regions :: v.At(r.id) == w.At(r.id)
    ensures TeamsAt(v, u, regions) <==> TeamsAt(w, u, regions)
  {
  }

  /** Every team a reached user belongs to is on each of its proxies. */
  ghost predicate AllTeamsAt(w: World, db: Database, users: seq<User>) {
    forall u | u in users && UserRegions(db, u).Some? :: TeamsAt(w, u, UserRegions(db, u).value)
  }

  ghost predicate AllAlike(v: World, w: World, users: seq<User>) {
    forall u | u in users :: MembersAlike(v, w, u.id)
  }

  lemma {:induction false} SharedDistinct(regions: seq<Region>)
    requires DistinctIds(regions)
    ensures DistinctIds(Shared(regions)) && forall r | r in Shared(regions) :: r in regions
  {
    if regions != [] {
      var rest := regions[..|regions| - 1];
      SharedDistinct(rest);
      assert forall r | r in rest :: r.id != regions[|regions| - 1].id;
    }
  }

  lemma UserRegionsDistinct(db: Database, u: User)
    requires Keyed(db) && UserRegions(db, u).Some?
    ensures DistinctIds(UserRegions(db, u).value)
  {
    hide IsTrialUser, TargetRegions, Shared, DistinctIds;
    if u.team.None? {
      assert DistinctIds(db.regions) by {
        KeyedRegions(db);
      }
      SharedDistinct(db.regions);
    } else {
      TargetsDistinct(db, FindTeam(db.teams, u.team.value).value.id);
    }
  }

  lemma KeyedRegions(db: Database)
    requires Keyed(db)
    ensures DistinctIds(db.regions)
  {
  }

  /** What the two runs look like after one user more: alike to the others, with the same teams as before. */
  lemma UserStep(s: Setup, db: Database, p: Progress, q: Progress, users: seq<User>)
    requires s.faults == {} && users != [] && Keyed(db) && DistinctUsers(users)
    requires AllAlike(p.world, q.world, users) && UserRegions(db, users[0]).Some?
    ensures
      var regions := UserRegions(db, users[0]).value;
      var dry := UserFrom(s.(dryRun := true), p.world, users[0], regions, Unchanged);
      var live := UserFrom(s.(dryRun := false), q.world, users[0], regions, Unchanged);
      && dry.1 != Failed
      && (if TeamsAt(q.world, users[0], regions) then live.1 == dry.1 else live.1 == Failed)
      && AllAlike(dry.0, live.0, users[1..])
      && forall later :: AllTeamsAt(live.0, db, later) <==> AllTeamsAt(q.world, db, later)
  {
    hide UserFrom, UserRegions;
    var u, regions := users[0], UserRegions(db, users[0]).value;
    var dry, live := s.(dryRun := true), s.(dryRun := false);
    UserRegionsDistinct(db, u);
    assert MembersAlike(p.world, q.world, u.id);
    assert AgreeOn(p.world, q.world, u, regions);
    UserPredicted(s, p.world, q.world, u, regions, Unchanged);
    forall other | other in users[1..]
      ensures MembersAlike(UserFrom(dry, p.world, u, regions, Unchanged).0, UserFrom(live, q.world, u, regions, Unchanged).0, other.id)
    {
      assert other in users && other.id != u.id;
      UserFromFrame(dry, p.world, u, regions, Unchanged, other.id);
      UserFromFrame(live, q.world, u, regions, Unchanged, other.id);
      assert MembersAlike(p.world, q.world, other.id);
    }
    UserFromKeepsTeams(live, q.world, u, regions, Unchanged);
  }

  lemma AllTeamsParts(w: World, db: Database, u: User, later: seq<User>)
    ensures
      AllTeamsAt(w, db, [u] + later) <==>
      (UserRegions(db, u).Some? ==> TeamsAt(w, u, UserRegions(db, u).value)) && AllTeamsAt(w, db, later)
  {
    hide UserRegions, TeamsAt;
    assert forall v :: v in [u] + later <==> v == u || v in later;
  }

  /** With every team in place, a dry run counts exactly what the real run will. */
  lemma {:induction false} UsersPredicted(s: Setup, db: Database, p: Progress, q: Progress, users: seq<User>)
    requires s.faults == {} && Keyed(db) && DistinctUsers(users) && AllAlike(p.world, q.world, users)
    requires p.counters == q.counters && AllTeamsAt(q.world, db, Reached(s, db, p.counters.processed, users))
    ensures
      UsersFrom(s.(dryRun := true), db, p, users).counters == UsersFrom(s.(dryRun := false), db, q, users).counters
    decreases |users|
  {
    hide UserRegions, UserFrom, AllTeamsAt, AllAlike, DistinctUsers, Keyed, TeamsAt;
    if users != [] {
      var c := p.counters;
      assert [users[0]] + [] == [users[0]];
      AllTeamsParts(q.world, db, users[0], []);
      AllTeamsParts(q.world, db, users[0], Reached(s, db, c.processed + 1, users[1..]));
      Tail(p.world, q.world, users);
      match UserRegions(db, users[0])
      case None =>
        var next := c.(processed := c.processed + 1, skipped := c.skipped + 1);
        UsersPredicted(s, db, p.(counters := next), q.(counters := next), users[1..]);
      case Some(regions) =>
        UserStep(s, db, p, q, users);
        var p1, q1 := UserRow(s.(dryRun := true), p, users[0], regions), UserRow(s.(dryRun := false), q, users[0], regions);
        if !LimitHit(s.limit, p1.counters) {
          UsersPredicted(s, db, p1, q1, users[1..]);
        }
    }
  }

  /** Where a team is missing, the real run fails rows that the dry run did not. */
  lemma {:induction false} UsersMispredicted(s: Setup, db: Database, p: Progress, q: Progress, users: seq<User>)
    requires s.faults == {} && Keyed(db) && DistinctUsers(users) && AllAlike(p.world, q.world, users)
    requires p.counters.processed == q.counters.processed && p.counters.failed <= q.counters.failed
    requires p.counters.failed < q.counters.failed ||
             !AllTeamsAt(q.world, db, Reached(s, db, p.counters.processed, users))
    ensures
      UsersFrom(s.(dryRun := true), db, p, users).counters.failed <
      UsersFrom(s.(dryRun := false), db, q, users).counters.failed
    decreases |users|
  {
    hide UserRegions, UserFrom, AllAlike, DistinctUsers, Keyed, TeamsAt;
    if users != [] {
      var c, d := p.counters, q.counters;
      assert [users[0]] + [] == [users[0]];
      AllTeamsParts(q.world, db, users[0], []);
      AllTeamsParts(q.world, db, users[0], Reached(s, db, c.processed + 1, users[1..]));
      Tail(p.world, q.world, users);
      hide AllTeamsAt;
      match UserRegions(db, users[0])
      case None =>
        UsersMispredicted(s, db, p.(counters := c.(processed := c.processed + 1, skipped := c.skipped + 1)),
                          q.(counters := d.(processed := d.processed + 1, skipped := d.skipped + 1)), users[1..]);
      case Some(regions) =>
        UserStep(s, db, p, q, users);
        var p1, q1 := UserRow(s.(dryRun := true), p, users[0], regions), UserRow(s.(dryRun := false), q, users[0], regions);
        if !LimitHit(s.limit, p1.counters) {
          UsersMispredicted(s, db, p1, q1, users[1..]);
        }
    }
  }

  lemma Tail(v: World, w: World, users: seq<User>)
    requires users != [] && DistinctUsers(users) && AllAlike(v, w, users)
    ensures DistinctUsers(users[1..]) && AllAlike(v, w, users[1..])
  {
  }

  /**
   * The users phase alone: over the same proxies, the dry run's counts are the real run's exactly if no
   * reached user's team is missing from one of its proxies.
   */
  lemma UsersPrediction(s: Setup, db: Database, w: World)
    requires s.faults == {} && Keyed(db)
    ensures
      UsersPhase(s.(dryRun := true), db, w, []).counters == UsersPhase(s.(dryRun := false), db, w, []).counters <==>
      AllTeamsAt(w, db, Reached(s, db, 0, UsersInScope(s, db.users)))
  {
    hide UsersFrom, AllTeamsAt, Reached;
    var users, p := UsersInScope(s, db.users), Progress(w, NONE_YET, []);
    InScope(s, db);
    if AllTeamsAt(w, db, Reached(s, db, 0, users)) {
      UsersPredicted(s, db, p, p, users);
    } else {
      UsersMispredicted(s, db, p, p, users);
    }
  }

  /** One user whose team is on no proxy: the dry run promises a membership that the real run cannot add. */
  lemma MissingTeamIsMispredicted(s: Setup)
    requires s.faults == {} && s.limit.None? && s.onlyUser.None?
    ensures
      var db := Database([Region(0, "eu", true, false)], [], [Team(0, true, false, false)], [User(0, None, true, Some(0))]);
      && Keyed(db)
      && UsersPhase(s.(dryRun := true), db, World(map[], []), []).counters == Counters(1, 1, 0, 0)
      && UsersPhase(s.(dryRun := false), db, World(map[], []), []).counters == Counters(1, 0, 0, 1)
  {
    var region, team, user := Region(0, "eu", true, false), Team(0, true, false, false), User(0, None, true, Some(0));
    var db, w := Database([region], [], [team], [user]), World(map[], []);
    OneTarget(db, region, 0);
    assert UserRegions(db, user) == Some([region]);
    OneUser(s.(dryRun := true), db, w, user, region);
    OneUser(s.(dryRun := false), db, w, user, region);
  }

  lemma OneTarget(db: Database, region: Region, team: Id)
    requires db.regions == [region] && region.active && !region.dedicated && db.associations == []
    ensures TargetRegions(db, team) == [region]
  {
    assert [region][..0] == [];
    assert Shared([region]) == [region];
    assert Dedupe([region]) == [region];
    assert [region] + Dedicated(db, [], team) == [region];
  }

  lemma OneUser(s: Setup, db: Database, w: World, user: User, region: Region)
    requires db.users == [user] && user.active && UserRegions(db, user) == Some([region])
    requires s.limit.None? && s.onlyUser.None?
    ensures
      UsersPhase(s, db, w, []).counters ==
      match EnsureUser(s, w, user, region).1
      case Changed => Counters(1, 1, 0, 0)
      case Unchanged => Counters(1, 0, 1, 0)
      case Failed => Counters(1, 0, 0, 1)
  {
    hide EnsureUser, UserRegions;
    assert [user][1..] == [] && [region][1..] == [];
    assert UsersInScope(s, [user]) == [user];
    var (w1, row) := EnsureUser(s, w, user, region);
    assert UserFrom(s, w, user, [region], Unchanged) == (w1, row);
    var p := Progress(w, NONE_YET, []);
    assert UsersFrom(s, db, p, [user]) == UsersFrom(s, db, UserRow(s, p, user, [region]), []);
  }

  lemma InScope(s: Setup, db: Database)
    requires Keyed(db)
    ensures DistinctUsers(UsersInScope(s, db.users))
    ensures UsersInScope(s.(dryRun := true), db.users) == UsersInScope(s, db.users)
    ensures UsersInScope(s.(dryRun := false), db.users) == UsersInScope(s, db.users)
    ensures TeamsInScope(s.(dryRun := true), db.teams) == TeamsInScope(s, db.teams)
    ensures TeamsInScope(s.(dryRun := false), db.teams) == TeamsInScope(s, db.teams)
  {
    ScopeKeepsIds(s, db.users);
    SameScope(s, s.(dryRun := true), db.users, db.teams);
    SameScope(s, s.(dryRun := false), db.users, db.teams);
  }

  lemma {:induction false} SameScope(s: Setup, t: Setup, users: seq<User>, teams: seq<Team>)
    requires s.onlyUser == t.onlyUser && s.onlyTeam == t.onlyTeam
    ensures UsersInScope(s, users) == UsersInScope(t, users) && TeamsInScope(s, teams) == TeamsInScope(t, teams)
    decreases |users| + |teams|
  {
    if users != [] {
      SameScope(s, t, users[1..], teams);
    } else if teams != [] {
      SameScope(s, t, users, teams[1..]);
    }
  }

  // ------------------------------------------------------------ both phases, as one run

  lemma {:induction false} RowsDistinct(db: Database, teams: seq<Team>)
    requires forall i, j | 0 <= i < j < |teams| :: teams[i].id != teams[j].id
    ensures DistinctRows(TeamRows(db, teams))
    ensures forall row | row in TeamRows(db, teams) :: row.0 in teams && row.1 in TargetRegions(db, row.0.id)
  {
    hide TargetRegions;
    if teams != [] {
      var regions, rest := TargetRegions(db, teams[0].id), TeamRows(db, teams[1..]);
      RowsDistinct(db, teams[1..]);
      TargetsDistinct(db, teams[0].id);
      assert forall row | row in rest :: row.0 in teams[1..] && row.0.id != teams[0].id;
    }
  }

  lemma {:induction false} TeamScopeDistinct(s: Setup, teams: seq<Team>)
    requires forall i, j | 0 <= i < j < |teams| :: teams[i].id != teams[j].id
    ensures
      var scope := TeamsInScope(s, teams);
      && (forall i, j | 0 <= i < j < |scope| :: scope[i].id != scope[j].id)
      && (forall t | t in scope :: t in teams)
  {
    if teams != [] {
      TeamScopeDistinct(s, teams[1..]);
      assert forall t | t in teams[1..] :: t.id != teams[0].id;
      assert forall t | t in TeamsInScope(s, teams[1..]) :: t.id != teams[0].id;
    }
  }

  ghost predicate TeamsWithin(v: World, w: World) {
    forall r, lite | HasTeam(v, r, lite) :: HasTeam(w, r, lite)
  }

  /** A new team has no members, so creating teams changes no membership; no team is ever removed. */
  lemma TeamRowFrame(s: Setup, p: Progress, row: (Team, Region))
    ensures TeamsWithin(p.world, TeamRow(s, p, row).world)
    ensures forall user :: MembersAlike(p.world, TeamRow(s, p, row).world, user)
  {
  }

  lemma {:induction false} TeamsFrame(s: Setup, p: Progress, rows: seq<(Team, Region)>)
    ensures TeamsWithin(p.world, TeamsFrom(s, p, rows).world)
    ensures forall user :: MembersAlike(p.world, TeamsFrom(s, p, rows).world, user)
    decreases |rows|
  {
    hide TeamRow, HasTeam;
    if rows != [] {
      TeamRowFrame(s, p, rows[0]);
      var p1 := TeamRow(s, p, rows[0]);
      TeamsFrame(s, p1, rows[1..]);
      forall user
        ensures MembersAlike(p.world, TeamsFrom(s, p, rows).world, user)
      {
        assert MembersAlike(p.world, p1.world, user) && MembersAlike(p1.world, TeamsFrom(s, p1, rows[1..]).world, user);
      }
    }
  }

  /** After a real run's row the team is there. */
  lemma RowLeavesTeam(s: Setup, p: Progress, row: (Team, Region))
    requires s.faults == {} && !s.dryRun
    ensures HasTeam(TeamRow(s, p, row).world, row.1.id, FormatTeamId(row.1, row.0.id))
  {
  }

  predicate Kept(v: World, w: World, r: Id, lite: LiteId)
    requires HasTeam(v, r, lite)
  {
    Get(w.At(r).teams, lite) == Some(v.At(r).teams[lite])
  }

  ghost predicate TeamsKept(v: World, w: World) {
    forall r, lite | HasTeam(v, r, lite) :: Kept(v, w, r, lite)
  }

  lemma RowKeepsTeams(s: Setup, p: Progress, row: (Team, Region))
    ensures TeamsKept(p.world, TeamRow(s, p, row).world)
  {
  }

  /** The teams phase never touches a team that is there already: its budget, duration and members stay. */
  lemma {:induction false} ExistingTeamsKept(s: Setup, p: Progress, rows: seq<(Team, Region)>)
    ensures TeamsKept(p.world, TeamsFrom(s, p, rows).world)
    decreases |rows|
  {
    hide TeamRow;
    if rows != [] {
      var q, after := TeamRow(s, p, rows[0]), TeamsFrom(s, p, rows).world;
      RowKeepsTeams(s, p, rows[0]);
      ExistingTeamsKept(s, q, rows[1..]);
      forall r, lite | HasTeam(p.world, r, lite)
        ensures Kept(p.world, after, r, lite)
      {
        assert Kept(p.world, q.world, r, lite) && HasTeam(q.world, r, lite);
        assert TeamsKept(q.world, after) ==> Kept(q.world, after, r, lite);
      }
    }
  }

  /** What a new team starts with: zero for the pool duration if it is gated, no budget if not; and no members. */
  function Bootstrap(s: Setup, team: Team): LiteTeam {
    if team.gated then LiteTeam(Some(0), Some(s.poolDuration), {}) else LiteTeam(None, None, {})
  }

  /** Whatever fails, each team that is there after these rows and was not before has its row's bootstrap budget. */
  ghost predicate Bootstrapped(s: Setup, v: World, w: World, rows: seq<(Team, Region)>) {
    forall r, lite | !HasTeam(v, r, lite) && HasTeam(w, r, lite) ::
      exists row | row in rows ::
        row.1.id == r && FormatTeamId(row.1, row.0.id) == lite && Get(w.At(r).teams, lite) == Some(Bootstrap(s, row.0))
  }

  lemma RowBootstraps(s: Setup, p: Progress, row: (Team, Region))
    ensures Bootstrapped(s, p.world, TeamRow(s, p, row).world, [row])
  {
    hide FormatTeamId;
    assert row in [row];
    var q := TeamRow(s, p, row);
    forall r, lite | !HasTeam(p.world, r, lite) && HasTeam(q.world, r, lite)
      ensures row.1.id == r && FormatTeamId(row.1, row.0.id) == lite && Get(q.world.At(r).teams, lite) == Some(Bootstrap(s, row.0))
    {
    }
  }

  lemma {:induction false} RowsBootstrap(s: Setup, p: Progress, rows: seq<(Team, Region)>)
    ensures Bootstrapped(s, p.world, TeamsFrom(s, p, rows).world, rows)
    decreases |rows|
  {
    hide TeamRow, FormatTeamId, HasTeam, Bootstrap;
    if rows != [] {
      var q, after := TeamRow(s, p, rows[0]), TeamsFrom(s, p, rows).world;
      RowBootstraps(s, p, rows[0]);
      RowsBootstrap(s, q, rows[1..]);
      ExistingTeamsKept(s, q, rows[1..]);
      forall r, lite | !HasTeam(p.world, r, lite) && HasTeam(after, r, lite)
        ensures exists row | row in rows ::
          row.1.id == r && FormatTeamId(row.1, row.0.id) == lite && Get(after.At(r).teams, lite) == Some(Bootstrap(s, row.0))
      {
        if HasTeam(q.world, r, lite) {
          assert Kept(q.world, after, r, lite);
          assert rows[0] in rows;
        } else {
          var row :| row in rows[1..] && row.1.id == r && FormatTeamId(row.1, row.0.id) == lite
                     && Get(after.At(r).teams, lite) == Some(Bootstrap(s, row.0));
          assert row in rows;
        }
      }
    }
  }

  /** The teams phase leaves nothing half made: every team that it adds has the bootstrap budget of a team in scope. */
  lemma BootstrapBudget(s: Setup, db: Database, w: World, failures: seq<Failure>)
    ensures Bootstrapped(s, w, TeamsPhase(s, db, w, failures).world, TeamRows(db, TeamsInScope(s, db.teams)))
  {
    hide TeamsFrom, TeamRows;
    RowsBootstrap(s, Progress(w, NONE_YET, failures), TeamRows(db, TeamsInScope(s, db.teams)));
  }

  lemma {:induction false} TeamsAllThere(s: Setup, p: Progress, rows: seq<(Team, Region)>)
    requires s.faults == {} && !s.dryRun && s.limit.None?
    ensures forall row | row in rows :: HasTeam(TeamsFrom(s, p, rows).world, row.1.id, FormatTeamId(row.1, row.0.id))
    decreases |rows|
  {
    hide TeamRow, HasTeam;
    if rows != [] {
      var p1 := TeamRow(s, p, rows[0]);
      RowLeavesTeam(s, p, rows[0]);
      TeamsAllThere(s, p1, rows[1..]);
      TeamsFrame(s, p1, rows[1..]);
    }
  }

  /**
   * Without failing calls a dry run of the teams phase counts what the real run counts, and so does the
   * users phase after it, although in the real run the teams are created in between, exactly if the real
   * teams phase leaves every team in place that a reached user belongs to.
   */
  lemma DryRunPredicts(s: Setup, db: Database, w: World)
    requires s.faults == {} && Keyed(db)
    ensures
      var dry, live := s.(dryRun := true), s.(dryRun := false);
      var created := TeamsPhase(live, db, w, []);
      && TeamsPhase(dry, db, w, []).counters == created.counters
      && (UsersPhase(dry, db, TeamsPhase(dry, db, w, []).world, []).counters ==
          UsersPhase(live, db, created.world, []).counters <==>
          AllTeamsAt(created.world, db, Reached(s, db, 0, UsersInScope(s, db.users))))
  {
    hide TeamsFrom, UsersFrom, AllTeamsAt, Reached, MembersAlike, TeamRows;
    var users, rows, p := UsersInScope(s, db.users), TeamRows(db, TeamsInScope(s, db.teams)), Progress(w, NONE_YET, []);
    var live := s.(dryRun := false);
    InScope(s, db);
    TeamScopeDistinct(s, db.teams);
    RowsDistinct(db, TeamsInScope(s, db.teams));
    TeamsPredicted(s, p, p, rows);
    DryRunWritesNothing(s.(dryRun := true), db, w, []);
    TeamsFrame(live, p, rows);
    var q := Progress(TeamsFrom(live, p, rows).world, NONE_YET, []);
    if AllTeamsAt(q.world, db, Reached(s, db, 0, users)) {
      UsersPredicted(s, db, p, q, users);
    } else {
      UsersMispredicted(s, db, p, q, users);
    }
  }

  /** A full run, with no limit and not scoped to one team, does leave every such team in place. */
  lemma FullRunHasAllTeams(s: Setup, db: Database, w: World, users: seq<User>)
    requires s.faults == {} && !s.dryRun && s.limit.None? && s.onlyTeam.None?
    ensures AllTeamsAt(TeamsPhase(s, db, w, []).world, db, users)
  {
    hide TeamsFrom, TargetRegions;
    var rows := TeamRows(db, TeamsInScope(s, db.teams));
    TeamsAllThere(s, Progress(w, NONE_YET, []), rows);
    forall u, r | u in users && UserRegions(db, u).Some? && u.team.Some? && r in UserRegions(db, u).value
      ensures HasTeam(TeamsPhase(s, db, w, []).world, r.id, FormatTeamId(r, u.team.value))
    {
      var team := FindTeam(db.teams, u.team.value).value;
      FoundTeam(db.teams, u.team.value);
      FoundInScope(s, db.teams, u.team.value);
      RowOfTeam(db, TeamsInScope(s, db.teams), team, r);
    }
  }

  lemma {:induction false} FoundInScope(s: Setup, teams: seq<Team>, id: Id)
    requires s.onlyTeam.None? && FindTeam(teams, id).Some?
    requires FindTeam(teams, id).value.active && !FindTeam(teams, id).value.deleted
    ensures FindTeam(teams, id).value in TeamsInScope(s, teams)
  {
    if teams[0].id != id {
      FoundInScope(s, teams[1..], id);
    }
  }

  lemma {:induction false} RowOfTeam(db: Database, teams: seq<Team>, team: Team, region: Region)
    requires team in teams && region in TargetRegions(db, team.id)
    ensures (team, region) in TeamRows(db, teams)
  {
    hide TargetRegions;
    var regions := TargetRegions(db, teams[0].id);
    if team == teams[0] {
      var i :| 0 <= i < |regions| && regions[i] == region;
      assert Paired(team, regions)[i] == (team, region);
    } else {
      RowOfTeam(db, teams[1..], team, region);
    }
  }

  // ------------------------------------------------------------ a second run

  /** A real run would leave this user alone here: it is there, and a member unless its team is missing. */
  predicate Rested(w: World, u: User, r: Region) {
    && u.id in w.At(r.id).users
    && (u.team.Some? ==>
         var lite := FormatTeamId(r, u.team.value);
         HasTeam(w, r.id, lite) ==> u.id in w.Members(r.id, lite))
  }

  predicate Stuck(w: World, u: User, r: Region) {
    u.team.Some? && !HasTeam(w, r.id, FormatTeamId(r, u.team.value))
  }

  /** A real run would change nothing for this user in these regions, up to the first that is stuck. */
  predicate Quiet(w: World, u: User, regions: seq<Region>) {
    regions == [] || (Rested(w, u, regions[0]) && (Stuck(w, u, regions[0]) || Quiet(w, u, regions[1..])))
  }

  lemma RowRests(s: Setup, w: World, u: User, r: Region)
    requires s.faults == {} && !s.dryRun
    ensures Rested(EnsureUser(s, w, u, r).0, u, r)
    ensures EnsureUser(s, w, u, r).1 == Failed ==> Stuck(EnsureUser(s, w, u, r).0, u, r)
  {
  }

  lemma RestedRow(s: Setup, w: World, u: User, r: Region)
    requires s.faults == {} && !s.dryRun && Rested(w, u, r)
    ensures EnsureUser(s, w, u, r) == (w, if Stuck(w, u, r) then Failed else Unchanged)
  {
  }

  lemma {:induction false} UserFromKeepsRegion(s: Setup, w: World, u: User, regions: seq<Region>, had: Row, r: Region)
    requires forall other | other in regions :: other.id != r.id
    ensures UserFrom(s, w, u, regions, had).0.At(r.id) == w.At(r.id)
    decreases |regions|
  {
    hide EnsureUser;
    if regions != [] {
      var (w1, row) := EnsureUser(s, w, u, regions[0]);
      OtherRegionsKept(s, w, u, regions[0], r.id);
      UserFromKeepsRegion(s, w1, u, regions[1..], if row.Changed? then Changed else had, r);
    }
  }

  lemma {:induction false} UserRests(s: Setup, w: World, u: User, regions: seq<Region>, had: Row)
    requires s.faults == {} && !s.dryRun && DistinctIds(regions)
    ensures Quiet(UserFrom(s, w, u, regions, had).0, u, regions)
    decreases |regions|
  {
    hide EnsureUser;
    if regions != [] {
      var (w1, row) := EnsureUser(s, w, u, regions[0]);
      var had1 := if row.Changed? then Changed else had;
      RowRests(s, w, u, regions[0]);
      UserRests(s, w1, u, regions[1..], had1);
      UserFromKeepsRegion(s, w1, u, regions[1..], had1, regions[0]);
    }
  }

  lemma {:induction false} QuietKept(v: World, w: World, u: User, regions: seq<Region>)
    requires AlikeFor(v, w, u.id) && Quiet(v, u, regions)
    ensures Quiet(w, u, regions)
  {
    if regions != [] && !Stuck(v, u, regions[0]) {
      QuietKept(v, w, u, regions[1..]);
    }
  }

  lemma {:induction false} QuietUserRuns(s: Setup, w: World, u: User, regions: seq<Region>)
    requires s.faults == {} && !s.dryRun && Quiet(w, u, regions)
    ensures UserFrom(s, w, u, regions, Unchanged).0 == w && UserFrom(s, w, u, regions, Unchanged).1 != Changed
  {
    hide EnsureUser;
    if regions != [] {
      RestedRow(s, w, u, regions[0]);
      if !Stuck(w, u, regions[0]) {
        QuietUserRuns(s, w, u, regions[1..]);
      }
    }
  }

  lemma {:induction false} UsersFrame(s: Setup, db: Database, p: Progress, users: seq<User>, user: Id)
    requires forall u | u in users :: u.id != user
    ensures AlikeFor(p.world, UsersFrom(s, db, p, users).world, user)
    decreases |users|
  {
    hide UserFrom, UserRegions, AlikeFor;
    AlikeSelf(p.world, user);
    if users != [] {
      match UserRegions(db, users[0])
      case None =>
        var c := p.counters;
        UsersFrame(s, db, p.(counters := c.(processed := c.processed + 1, skipped := c.skipped + 1)), users[1..], user);
      case Some(regions) =>
        var q := UserRow(s, p, users[0], regions);
        UserFromFrame(s, p.world, users[0], regions, Unchanged, user);
        UsersFrame(s, db, q, users[1..], user);
        AlikeTwice(p.world, q.world, UsersFrom(s, db, q, users[1..]).world, user);
    }
  }

  /** Running the users phase again from where it ended changes nothing and counts no change. */
  lemma {:induction false} UsersSettled(s: Setup, db: Database, p: Progress, again: Progress, users: seq<User>)
    requires s.faults == {} && !s.dryRun && Keyed(db) && DistinctUsers(users)
    requires p.counters.processed == again.counters.processed
    requires again.world == UsersFrom(s, db, p, users).world
    ensures UsersFrom(s, db, again, users).world == again.world
    ensures UsersFrom(s, db, again, users).counters.changed == again.counters.changed
    decreases |users|
  {
    hide UserFrom, UserRegions, AlikeFor, Quiet, Keyed;
    if users != [] {
      var u, c, d := users[0], p.counters, again.counters;
      assert DistinctUsers(users[1..]) && forall v | v in users[1..] :: v.id != u.id;
      match UserRegions(db, u)
      case None =>
        UsersSettled(s, db, p.(counters := c.(processed := c.processed + 1, skipped := c.skipped + 1)),
                     again.(counters := d.(processed := d.processed + 1, skipped := d.skipped + 1)), users[1..]);
      case Some(regions) =>
        var q := UserRow(s, p, u, regions);
        UserRegionsDistinct(db, u);
        UserRests(s, p.world, u, regions, Unchanged);
        AlikeSelf(q.world, u.id);
        UsersFrame(s, db, q, users[1..], u.id);
        QuietKept(q.world, again.world, u, regions);
        QuietUserRuns(s, again.world, u, regions);
        if !LimitHit(s.limit, q.counters) {
          UsersSettled(s, db, q, UserRow(s, again, u, regions), users[1..]);
        }
    }
  }

  lemma {:induction false} UsersKeepTeams(s: Setup, db: Database, p: Progress, users: seq<User>)
    ensures TeamsWithin(p.world, UsersFrom(s, db, p, users).world)
    decreases |users|
  {
    hide UserFrom, UserRegions, HasTeam;
    if users != [] {
      match UserRegions(db, users[0])
      case None =>
        var c := p.counters;
        UsersKeepTeams(s, db, p.(counters := c.(processed := c.processed + 1, skipped := c.skipped + 1)), users[1..]);
      case Some(regions) =>
        UserFromKeepsTeams(s, p.world, users[0], regions, Unchanged);
        UsersKeepTeams(s, db, UserRow(s, p, users[0], regions), users[1..]);
    }
  }

  lemma {:induction false} TeamsSettled(s: Setup, p: Progress, again: Progress, rows: seq<(Team, Region)>)
    requires s.faults == {} && !s.dryRun
    requires p.counters.processed == again.counters.processed
    requires TeamsWithin(TeamsFrom(s, p, rows).world, again.world)
    ensures TeamsFrom(s, again, rows).world == again.world
    ensures TeamsFrom(s, again, rows).counters.changed == again.counters.changed
    decreases |rows|
  {
    if rows != [] {
      var p1 := TeamRow(s, p, rows[0]);
      RowLeavesTeam(s, p, rows[0]);
      TeamsFrame(s, p1, rows[1..]);
      ExistingRow(s, again, rows[0]);
      if !LimitHit(s.limit, p1.counters) {
        TeamsSettled(s, p1, TeamRow(s, again, rows[0]), rows[1..]);
      }
    }
  }

  lemma ExistingRow(s: Setup, p: Progress, row: (Team, Region))
    requires s.faults == {} && HasTeam(p.world, row.1.id, FormatTeamId(row.1, row.0.id))
    ensures TeamRow(s, p, row) == p.(counters := p.counters.(processed := p.counters.processed + 1))
  {
  }

  /**
   * Without failing calls, a second real run, whatever its limit and scope, writes nothing and reports no
   * change in either phase.
   */
  lemma SecondRunIsIdle(s: Setup, db: Database, w: World)
    requires s.faults == {} && !s.dryRun && Keyed(db)
    ensures
      var done := UsersPhase(s, db, TeamsPhase(s, db, w, []).world, []).world;
      var teams, users := TeamsPhase(s, db, done, []), UsersPhase(s, db, TeamsPhase(s, db, done, []).world, []);
      && teams.world == done && teams.counters.changed == 0
      && users.world == done && users.counters.changed == 0
  {
    hide TeamsFrom, UsersFrom, TeamRows, TeamsWithin;
    var rows, users := TeamRows(db, TeamsInScope(s, db.teams)), UsersInScope(s, db.users);
    var p := Progress(w, NONE_YET, []);
    var q := Progress(TeamsFrom(s, p, rows).world, NONE_YET, []);
    var done := UsersFrom(s, db, q, users).world;
    InScope(s, db);
    UsersKeepTeams(s, db, q, users);
    TeamsSettled(s, p, Progress(done, NONE_YET, []), rows);
    UsersSettled(s, db, q, Progress(done, NONE_YET, []), users);
  }
}
