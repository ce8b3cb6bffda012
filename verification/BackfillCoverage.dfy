/**
 * Where a backfill works, read off the tables: which regions a team or user belongs in, that a full run gets
 * everyone there, and that no run puts anyone anywhere else.
 */
module BackfillCoverage {
  import opened Common
  import opened Backfill
  import opened BackfillRunner
  import opened BackfillTheorems

  // ------------------------------------------------------------ who belongs where

  /** An active region that every team uses, or one dedicated to this team. */
  predicate Serves(db: Database, r: Region, team: Id) {
    r in db.regions && r.active && (!r.dedicated || (team, r.id) in db.associations)
  }

  predicate InService(db: Database, t: Team) {
    t in db.teams && t.active && !t.deleted
  }

  /** An address of the trial sign-up, in any case. */
  predicate Trial(u: User) {
    && u.email.Some? && 12 <= |u.email.value|
    && Spells(u.email.value[..6], "trial-") && Spells(u.email.value[|u.email.value| - 12..], "@example.com")
  }

  /** The user belongs on the region's proxy: through its team, or without one on every shared region. */
  predicate BelongsIn(db: Database, u: User, r: Region) {
    && u in db.users && u.active && !Trial(u)
    && if u.team.Some? then Serves(db, r, u.team.value) && exists t | t in db.teams :: t.id == u.team.value && InService(db, t)
       else r in db.regions && r.active && !r.dedicated
  }

  /** The team's id on the region's proxy: the region's name, with underscores for spaces, and the team's id. */
  predicate IsLiteId(lite: LiteId, r: Region, team: Id) {
    && lite.team == team && |lite.region| == |r.name|
    && forall i | 0 <= i < |r.name| :: lite.region[i] == if r.name[i] == ' ' then '_' else r.name[i]
  }

  lemma FormattedIsLiteId(lite: LiteId, r: Region, team: Id)
    ensures lite == FormatTeamId(r, team) <==> IsLiteId(lite, r, team)
  {
    if IsLiteId(lite, r, team) {
      assert lite.region == Underscored(r.name);
    }
  }

  // ------------------------------------------------------------ target regions

  lemma {:induction false} SharedExactly(regions: seq<Region>, r: Region)
    ensures r in Shared(regions) <==> r in regions && r.active && !r.dedicated
  {
    if regions != [] {
      SharedExactly(regions[..|regions| - 1], r);
    }
  }

  lemma {:induction false} DedicatedRegionExactly(regions: seq<Region>, id: Id, r: Region)
    requires DistinctIds(regions)
    ensures r in DedicatedRegion(regions, id) <==> r in regions && r.id == id && r.active && r.dedicated
  {
    if regions != [] {
      assert DistinctIds(regions[1..]) && forall q | q in regions[1..] :: q.id != regions[0].id;
      DedicatedRegionExactly(regions[1..], id, r);
    }
  }

  lemma {:induction false} DedicatedExactly(db: Database, rows: seq<(Id, Id)>, team: Id, r: Region)
    requires DistinctIds(db.regions)
    ensures r in Dedicated(db, rows, team) <==> r in db.regions && r.active && r.dedicated && (team, r.id) in rows
    decreases |rows|
  {
    if rows != [] {
      var rest, last := rows[..|rows| - 1], rows[|rows| - 1];
      DedicatedExactly(db, rest, team, r);
      DedicatedRegionExactly(db.regions, last.1, r);
      assert rows == rest + [last];
    }
  }

  /** The regions a run works through for a team are exactly those that serve it. */
  lemma TargetsExactly(db: Database, team: Id, r: Region)
    requires Keyed(db)
    ensures r in TargetRegions(db, team) <==> Serves(db, r, team)
  {
    KeyedRegions(db);
    var all := Shared(db.regions) + Dedicated(db, db.associations, team);
    SharedExactly(db.regions, r);
    DedicatedExactly(db, db.associations, team, r);
    DedupeDistinct(all);
    if r in all {
      DedupeCovers(all, r);
      var d :| d in Dedupe(all) && d.id == r.id;
      SharedExactly(db.regions, d);
      DedicatedExactly(db, db.associations, team, d);
      assert d == r;
    }
  }

  lemma TrialExactly(u: User)
    ensures IsTrialUser(u.email) <==> Trial(u)
  {
    var text := u.email.GetOr("");
    if |text| >= 12 {
      PrefixSpelled(text, "trial-");
      SuffixSpelled(text, "@example.com");
    }
    hide Spells;
    assert |Lower(text)| == |text|;
  }

  lemma PrefixSpelled(text: string, word: string)
    requires |word| <= |text| && forall c :: c in word ==> !('A' <= c <= 'Z')
    ensures word <= Lower(text) <==> Spells(text[..|word|], word)
  {
    SpelledSlice(text, 0, word);
    assert text[0..|word|] == text[..|word|];
    hide Spells;
    assert word <= Lower(text) <==> Lower(text)[0..|word|] == word;
  }

  lemma SuffixSpelled(text: string, word: string)
    requires |word| <= |text| && forall c :: c in word ==> !('A' <= c <= 'Z')
    ensures EndsWith(Lower(text), word) <==> Spells(text[|text| - |word|..], word)
  {
    SpelledSlice(text, |text| - |word|, word);
    assert text[|text| - |word|..|text|] == text[|text| - |word|..];
    hide Spells;
    assert Lower(text)[|text| - |word|..|text|] == Lower(text)[|text| - |word|..];
  }

  lemma SpelledSlice(text: string, i: nat, word: string)
    requires i + |word| <= |text|
    requires forall c :: c in word ==> !('A' <= c <= 'Z')
    ensures Lower(text)[i..i + |word|] == word <==> Spells(text[i..i + |word|], word)
  {
    var part, lowered := text[i..i + |word|], Lower(text)[i..i + |word|];
    forall j | 0 <= j < |word|
      ensures lowered[j] == LowerChar(part[j]) && word[j] in word
    {
      assert part[j] == text[i + j];
    }
  }

  lemma {:induction false} FoundExactly(teams: seq<Team>, id: Id)
    ensures match FindTeam(teams, id)
            case Some(t) => t in teams && t.id == id
            case None => forall t | t in teams :: t.id != id
  {
    if teams != [] {
      FoundExactly(teams[1..], id);
    }
  }

  /** The regions a run works through for a user are exactly those it belongs in. */
  lemma UserRegionsExactly(db: Database, u: User, r: Region)
    requires Keyed(db) && u in db.users && u.active
    ensures UserRegions(db, u).Some? && r in UserRegions(db, u).value <==> BelongsIn(db, u, r)
  {
    hide TargetRegions, Shared, IsTrialUser, Trial, FindTeam;
    TrialExactly(u);
    if u.team.Some? {
      FoundExactly(db.teams, u.team.value);
      TargetsExactly(db, u.team.value, r);
      if t :| t in db.teams && t.id == u.team.value && InService(db, t) {
        SameTeam(db, t, FindTeam(db.teams, u.team.value).value);
      }
    } else {
      SharedExactly(db.regions, r);
    }
  }

  /** A user is skipped outright exactly if it is on trial or its team is gone or out of service. */
  lemma SkippedExactly(db: Database, u: User)
    requires Keyed(db)
    ensures UserRegions(db, u).None? <==>
      Trial(u) || (u.team.Some? && !exists t | t in db.teams :: t.id == u.team.value && InService(db, t))
  {
    hide TargetRegions, Shared, IsTrialUser, Trial, FindTeam;
    TrialExactly(u);
    if u.team.Some? {
      FoundExactly(db.teams, u.team.value);
      if t :| t in db.teams && t.id == u.team.value && InService(db, t) {
        SameTeam(db, t, FindTeam(db.teams, u.team.value).value);
      }
    }
  }

  lemma SameTeam(db: Database, a: Team, b: Team)
    requires Keyed(db) && a in db.teams && b in db.teams && a.id == b.id
    ensures a == b
  {
  }

  // ------------------------------------------------------------ a full run reaches everyone

  lemma {:induction false} InUsersScope(s: Setup, users: seq<User>, u: User)
    ensures u in UsersInScope(s, users) <==> u in users && u.active && (s.onlyUser.None? || s.onlyUser == Some(u.id))
  {
    if users != [] {
      InUsersScope(s, users[1..], u);
    }
  }

  lemma {:induction false} InTeamsScope(s: Setup, teams: seq<Team>, t: Team)
    ensures t in TeamsInScope(s, teams) <==>
      t in teams && t.active && !t.deleted && (s.onlyTeam.None? || s.onlyTeam == Some(t.id))
  {
    if teams != [] {
      InTeamsScope(s, teams[1..], t);
    }
  }

  /** Without a limit and without failing calls, every reached user ends as a further run would leave it. */
  lemma {:induction false} UsersEndQuiet(s: Setup, db: Database, p: Progress, users: seq<User>, u: User)
    requires s.faults == {} && !s.dryRun && s.limit.None? && Keyed(db) && DistinctUsers(users)
    requires u in users && UserRegions(db, u).Some?
    ensures Quiet(UsersFrom(s, db, p, users).world, u, UserRegions(db, u).value)
    decreases |users|
  {
    hide UserFrom, UserRegions, AlikeFor, Quiet, Keyed;
    var first, c := users[0], p.counters;
    assert DistinctUsers(users[1..]) && forall v | v in users[1..] :: v.id != first.id;
    match UserRegions(db, first)
    case None =>
      UsersEndQuiet(s, db, p.(counters := c.(processed := c.processed + 1, skipped := c.skipped + 1)), users[1..], u);
    case Some(regions) =>
      var q := UserRow(s, p, first, regions);
      if u == first {
        UserRegionsDistinct(db, u);
        UserRests(s, p.world, u, regions, Unchanged);
        UsersFrame(s, db, q, users[1..], u.id);
        QuietKept(q.world, UsersFrom(s, db, q, users[1..]).world, u, regions);
      } else {
        UsersEndQuiet(s, db, q, users[1..], u);
      }
  }

  /** Where all its teams are in place, a user at rest is everywhere it should be. */
  lemma {:induction false} QuietIsPresent(w: World, u: User, regions: seq<Region>, r: Region)
    requires Quiet(w, u, regions) && TeamsAt(w, u, regions) && r in regions
    ensures u.id in w.At(r.id).users
    ensures u.team.Some? ==> u.id in w.Members(r.id, FormatTeamId(r, u.team.value))
    decreases |regions|
  {
    assert regions[0] in regions;
    if r != regions[0] {
      assert r in regions[1..] && forall q | q in regions[1..] :: q in regions;
      QuietIsPresent(w, u, regions[1..], r);
    }
  }

  /**
   * After a real run over everything, without a limit and without failing calls, every team in service is on
   * the proxy of every region that serves it; and every active user but those of trials is on the proxy of
   * every region it belongs in, and a member of its team there.
   */
  lemma FullRunCovers(s: Setup, db: Database, w: World, t: Team, u: User, r: Region, lite: LiteId)
    requires s.faults == {} && !s.dryRun && s.limit.None? && s.onlyTeam.None? && s.onlyUser.None? && Keyed(db)
    ensures
      var done := UsersPhase(s, db, TeamsPhase(s, db, w, []).world, []).world;
      && (InService(db, t) && Serves(db, r, t.id) && IsLiteId(lite, r, t.id) ==> lite in done.At(r.id).teams)
      && (BelongsIn(db, u, r) ==>
           && u.id in done.At(r.id).users
           && (u.team.Some? && IsLiteId(lite, r, u.team.value) ==>
                lite in done.At(r.id).teams && u.id in done.At(r.id).teams[lite].members))
  {
    hide UsersFrom, TeamsFrom, TargetRegions, UserRegions, Quiet, TeamsAt, Serves, BelongsIn, IsLiteId, Keyed, TeamRows;
    var created := TeamsPhase(s, db, w, []).world;
    var rows, users := TeamRows(db, TeamsInScope(s, db.teams)), UsersInScope(s, db.users);
    var done := UsersPhase(s, db, created, []).world;
    UsersKeepTeams(s, db, Progress(created, NONE_YET, []), users);
    FormattedIsLiteId(lite, r, t.id);
    if InService(db, t) && Serves(db, r, t.id) && IsLiteId(lite, r, t.id) {
      TeamsAllThere(s, Progress(w, NONE_YET, []), rows);
      TargetsExactly(db, t.id, r);
      InTeamsScope(s, db.teams, t);
      RowOfTeam(db, TeamsInScope(s, db.teams), t, r);
      assert HasTeam(created, r.id, lite) && HasTeam(done, r.id, lite);
    }
    if BelongsIn(db, u, r) {
      UserCovered(s, db, w, u, r);
      if u.team.Some? {
        FormattedIsLiteId(lite, r, u.team.value);
      }
    }
  }

  lemma UserCovered(s: Setup, db: Database, w: World, u: User, r: Region)
    requires s.faults == {} && !s.dryRun && s.limit.None? && s.onlyTeam.None? && s.onlyUser.None? && Keyed(db)
    requires BelongsIn(db, u, r)
    ensures
      var done := UsersPhase(s, db, TeamsPhase(s, db, w, []).world, []).world;
      && u.id in done.At(r.id).users
      && (u.team.Some? ==>
           var lite := FormatTeamId(r, u.team.value);
           lite in done.At(r.id).teams && u.id in done.At(r.id).teams[lite].members)
  {
    hide UsersFrom, TeamsFrom, TargetRegions, UserRegions, Quiet, Serves, Keyed, TeamRows, FormatTeamId;
    var created := TeamsPhase(s, db, w, []).world;
    var users := UsersInScope(s, db.users);
    var p := Progress(created, NONE_YET, []);
    var done := UsersFrom(s, db, p, users).world;
    UserRegionsExactly(db, u, r);
    var regions := UserRegions(db, u).value;
    InUsersScope(s, db.users, u);
    InScope(s, db);
    UsersEndQuiet(s, db, p, users, u);
    FullRunHasAllTeams(s, db, w, users);
    UsersKeepTeams(s, db, p, users);
    assert TeamsAt(created, u, regions);
    assert TeamsAt(done, u, regions);
    QuietIsPresent(done, u, regions, r);
  }

  // ------------------------------------------------------------ and no run puts anyone anywhere else

  /** Whoever is on a proxy or a roster of the second world and not of the first belongs there. */
  ghost predicate UsersJustified(db: Database, v: World, w: World) {
    && (forall region, user | user in w.At(region).users && user !in v.At(region).users ::
         exists u, r :: BelongsIn(db, u, r) && u.id == user && r.id == region)
    && (forall region, lite, user | user in w.Members(region, lite) && user !in v.Members(region, lite) ::
         exists u, r :: BelongsIn(db, u, r) && u.id == user && r.id == region && u.team.Some? && IsLiteId(lite, r, u.team.value))
  }

  lemma JustifiedTwice(db: Database, v: World, w: World, x: World)
    requires UsersJustified(db, v, w) && UsersJustified(db, w, x)
    ensures UsersJustified(db, v, x)
  {
    hide BelongsIn, IsLiteId;
  }

  lemma JustifiedSelf(db: Database, w: World)
    ensures UsersJustified(db, w, w)
  {
    hide BelongsIn, IsLiteId;
  }

  lemma UserWritesJustified(db: Database, w: World, u: User, r: Region)
    requires BelongsIn(db, u, r)
    ensures UsersJustified(db, w, w.Write(NewUser(r.id, u.id)))
    ensures u.team.Some? ==> UsersJustified(db, w, w.Write(AddMember(r.id, FormatTeamId(r, u.team.value), u.id)))
  {
    if u.team.Some? {
      FormattedIsLiteId(FormatTeamId(r, u.team.value), r, u.team.value);
    }
    hide BelongsIn, IsLiteId, FormatTeamId;
  }

  lemma EnsureUserJustified(s: Setup, db: Database, w: World, u: User, r: Region)
    requires BelongsIn(db, u, r)
    ensures UsersJustified(db, w, EnsureUser(s, w, u, r).0)
  {
    hide BelongsIn, UsersJustified, FormatTeamId, Writable;
    var w1 := w.Write(NewUser(r.id, u.id));
    JustifiedSelf(db, w);
    UserWritesJustified(db, w, u, r);
    UserWritesJustified(db, w1, u, r);
    if u.team.Some? {
      JustifiedTwice(db, w, w1, w1.Write(AddMember(r.id, FormatTeamId(r, u.team.value), u.id)));
    }
  }

  lemma {:induction false} UserJustified(s: Setup, db: Database, w: World, u: User, regions: seq<Region>, had: Row)
    requires forall r | r in regions :: BelongsIn(db, u, r)
    ensures UsersJustified(db, w, UserFrom(s, w, u, regions, had).0)
    decreases |regions|
  {
    hide BelongsIn, UsersJustified, EnsureUser;
    JustifiedSelf(db, w);
    if regions != [] {
      var (w1, row) := EnsureUser(s, w, u, regions[0]);
      var had1 := if row.Changed? then Changed else had;
      assert regions[0] in regions;
      EnsureUserJustified(s, db, w, u, regions[0]);
      UserJustified(s, db, w1, u, regions[1..], had1);
      JustifiedTwice(db, w, w1, UserFrom(s, w1, u, regions[1..], had1).0);
    }
  }

  lemma {:induction false} UsersFromJustified(s: Setup, db: Database, p: Progress, users: seq<User>)
    requires Keyed(db) && forall u | u in users :: u in db.users && u.active
    ensures UsersJustified(db, p.world, UsersFrom(s, db, p, users).world)
    decreases |users|
  {
    hide BelongsIn, UsersJustified, UserFrom, UserRegions, Keyed;
    JustifiedSelf(db, p.world);
    if users != [] {
      assert users[0] in users;
      match UserRegions(db, users[0])
      case None =>
        var c := p.counters;
        UsersFromJustified(s, db, p.(counters := c.(processed := c.processed + 1, skipped := c.skipped + 1)), users[1..]);
      case Some(regions) =>
        var q := UserRow(s, p, users[0], regions);
        forall r | r in regions
          ensures BelongsIn(db, users[0], r)
        {
          UserRegionsExactly(db, users[0], r);
        }
        UserJustified(s, db, p.world, users[0], regions, Unchanged);
        UsersFromJustified(s, db, q, users[1..]);
        JustifiedTwice(db, p.world, q.world, UsersFrom(s, db, q, users[1..]).world);
    }
  }

  /**
   * Whatever fails, however the run is limited or scoped, dry or not: a team is only created on the proxy of a
   * region that serves it, while it is in service and in scope; and a user is only created, or added to a
   * team, where it belongs.
   */
  lemma NothingElsewhere(s: Setup, db: Database, w: World, failures: seq<Failure>)
    requires Keyed(db)
    ensures
      var created := TeamsPhase(s, db, w, failures).world;
      && (forall region, lite | lite in created.At(region).teams && lite !in w.At(region).teams ::
           exists t, r ::
             && InService(db, t) && Serves(db, r, t.id) && r.id == region && IsLiteId(lite, r, t.id)
             && (s.onlyTeam.None? || s.onlyTeam == Some(t.id)))
      && UsersJustified(db, w, created)
      && UsersJustified(db, w, UsersPhase(s, db, w, failures).world)
  {
    hide TeamsFrom, UsersFrom, TargetRegions, TeamRows, Serves, IsLiteId, FormatTeamId, Bootstrap, BelongsIn;
    var rows := TeamRows(db, TeamsInScope(s, db.teams));
    var created := TeamsPhase(s, db, w, failures).world;
    BootstrapBudget(s, db, w, failures);
    TeamScopeDistinct(s, db.teams);
    RowsDistinct(db, TeamsInScope(s, db.teams));
    forall region, lite | lite in created.At(region).teams && lite !in w.At(region).teams
      ensures exists t, r ::
        && InService(db, t) && Serves(db, r, t.id) && r.id == region && IsLiteId(lite, r, t.id)
        && (s.onlyTeam.None? || s.onlyTeam == Some(t.id))
    {
      assert !HasTeam(w, region, lite) && HasTeam(created, region, lite);
      var row :| row in rows && row.1.id == region && FormatTeamId(row.1, row.0.id) == lite;
      TargetsExactly(db, row.0.id, row.1);
      InTeamsScope(s, db.teams, row.0);
      FormattedIsLiteId(lite, row.1, row.0.id);
    }
    TeamsFrame(s, Progress(w, NONE_YET, failures), rows);
    NoUserAdded(db, w, created);
    forall u | u in UsersInScope(s, db.users)
      ensures u in db.users && u.active
    {
      InUsersScope(s, db.users, u);
    }
    UsersFromJustified(s, db, Progress(w, NONE_YET, failures), UsersInScope(s, db.users));
  }

  lemma NoUserAdded(db: Database, v: World, w: World)
    requires forall user :: MembersAlike(v, w, user)
    ensures UsersJustified(db, v, w)
  {
    hide BelongsIn, IsLiteId;
    forall region, user | user in w.At(region).users
      ensures user in v.At(region).users
    {
      assert MembersAlike(v, w, user);
    }
    forall region, lite, user | user in w.Members(region, lite)
      ensures user in v.Members(region, lite)
    {
      assert MembersAlike(v, w, user);
    }
  }

  // ------------------------------------------------------------ what the counts mean

  lemma EnsureUserCounts(s: Setup, w: World, u: User, region: Region)
    requires !s.dryRun
    ensures
      var (w1, row) := EnsureUser(s, w, u, region);
      |w.writes| <= |w1.writes| && (row != Failed ==> (row == Changed <==> |w.writes| < |w1.writes|))
  {
    hide FormatTeamId;
  }

  lemma {:induction false} UserFromCounts(s: Setup, w: World, u: User, regions: seq<Region>, had: Row)
    requires !s.dryRun && had != Failed
    ensures
      var (w1, row) := UserFrom(s, w, u, regions, had);
      |w.writes| <= |w1.writes| && (row != Failed ==> (row == Changed <==> had == Changed || |w.writes| < |w1.writes|))
    decreases |regions|
  {
    hide EnsureUser;
    if regions != [] {
      var (w1, row) := EnsureUser(s, w, u, regions[0]);
      EnsureUserCounts(s, w, u, regions[0]);
      if row != Failed {
        UserFromCounts(s, w1, u, regions[1..], if row.Changed? then Changed else had);
      }
    }
  }

  /** A real run counts a team's row as changed exactly if it wrote to the proxy, and as failed exactly if it reports it. */
  lemma TeamRowCounts(s: Setup, p: Progress, row: (Team, Region))
    requires !s.dryRun
    ensures
      var q := TeamRow(s, p, row);
      && q.counters.processed == p.counters.processed + 1 && q.counters.skipped == p.counters.skipped
      && q.counters.changed == p.counters.changed + (if |q.world.writes| > |p.world.writes| then 1 else 0)
      && q.counters.failed == p.counters.failed + (if q.failures != p.failures then 1 else 0)
      && (q.failures == p.failures || q.failures == p.failures + [TeamFailure(row.0.id, row.1.id)])
  {
    hide FormatTeamId;
  }

  /** A user's row is failed exactly if it is reported, or else changed exactly if it wrote, or else skipped. */
  lemma UserRowCounts(s: Setup, p: Progress, u: User, regions: seq<Region>)
    requires !s.dryRun
    ensures
      var q := UserRow(s, p, u, regions);
      var failed, wrote := q.failures != p.failures, |q.world.writes| > |p.world.writes|;
      && q.counters.processed == p.counters.processed + 1
      && q.counters.failed == p.counters.failed + (if failed then 1 else 0)
      && q.counters.changed == p.counters.changed + (if !failed && wrote then 1 else 0)
      && q.counters.skipped == p.counters.skipped + (if !failed && !wrote then 1 else 0)
      && (q.failures == p.failures || q.failures == p.failures + [UserFailure(u.id)])
  {
    UserFromCounts(s, p.world, u, regions, Unchanged);
    hide UserFrom;
  }
}
