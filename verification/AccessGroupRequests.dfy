/**
 * The access-group requests as the endpoints carry them out: they look rows up one by one, collect what is
 * affected while they edit, write the tables, and only then mark deployments and queue pushes.
 */
module AccessGroupRequests {
  import opened Common
  import opened AccessGroups

  // The state of the loop that marks deployments: which rows it has written and queued so far.

  function SyncsOf(rows: set<(Id, Id)>): set<Task> {
    set d | d in rows :: SyncModel(d.0, d.1)
  }

  function PendingAt(deployments: map<(Id, Id), Deployment>, rows: set<(Id, Id)>): map<(Id, Id), Deployment> {
    map d | d in deployments :: if d in rows then deployments[d].(status := Pending) else deployments[d]
  }

  lemma RowsStart(deployments: map<(Id, Id), Deployment>)
    ensures PendingAt(deployments, {}) == deployments && SyncsOf({}) == {}
  {
  }

  lemma RowTurn(deployments: map<(Id, Id), Deployment>, rows: set<(Id, Id)>, d: (Id, Id))
    requires d in deployments && d !in rows
    ensures
      var now := PendingAt(deployments, rows);
      PendingAt(deployments, rows + {d}) == now[d := now[d].(status := Pending)]
    ensures multiset(SyncsOf(rows + {d})) == multiset(SyncsOf(rows)) + multiset{SyncModel(d.0, d.1)}
  {
    assert SyncsOf(rows + {d}) == SyncsOf(rows) + {SyncModel(d.0, d.1)};
  }

  lemma RowsEnd(s: Store, ids: set<Id>, rows: set<(Id, Id)>)
    requires rows == set d | d in s.deployments && d.0 in ids && Pushable(s, d)
    ensures Marked(s, ids) == s.(deployments := PendingAt(s.deployments, rows))
    ensures SyncsOf(rows) == ModelTasks(s, ids)
  {
    assert Marked(s, ids).deployments == PendingAt(s.deployments, rows);
  }

  /** One team more, in the tasks of the teams done so far. */
  lemma TeamTurn(s: Store, ids: set<Id>, t: Id)
    requires t !in ids
    ensures t !in s.teams ==> TeamTasks(s, ids + {t}) == TeamTasks(s, ids)
    ensures t in s.teams ==>
      multiset(TeamTasks(s, ids + {t})) ==
      multiset(TeamTasks(s, ids)) +
      multiset(set r | r in TeamRegions(s, t) && Enforced(s, r) :: SyncTeam(t, r))
  {
    if t in s.teams {
      var more := set r | r in TeamRegions(s, t) && Enforced(s, r) :: SyncTeam(t, r);
      assert TeamTasks(s, ids + {t}) == TeamTasks(s, ids) + more;
      assert TeamTasks(s, ids) !! more;
    }
  }

  class Directory {
    var groups: map<Id, Group>
    var regions: map<Id, Region>
    var teams: map<Id, Team>
    var models: map<Id, Model>
    var deployments: map<(Id, Id), Deployment>
    var nextId: Id
    var queue: multiset<Task>

    ghost function State(): Store
      reads this
    {
      Store(groups, regions, teams, models, deployments, nextId)
    }

    /** The request was answered as `Handled` says, and the tables and the queue are left as it says. */
    ghost predicate Answered(before: Store, queued: multiset<Task>, q: Request, refusal: Option<Refusal>)
      reads this
    {
      match Handled(before, q)
      case Err(e) => refusal == Some(e) && State() == before && queue == queued
      case Ok(e) => refusal == None && State() == e.store && queue == queued + multiset(e.tasks)
    }

    method ResyncModels(ids: set<Id>)
      modifies `deployments, `queue
      ensures State() == Marked(old(State()), ids)
      ensures queue == old(queue) + multiset(ModelTasks(old(State()), ids))
    {
      hide PendingAt, SyncsOf, Marked, ModelTasks;
      ghost var s := State();
      var rows := set d | d in deployments.Keys && d.0 in ids && deployments[d].active
                          && d.0 in models && models[d.0].active && !models[d.0].deleted;
      var todo := rows;
      RowsStart(s.deployments);
      assert rows - todo == {};
      while todo != {}
        invariant todo <= rows
        invariant deployments == PendingAt(s.deployments, rows - todo)
        invariant deployments.Keys == s.deployments.Keys
        invariant queue == old(queue) + multiset(SyncsOf(rows - todo))
      {
        var d :| d in todo;
        RowTurn(s.deployments, rows - todo, d);
        assert rows - (todo - {d}) == rows - todo + {d};
        deployments := deployments[d := deployments[d].(status := Pending)];
        queue := queue + multiset{SyncModel(d.0, d.1)};
        todo := todo - {d};
      }
      assert rows - todo == rows;
      RowsEnd(s, ids, rows);
    }

    method RegionsOf(team: Id) returns (found: set<Id>)
      requires team in teams
      ensures found == TeamRegions(State(), team)
    {
      found := {};
      var todo := teams[team].allowed;
      while todo != {}
        invariant todo <= teams[team].allowed
        invariant found == set r | r in regions && regions[r].active && r in teams[team].allowed - todo
      {
        var r :| r in todo;
        if r in regions && regions[r].active {
          found := found + {r};
        }
        todo := todo - {r};
      }
      if teams[team].primary.Some? {
        var r := teams[team].primary.value;
        if r in regions && regions[r].active {
          found := found + {r};
        }
      }
    }

    /** Queue one team's push in each enforced region it belongs to. */
    method QueueTeam(team: Id, among: set<Id>)
      modifies `queue
      ensures queue == old(queue) + multiset(set r | r in among && Enforced(State(), r) :: SyncTeam(team, r))
    {
      var todo := among;
      ghost var done: set<Task> := {};
      while todo != {}
        invariant todo <= among
        invariant done == set r | r in among - todo && Enforced(State(), r) :: SyncTeam(team, r)
        invariant queue == old(queue) + multiset(done)
      {
        var r :| r in todo;
        if r in regions && regions[r].default.Some? {
          assert SyncTeam(team, r) !in done;
          assert multiset(done + {SyncTeam(team, r)}) == multiset(done) + multiset{SyncTeam(team, r)};
          queue := queue + multiset{SyncTeam(team, r)};
          done := done + {SyncTeam(team, r)};
        }
        todo := todo - {r};
      }
      assert done == set r | r in among && Enforced(State(), r) :: SyncTeam(team, r);
    }

    method ResyncTeams(ids: set<Id>)
      modifies `queue
      ensures queue == old(queue) + multiset(TeamTasks(State(), ids))
    {
      hide TeamTasks, TeamRegions;
      var todo := ids;
      assert TeamTasks(State(), {}) == {} by {
        NoTeams(State());
      }
      assert ids - todo == {};
      while todo != {}
        invariant todo <= ids
        invariant queue == old(queue) + multiset(TeamTasks(State(), ids - todo))
      {
        var t :| t in todo;
        TeamTurn(State(), ids - todo, t);
        assert ids - (todo - {t}) == ids - todo + {t};
        if t in teams {
          var among := RegionsOf(t);
          QueueTeam(t, among);
        }
        todo := todo - {t};
      }
      assert ids - todo == ids;
    }

    method CreateGroup(q: Request) returns (refusal: Option<Refusal>)
      requires q.Create?
      modifies this
      ensures Answered(old(State()), old(queue), q, refusal)
    {
      hide Marked, ModelTasks;
      if (exists g | g in groups.Keys :: groups[g].slug == q.slug)
         || (exists m | m in q.models :: m !in models || models[m].deleted)
         || (exists r | r in q.regions :: r !in regions) {
        return Some(BadRequest);
      }
      groups := groups[nextId := Group(q.slug, q.caption, q.description, Elements(q.models), Elements(q.regions), {})];
      nextId := nextId + 1;
      ResyncModels(Elements(q.models));
      return None;
    }

    /** The edited row, with the models and the teams whose pushes it will need, collected while editing. */
    method EditGroup(q: Request)
      returns (refusal: Option<Refusal>, group: Group, affectedModels: set<Id>, affectedTeams: set<Id>)
      requires q.Update? && q.group in groups
      ensures refusal.Some? ==> Handled(State(), q) == Err(refusal.value)
      ensures refusal.None? ==>
        var was, now, s := groups[q.group], Edited(groups[q.group], q), State().(groups := groups[q.group := group]);
        && group == now
        && Handled(State(), q) == Ok(Effect(Marked(s, affectedModels),
                                            ModelTasks(s, affectedModels) + TeamTasks(s, affectedTeams)))
    {
      hide Marked, ModelTasks, TeamTasks, StripsDefault;
      group := groups[q.group];
      affectedModels, affectedTeams, refusal := {}, {}, None;
      if q.newCaption.Some? {
        group := group.(caption := q.newCaption.value);
      }
      if q.newDescription.Some? {
        group := group.(description := q.newDescription);
      }
      if q.newModels.Some? {
        if exists m | m in q.newModels.value :: m !in models || models[m].deleted {
          refusal := Some(BadRequest);
          return;
        }
        var newIds := Elements(q.newModels.value);
        if group.models != newIds {
          affectedModels := affectedModels + group.models + newIds;
          group := group.(models := newIds);
        }
      }
      if q.newRegions.Some? {
        if exists r | r in q.newRegions.value :: r !in regions {
          refusal := Some(BadRequest);
          return;
        }
        var newRegions := Elements(q.newRegions.value);
        if group.regions != newRegions {
          var defaultRegions := set r | r in regions.Keys && regions[r].default == Some(q.group);
          assert (defaultRegions <= newRegions) == !StripsDefault(State(), q.group, newRegions) by {
            DefaultRegionsStay(State(), q.group, defaultRegions, newRegions);
          }
          if !(defaultRegions <= newRegions) {
            refusal := Some(Conflict);
            return;
          }
          affectedModels := affectedModels + groups[q.group].models;
          if q.newModels.Some? {
            affectedModels := affectedModels + Elements(q.newModels.value);
          }
          affectedTeams := affectedTeams + group.teams;
          group := group.(regions := newRegions);
        }
      }
      ghost var was, now := groups[q.group], Edited(groups[q.group], q);
      assert affectedModels ==
        if was.models != now.models || was.regions != now.regions then was.models + now.models else {};
      assert affectedTeams == if was.regions != now.regions then was.teams else {};
    }

    method UpdateGroup(q: Request) returns (refusal: Option<Refusal>)
      requires q.Update?
      modifies this
      ensures Answered(old(State()), old(queue), q, refusal)
    {
      hide Marked, ModelTasks, TeamTasks;
      if q.group !in groups {
        return Some(NotFound);
      }
      var edited, affectedModels, affectedTeams;
      refusal, edited, affectedModels, affectedTeams := EditGroup(q);
      hide Handled;
      if refusal.Some? {
        return;
      }
      groups := groups[q.group := edited];
      ResyncModels(affectedModels);
      SameRegions(old(State()).(groups := groups), State(), affectedTeams);
      ResyncTeams(affectedTeams);
      DisjointTasks(old(State()).(groups := groups), affectedModels, affectedTeams);
    }

    method DeleteGroup(q: Request) returns (refusal: Option<Refusal>)
      requires q.Delete?
      modifies this
      ensures Answered(old(State()), old(queue), q, refusal)
    {
      hide Marked, ModelTasks, TeamTasks;
      if q.group !in groups {
        return Some(NotFound);
      }
      if exists r | r in regions.Keys :: regions[r].default == Some(q.group) {
        assert exists r | r in regions :: IsDefaultIn(State(), q.group, r) && r !in {};
        return Some(Conflict);
      }
      assert !StripsDefault(State(), q.group, {});
      var members, attached := groups[q.group].models, groups[q.group].teams;
      groups := groups - {q.group};
      ResyncModels(members);
      SameRegions(old(State()).(groups := groups), State(), attached);
      ResyncTeams(attached);
      DisjointTasks(old(State()).(groups := groups), members, attached);
      return None;
    }

    method SetRegionDefault(q: Request) returns (refusal: Option<Refusal>)
      requires q.SetDefault?
      modifies this
      ensures Answered(old(State()), old(queue), q, refusal)
    {
      if q.region !in regions || !regions[q.region].active {
        return Some(NotFound);
      }
      if q.default == regions[q.region].default {
        return None;
      }
      if q.default.Some? {
        var g := q.default.value;
        if g !in groups {
          return Some(NotFound);
        }
        if q.region !in groups[g].regions {
          return Some(Conflict);
        }
        var members := set m | m in groups[g].models && m in models && !models[m].deleted
                               && (m, q.region) in deployments && deployments[(m, q.region)].active;
        assert forall m | m in groups[g].models :: ActiveMember(State(), g, q.region, m) <==> m in members;
        if members == {} {
          return Some(Conflict);
        }
        if exists m | m in members :: deployments[(m, q.region)].status != Synced {
          assert !MayBecomeDefault(State(), g, q.region);
          return Some(Conflict);
        }
        var witnessMember :| witnessMember in members;
        assert ActiveMember(State(), g, q.region, witnessMember);
      }
      regions := regions[q.region := regions[q.region].(default := q.default)];
      queue := queue + multiset{SyncRegionTeams(q.region)};
      return None;
    }

    /** Drop the team's opt-in rows, then add one for each chosen group. */
    method ReplaceOptIns(team: Id, chosen: set<Id>)
      requires chosen <= groups.Keys
      modifies `groups
      ensures groups == OptedIn(old(groups), team, chosen)
    {
      groups := map g | g in groups :: groups[g].(teams := groups[g].teams - {team});
      ghost var cleared := groups;
      var todo := chosen;
      while todo != {}
        invariant todo <= chosen <= groups.Keys == cleared.Keys
        invariant forall g | g in cleared ::
            groups[g] == if g in chosen - todo then cleared[g].(teams := cleared[g].teams + {team}) else cleared[g]
      {
        var g :| g in todo;
        groups := groups[g := groups[g].(teams := groups[g].teams + {team})];
        todo := todo - {g};
      }
      ghost var goal := OptedIn(old(groups), team, chosen);
      forall g | g in groups
        ensures g in goal && groups[g] == goal[g]
      {
        assert groups[g].teams == goal[g].teams;
      }
    }

    /** The groups a team asks for, refused unless each is known and deployed to one of its enforced regions. */
    method CheckOptIns(slugs: seq<string>, enforced: set<Id>) returns (refusal: Option<Refusal>, chosen: set<Id>)
      ensures chosen == Chosen(State(), slugs)
      ensures
        refusal == if (exists slug | slug in slugs :: !SlugTaken(State(), slug))
                      || (exists g | g in Chosen(State(), slugs) :: groups[g].regions !! enforced)
                   then Some(BadRequest) else None
    {
      chosen := set g | g in groups.Keys && groups[g].slug in slugs;
      var known := set g | g in chosen :: groups[g].slug;
      if !(Elements(slugs) <= known) {
        var slug :| slug in Elements(slugs) && slug !in known;
        assert !SlugTaken(State(), slug);
        return Some(BadRequest), chosen;
      }
      assert forall slug | slug in slugs :: slug in known;
      var todo := chosen;
      while todo != {}
        invariant todo <= chosen
        invariant forall g | g in chosen - todo :: !(groups[g].regions !! enforced)
      {
        var g :| g in todo;
        if groups[g].regions !! enforced {
          return Some(BadRequest), chosen;
        }
        todo := todo - {g};
      }
      return None, chosen;
    }

    method SetTeamAccessGroups(q: Request) returns (refusal: Option<Refusal>)
      requires q.SetTeamGroups?
      modifies this
      ensures Answered(old(State()), old(queue), q, refusal)
    {
      hide TeamRegions, SlugTaken, Chosen, OptedIn;
      if q.team !in teams || teams[q.team].deleted {
        return Some(NotFound);
      }
      var among := RegionsOf(q.team);
      var enforced := set r | r in among && r in regions && regions[r].default.Some?;
      assert enforced == EnforcedRegions(State(), q.team);
      if enforced == {} {
        return Some(Conflict);
      }
      var chosen;
      refusal, chosen := CheckOptIns(q.slugs, enforced);
      if refusal.Some? {
        return;
      }
      ChosenExist(State(), q.slugs);
      ReplaceOptIns(q.team, chosen);
      QueueTeam(q.team, enforced);
      assert (set r | r in enforced && Enforced(State(), r) :: SyncTeam(q.team, r)) ==
             (set r | r in enforced :: SyncTeam(q.team, r));
    }

    method RetryRegionRun(q: Request) returns (refusal: Option<Refusal>)
      requires q.RetryRun?
      modifies `queue
      ensures Answered(old(State()), old(queue), q, refusal)
    {
      if q.region !in regions || !regions[q.region].active {
        return Some(NotFound);
      }
      queue := queue + multiset{SyncRegionTeams(q.region)};
      return None;
    }
  }

  lemma DefaultRegionsStay(s: Store, group: Id, defaults: set<Id>, regions: set<Id>)
    requires defaults == set r | r in s.regions && s.regions[r].default == Some(group)
    ensures (defaults <= regions) == !StripsDefault(s, group, regions)
  {
    assert forall r :: r in defaults <==> IsDefaultIn(s, group, r);
  }

  lemma ChosenExist(s: Store, slugs: seq<string>)
    ensures Chosen(s, slugs) <= s.groups.Keys
  {
  }

  lemma SameRegions(s: Store, t: Store, teams: set<Id>)
    requires t == s.(deployments := t.deployments)
    ensures TeamTasks(s, teams) == TeamTasks(t, teams)
  {
  }

  lemma DisjointTasks(s: Store, models: set<Id>, teams: set<Id>)
    ensures multiset(ModelTasks(s, models) + TeamTasks(s, teams)) ==
            multiset(ModelTasks(s, models)) + multiset(TeamTasks(s, teams))
  {
  }

  lemma NoTeams(s: Store)
    ensures TeamTasks(s, {}) == {}
  {
  }
}
