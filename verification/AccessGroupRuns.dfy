/**
 * Runs of access-group requests interleaved with the background pushes they queue. Any push may fail, and
 * a failed push may or may not have reached the proxy. Between a request and its pushes the proxies lag
 * behind the tables; these theorems say that they lag only where a push is still owed or has failed.
 */
module AccessGroupRuns {
  import opened Common
  import opened AccessGroups
  import opened AccessGroupTheorems

  /** How a proxy call ends: it worked, it failed, or it worked but the answer was an error. */
  datatype Answer = Done | Refused | Unheard

  /**
   * The tables, the background tasks still to run, and the proxies: the tags of each registered deployment
   * and the list of each team. `lost` holds the lists whose last push failed; nothing retries those.
   */
  datatype System = System(store: Store, queue: multiset<Task>, tags: map<(Id, Id), set<string>>,
                           lists: map<(Id, Id), set<string>>, lost: set<(Id, Id)>)

  predicate Reachable(s: Store, region: Id) {
    region in s.regions && s.regions[region].active && s.regions[region].managed
  }

  predicate Registered(s: Store, d: (Id, Id)) {
    && d in s.deployments && s.deployments[d].active
    && d.0 in s.models && s.models[d.0].active
  }

  function WithStatus(s: Store, d: (Id, Id), status: Status): Store
    requires d in s.deployments
  {
    s.(deployments := s.deployments[d := s.deployments[d].(status := status)])
  }

  /** `sync_model_to_region_task`. A failure also stands for parameters that cannot be resolved. */
  ghost function ModelPushed(y: System, d: (Id, Id), answer: Answer): System {
    var s := y.store;
    if d !in s.deployments then y
    else if d.0 !in s.models || d.1 !in s.regions || !s.regions[d.1].active then y.(store := WithStatus(s, d, Failed))
    else if !s.regions[d.1].managed then y.(store := WithStatus(s, d, NotConfigured))
    else
      var tags := if Registered(s, d) then y.tags[d := Tags(s, d.0, d.1)] else y.tags - {d};
      y.(tags := if answer == Refused then y.tags else tags,
         store := WithStatus(s, d, if answer == Done then Synced else Failed))
  }

  /**
   * What one push of a deployment records: synced exactly if it could be tried and was answered, not
   * configured where the catalog does not manage an active region, failed otherwise. The proxy changes only if
   * the push reached it, and then holds the tags of a deployment in use and none of any other.
   */
  lemma PushRecords(y: System, model: Id, region: Id, answer: Answer)
    requires (model, region) in y.store.deployments
    ensures
      var z, d := ModelPushed(y, (model, region), answer), (model, region);
      var known := model in y.store.models && region in y.store.regions && y.store.regions[region].active;
      var reached := known && y.store.regions[region].managed && answer != Refused;
      var inUse := known && y.store.models[model].active && y.store.deployments[d].active;
      && z.store == y.store.(deployments := y.store.deployments[d := y.store.deployments[d].(status :=
           if known && !y.store.regions[region].managed then NotConfigured
           else if known && answer == Done then Synced
           else Failed)])
      && z.queue == y.queue && z.lists == y.lists && z.lost == y.lost
      && (forall p | p != d :: Get(z.tags, p) == Get(y.tags, p))
      && Get(z.tags, d) == (if !reached then Get(y.tags, d) else if inUse then Some(Tags(y.store, model, region)) else None)
  {
    hide Tags;
  }

  /** What `sync_team_groups` pushes: the effective list, or the empty list where enforcement is off. */
  ghost function ListFor(s: Store, p: (Id, Id)): set<string> {
    if p.1 in s.regions then EffectiveSlugs(s, p.0, p.1).GetOr({}) else {}
  }

  /** The lists of these teams and regions are pushed; each push ends as `answer` says. */
  ghost function ListsPushed(y: System, pairs: set<(Id, Id)>, answer: map<(Id, Id), Answer>): System {
    y.(lists := y.lists + (map p | p in pairs && Get(answer, p).GetOr(Done) != Refused :: ListFor(y.store, p)),
       lost := (y.lost - pairs) + (set p | p in pairs && Get(answer, p).GetOr(Done) != Done))
  }

  /** `region_team_ids`: the teams of a region that are not deleted. */
  function RegionTeams(s: Store, region: Id): set<(Id, Id)> {
    set t | t in s.teams && !s.teams[t].deleted &&
      (s.teams[t].primary == Some(region) || region in s.teams[t].allowed) :: (t, region)
  }

  ghost function Worked(y: System, task: Task, answer: map<(Id, Id), Answer>): System {
    match task
    case SyncModel(m, r) => ModelPushed(y, (m, r), Get(answer, (m, r)).GetOr(Done))
    case SyncTeam(t, r) => if Reachable(y.store, r) then ListsPushed(y, {(t, r)}, answer) else y
    case SyncRegionTeams(r) => if Reachable(y.store, r) then ListsPushed(y, RegionTeams(y.store, r), answer) else y
  }

  datatype Step =
    | Post(request: Request)
    | Work(task: Task, answer: map<(Id, Id), Answer>)

  /** A refused request changes nothing; a queued task is taken off the queue and run. */
  ghost function After(y: System, step: Step): System {
    match step
    case Post(q) =>
      (match Handled(y.store, q)
       case Err(_) => y
       case Ok(e) => y.(store := e.store, queue := y.queue + multiset(e.tasks)))
    case Work(task, answer) =>
      if task in y.queue then Worked(y.(queue := y.queue - multiset{task}), task, answer) else y
  }

  ghost function Run(y: System, steps: seq<Step>): System
    decreases |steps|
  {
    if steps == [] then y else Run(After(y, steps[0]), steps[1..])
  }

  // ------------------------------------------------------------ the invariant

  /** The deployment's sync column tells the truth about the proxy. */
  ghost predicate TagsKnown(y: System, d: (Id, Id))
    requires d in y.store.deployments
  {
    match y.store.deployments[d].status
    case Synced =>
      && (Pushable(y.store, d) ==> d in y.tags && y.tags[d] == Tags(y.store, d.0, d.1))
      && (!Registered(y.store, d) ==> d !in y.tags)
    case Pending => Pushable(y.store, d) ==> SyncModel(d.0, d.1) in y.queue
    case _ => true
  }

  /** The proxy holds the team's list, or a push of it is queued, or its last push failed. */
  ghost predicate ListKnown(y: System, p: (Id, Id)) {
    || (p in y.lists && y.lists[p] == ListFor(y.store, p))
    || SyncTeam(p.0, p.1) in y.queue
    || SyncRegionTeams(p.1) in y.queue
    || p in y.lost
  }

  ghost predicate Member(s: Store, p: (Id, Id)) {
    Belongs(s, p.0, p.1) && !s.teams[p.0].deleted && Reachable(s, p.1)
  }

  ghost predicate Sound(y: System) {
    && References(y.store)
    && DefaultsDeployed(y.store)
    && (forall d | d in y.store.deployments && Reachable(y.store, d.1) :: TagsKnown(y, d))
    && (forall p | Member(y.store, p) :: ListKnown(y, p))
  }

  lemma PostKeepsSound(y: System, q: Request)
    requires Sound(y) && Handled(y.store, q).Ok?
    ensures Sound(After(y, Post(q)))
  {
    hide Handled, References, DefaultsDeployed, Tags, EffectiveSlugs, TeamRegions;
    var s, z := y.store, After(y, Post(q));
    var e := Handled(s, q).value;
    OtherTablesStay(s, q);
    ReferencesKept(s, q);
    DefaultsKept(s, q);
    forall d | d in z.store.deployments && Reachable(z.store, d.1)
      ensures TagsKnown(z, d)
    {
      MarksAreQueued(s, q, d);
      if Pushable(s, d) {
        TagChangesAreQueued(s, q, d);
      }
    }
    forall p | Member(z.store, p)
      ensures ListKnown(z, p)
    {
      ListStep(y, q, p);
    }
  }

  lemma ListStep(y: System, q: Request, p: (Id, Id))
    requires Sound(y) && Handled(y.store, q).Ok?
    requires Member(After(y, Post(q)).store, p)
    ensures ListKnown(After(y, Post(q)), p)
  {
    hide Handled, References, DefaultsDeployed, Tags, EffectiveSlugs;
    OtherTablesStay(y.store, q);
    assert Member(y.store, p);
    ListChangesAreQueued(y.store, q, p.0, p.1);
  }

  /** The sync column has no part in what the proxies should hold. */
  lemma StatusIsNoContent(s: Store, d: (Id, Id), status: Status)
    requires d in s.deployments
    ensures
      var t := WithStatus(s, d, status);
      && References(t) == References(s)
      && DefaultsDeployed(t) == DefaultsDeployed(s)
      && (forall p: (Id, Id) :: Tags(t, p.0, p.1) == Tags(s, p.0, p.1))
      && (forall p :: Member(t, p) == Member(s, p))
      && (forall p :: ListFor(t, p) == ListFor(s, p))
      && (forall p :: Pushable(t, p) == Pushable(s, p))
      && (forall p :: Registered(t, p) == Registered(s, p))
  {
    var t := WithStatus(s, d, status);
    forall p: (Id, Id)
      ensures Tags(t, p.0, p.1) == Tags(s, p.0, p.1)
    {
      SameTags(s, t, p);
    }
    forall p
      ensures ListFor(t, p) == ListFor(s, p)
    {
      ListOf(s, t, p);
    }
  }

  lemma ListOf(s: Store, t: Store, p: (Id, Id))
    requires s.groups == t.groups && s.regions == t.regions
    ensures ListFor(t, p) == ListFor(s, p)
  {
    if p.1 in s.regions {
      assert DefaultSlugs(s, p.1) == DefaultSlugs(t, p.1);
      assert OptInSlugs(s, p.0, p.1) == OptInSlugs(t, p.0, p.1);
    }
  }

  /** Recording the end of a push keeps every other deployment, and every list, as it was. */
  lemma RecordKeepsSound(y: System, d: (Id, Id), status: Status, tags: map<(Id, Id), set<string>>)
    requires Sound(y) && d in y.store.deployments && status != Pending
    requires forall p | p != d :: Get(tags, p) == Get(y.tags, p)
    requires status == Synced ==>
      Get(tags, d) == if Registered(y.store, d) then Some(Tags(y.store, d.0, d.1)) else None
    ensures
      Sound(y.(queue := y.queue - multiset{SyncModel(d.0, d.1)}, tags := tags, store := WithStatus(y.store, d, status)))
  {
    hide References, DefaultsDeployed, Tags, ListFor, Member, Pushable, Registered;
    StatusIsNoContent(y.store, d, status);
    PushableIsRegistered(y.store, d);
    var z := y.(queue := y.queue - multiset{SyncModel(d.0, d.1)}, tags := tags, store := WithStatus(y.store, d, status));
    forall p | p in z.store.deployments && Reachable(z.store, p.1)
      ensures TagsKnown(z, p)
    {
      if p != d {
        assert TagsKnown(y, p);
        assert Get(tags, p) == Get(y.tags, p);
      }
    }
    forall p | Member(z.store, p)
      ensures ListKnown(z, p)
    {
      assert ListKnown(y, p);
    }
  }

  lemma PushableIsRegistered(s: Store, d: (Id, Id))
    ensures Pushable(s, d) ==> Registered(s, d)
  {
  }

  lemma ModelPushKeepsSound(y: System, d: (Id, Id), answer: Answer)
    requires Sound(y)
    ensures Sound(ModelPushed(y.(queue := y.queue - multiset{SyncModel(d.0, d.1)}), d, answer))
  {
    hide Sound, Tags, Registered, WithStatus;
    if d !in y.store.deployments {
      MissingKeepsSound(y, d);
    } else {
      var z := ModelPushed(y.(queue := y.queue - multiset{SyncModel(d.0, d.1)}), d, answer);
      var status := if d.0 !in y.store.models || !(d.1 in y.store.regions && y.store.regions[d.1].active) then Failed
                    else if !y.store.regions[d.1].managed then NotConfigured
                    else if answer == Done then Synced else Failed;
      RecordKeepsSound(y, d, status, z.tags);
    }
  }

  lemma MissingKeepsSound(y: System, d: (Id, Id))
    requires Sound(y) && d !in y.store.deployments
    ensures Sound(y.(queue := y.queue - multiset{SyncModel(d.0, d.1)}))
  {
    hide References, DefaultsDeployed, Tags, ListFor, Member, Pushable, Registered;
  }

  lemma ListPushKeepsSound(y: System, task: Task, pairs: set<(Id, Id)>, answer: map<(Id, Id), Answer>)
    requires Sound(y) && !task.SyncModel?
    requires forall p | Member(y.store, p) && (task == SyncTeam(p.0, p.1) || task == SyncRegionTeams(p.1)) :: p in pairs
    ensures Sound(ListsPushed(y.(queue := y.queue - multiset{task}), pairs, answer))
  {
    hide References, DefaultsDeployed, Tags, ListFor, Member, Pushable, Registered;
  }

  lemma UnreachableKeepsSound(y: System, task: Task)
    requires Sound(y) && !task.SyncModel? && !Reachable(y.store, task.region)
    ensures Sound(y.(queue := y.queue - multiset{task}))
  {
    hide References, DefaultsDeployed, Tags, ListFor, Pushable, Registered;
  }

  lemma WorkKeepsSound(y: System, task: Task, answer: map<(Id, Id), Answer>)
    requires Sound(y) && task in y.queue
    ensures Sound(After(y, Work(task, answer)))
  {
    hide Sound, ModelPushed, ListsPushed, Reachable;
    match task
    case SyncModel(m, r) => ModelPushKeepsSound(y, (m, r), Get(answer, (m, r)).GetOr(Done));
    case SyncTeam(t, r) =>
      if Reachable(y.store, r) {
        ListPushKeepsSound(y, task, {(t, r)}, answer);
      } else {
        UnreachableKeepsSound(y, task);
      }
    case SyncRegionTeams(r) =>
      if Reachable(y.store, r) {
        ListPushKeepsSound(y, task, RegionTeams(y.store, r), answer);
      } else {
        UnreachableKeepsSound(y, task);
      }
  }

  /** Whatever is requested, in whatever order pushes run and however they end, the system stays sound. */
  lemma {:induction false} RunKeepsSound(y: System, steps: seq<Step>)
    requires Sound(y)
    ensures Sound(Run(y, steps))
    decreases |steps|
  {
    hide Sound, Handled, Worked;
    if steps != [] {
      match steps[0] {
        case Post(q) =>
          if Handled(y.store, q).Ok? {
            PostKeepsSound(y, q);
          }
        case Work(task, answer) =>
          if task in y.queue {
            WorkKeepsSound(y, task, answer);
          }
      }
      RunKeepsSound(After(y, steps[0]), steps[1..]);
    }
  }

  // ------------------------------------------------------------ what it means for a region

  /** A first start: no group yet, no enforcement, nothing tagged and nobody restricted. */
  ghost predicate Untouched(y: System) {
    && y.store.groups == map[]
    && (forall r | r in y.store.regions :: y.store.regions[r].default == None)
    && (forall d | d in y.store.deployments ::
         && (y.store.deployments[d].status == Pending ==> SyncModel(d.0, d.1) in y.queue)
         && (y.store.deployments[d].status == Synced ==>
              Get(y.tags, d) == if Registered(y.store, d) then Some({}) else None))
    && (forall p | Member(y.store, p) :: Get(y.lists, p) == Some({}))
  }

  /**
   * After any run from a first start: every default group exists and is deployed where it is the default,
   * and once no push is queued each proxy agrees with the tables wherever the last push did not fail.
   */
  lemma DrainedRunsAgree(y: System, steps: seq<Step>)
    requires Untouched(y)
    ensures
      var z := Run(y, steps);
      && References(z.store) && DefaultsDeployed(z.store)
      && (z.queue == multiset{} ==>
           && (forall d | Pushable(z.store, d) && Reachable(z.store, d.1) ::
                && z.store.deployments[d].status != Pending
                && (z.store.deployments[d].status == Synced ==> Get(z.tags, d) == Some(Tags(z.store, d.0, d.1))))
           && (forall p | Member(z.store, p) && p !in z.lost :: Get(z.lists, p) == Some(ListFor(z.store, p))))
  {
    hide Run, Tags, ListFor;
    UntouchedIsSound(y);
    RunKeepsSound(y, steps);
    if Run(y, steps).queue == multiset{} {
      DrainedAgrees(Run(y, steps));
    }
  }

  lemma UntouchedIsSound(y: System)
    requires Untouched(y)
    ensures Sound(y)
  {
    forall d | d in y.store.deployments
      ensures Tags(y.store, d.0, d.1) == {}
    {
    }
    forall p
      ensures ListFor(y.store, p) == {}
    {
    }
  }

  lemma DrainedAgrees(z: System)
    requires Sound(z) && z.queue == multiset{}
    ensures forall d | Pushable(z.store, d) && Reachable(z.store, d.1) ::
        && z.store.deployments[d].status != Pending
        && (z.store.deployments[d].status == Synced ==> Get(z.tags, d) == Some(Tags(z.store, d.0, d.1)))
    ensures forall p | Member(z.store, p) && p !in z.lost :: Get(z.lists, p) == Some(ListFor(z.store, p))
  {
    hide References, DefaultsDeployed, Tags, ListFor, Member;
    forall d | Pushable(z.store, d) && Reachable(z.store, d.1)
      ensures z.store.deployments[d].status != Pending
      ensures z.store.deployments[d].status == Synced ==> Get(z.tags, d) == Some(Tags(z.store, d.0, d.1))
    {
      assert TagsKnown(z, d);
    }
    forall p | Member(z.store, p) && p !in z.lost
      ensures Get(z.lists, p) == Some(ListFor(z.store, p))
    {
      assert ListKnown(z, p);
    }
  }

  /** The deployment and its model are in use, and the region's proxy can be reached. */
  predicate InUse(s: Store, model: Id, region: Id) {
    && model in s.models && s.models[model].active && !s.models[model].deleted
    && (model, region) in s.deployments && s.deployments[(model, region)].active
    && region in s.regions && s.regions[region].active && s.regions[region].managed
  }

  /** The team is not deleted, belongs to the region, and the region's proxy can be reached. */
  predicate UsedBy(s: Store, team: Id, region: Id) {
    && team in s.teams && !s.teams[team].deleted
    && (s.teams[team].primary == Some(region) || region in s.teams[team].allowed)
    && region in s.regions && s.regions[region].active && s.regions[region].managed
  }

  /**
   * In the groups' own terms: once nothing is queued, a synced deployment is tagged with exactly the groups
   * that hold its model and are deployed there, and a team is restricted to exactly the region's default and
   * the groups deployed there that it is opted into, or to nothing at all where there is no default.
   */
  lemma DrainedProxiesServeGroups(y: System, steps: seq<Step>, model: Id, team: Id, region: Id, slug: string)
    requires Untouched(y) && Run(y, steps).queue == multiset{}
    ensures
      var z := Run(y, steps);
      && (InUse(z.store, model, region) && z.store.deployments[(model, region)].status == Synced ==>
           && (model, region) in z.tags
           && (slug in z.tags[(model, region)] <==>
                exists g | g in z.store.groups ::
                  && z.store.groups[g].slug == slug
                  && model in z.store.groups[g].models && region in z.store.groups[g].regions))
      && (UsedBy(z.store, team, region) && (team, region) !in z.lost ==>
           && (team, region) in z.lists
           && (slug in z.lists[(team, region)] <==>
                && z.store.regions[region].default.Some?
                && exists g | g in z.store.groups ::
                  && z.store.groups[g].slug == slug
                  && (z.store.regions[region].default == Some(g) ||
                      (team in z.store.groups[g].teams && region in z.store.groups[g].regions))))
  {
    DrainedRunsAgree(y, steps);
    var z := Run(y, steps);
    hide Run, Untouched;
    if InUse(z.store, model, region) {
      assert Pushable(z.store, (model, region)) && Reachable(z.store, region);
      TagsAre(z.store, model, region, slug);
    }
    if UsedBy(z.store, team, region) {
      assert Member(z.store, (team, region));
      ListIs(z.store, team, region, slug);
    }
    hide Tags, ListFor, Member, Pushable, References, DefaultsDeployed;
  }

  lemma TagsAre(s: Store, model: Id, region: Id, slug: string)
    ensures slug in Tags(s, model, region) <==>
      exists g | g in s.groups :: s.groups[g].slug == slug && model in s.groups[g].models && region in s.groups[g].regions
  {
  }

  lemma ListIs(s: Store, team: Id, region: Id, slug: string)
    requires region in s.regions && s.regions[region].managed
    ensures slug in ListFor(s, (team, region)) <==>
      && s.regions[region].default.Some?
      && exists g | g in s.groups ::
        && s.groups[g].slug == slug
        && (s.regions[region].default == Some(g) || (team in s.groups[g].teams && region in s.groups[g].regions))
  {
    assert slug in DefaultSlugs(s, region) <==>
      exists g | g in s.groups :: s.groups[g].slug == slug && s.regions[region].default == Some(g);
    assert slug in OptInSlugs(s, team, region) <==>
      exists g | g in s.groups :: s.groups[g].slug == slug && team in s.groups[g].teams && region in s.groups[g].regions;
  }

  /** Retrying a region's fan-out puts every one of its teams right, whatever failed before. */
  lemma RetryRepairs(y: System, region: Id, team: Id)
    requires Reachable(y.store, region) && Member(y.store, (team, region))
    ensures
      var z := Run(y, [Post(RetryRun(region)), Work(SyncRegionTeams(region), map[])]);
      && z.store == y.store
      && (team, region) !in z.lost
      && Get(z.lists, (team, region)) == Some(ListFor(y.store, (team, region)))
  {
    hide ListFor, Handled, Member;
    var post, work := Post(RetryRun(region)), Work(SyncRegionTeams(region), map[]);
    var a := y.(queue := y.queue + multiset{SyncRegionTeams(region)});
    RetryIsQueued(y, region);
    TwoSteps(y, post, work);
    MemberIsTeam(y.store, team, region);
    assert After(a, work) == ListsPushed(y, RegionTeams(y.store, region), map[]);
  }

  lemma RetryIsQueued(y: System, region: Id)
    requires Reachable(y.store, region)
    ensures After(y, Post(RetryRun(region))) == y.(queue := y.queue + multiset{SyncRegionTeams(region)})
  {
  }

  lemma TwoSteps(y: System, first: Step, second: Step)
    ensures Run(y, [first, second]) == After(After(y, first), second)
  {
    hide After;
    assert [first, second][1..] == [second];
    assert Run(After(y, first), [second]) == Run(After(After(y, first), second), []);
  }

  lemma MemberIsTeam(s: Store, team: Id, region: Id)
    requires Member(s, (team, region))
    ensures (team, region) in RegionTeams(s, region)
  {
  }

  /** Some model answers on the region's proxy under the group's tag. */
  ghost predicate Served(y: System, group: Id, region: Id)
    requires group in y.store.groups
  {
    exists m | m in y.store.groups[group].models ::
      ActiveMember(y.store, group, region, m) &&
      (m, region) in y.tags && y.store.groups[group].slug in y.tags[(m, region)]
  }

  ghost predicate HasLiveMember(s: Store, group: Id, region: Id) {
    exists m | m in s.models :: ActiveMember(s, group, region, m) && s.models[m].active
  }

  /**
   * When a group is accepted as a region's default, the proxy serves the group's tag exactly if some active
   * member is also active globally: the gate itself counts members that are switched off globally.
   */
  lemma GateServesLiveMembers(y: System, region: Id, group: Id)
    requires Sound(y) && Reachable(y.store, region)
    requires y.store.regions[region].default != Some(group)
    requires DefaultSet(y.store, SetDefault(region, Some(group))).Ok?
    ensures group in y.store.groups
    ensures Served(y, group, region) <==> HasLiveMember(y.store, group, region)
  {
    hide References, DefaultsDeployed, Tags, ListFor, Member;
    forall m | ActiveMember(y.store, group, region, m)
      ensures TagsKnown(y, (m, region)) && y.store.deployments[(m, region)].status == Synced
    {
    }
    forall m | ActiveMember(y.store, group, region, m) && y.store.models[m].active
      ensures (m, region) in y.tags && y.store.groups[group].slug in y.tags[(m, region)]
    {
      assert TagsKnown(y, (m, region));
      TagOfMember(y.store, group, region, m);
    }
    forall m | ActiveMember(y.store, group, region, m) && !y.store.models[m].active
      ensures (m, region) !in y.tags
    {
      assert TagsKnown(y, (m, region));
    }
  }

  lemma TagOfMember(s: Store, group: Id, region: Id, m: Id)
    requires group in s.groups && m in s.groups[group].models && region in s.groups[group].regions
    ensures s.groups[group].slug in Tags(s, m, region)
  {
  }

  /**
   * The gate can be passed by a globally inactive model alone: from a first start, creating a group of one
   * such model and making it the default leaves a team restricted to a name that no model answers to.
   */
  lemma GateAcceptsUnservedGroup() returns (y: System, z: System)
    ensures Untouched(y)
    ensures z == Run(y, [Post(Create("basic", "Basic", None, [1], [1])), Post(SetDefault(1, Some(0))),
                         Work(SyncRegionTeams(1), map[])])
    ensures z.queue == multiset{} && z.lost == {}
    ensures Get(z.lists, (1, 1)) == Some({"basic"})
    ensures forall d :: d !in z.tags
  {
    var s := Store(map[], map[1 := Region(true, true, None)], map[1 := Team(Some(1), {}, false)],
                   map[1 := Model(false, false)], map[(1, 1) := Deployment(true, Synced)], 0);
    y := System(s, multiset{}, map[], map[(1, 1) := {}], {});
    var create, choose, work :=
      Post(Create("basic", "Basic", None, [1], [1])), Post(SetDefault(1, Some(0))), Work(SyncRegionTeams(1), map[]);
    var group := Group("basic", "Basic", None, {1}, {1}, {});
    var s1 := s.(groups := map[0 := group], nextId := 1);
    var s2 := s1.(regions := map[1 := Region(true, true, Some(0))]);
    UnservedCreate(s, s1);
    UnservedDefault(s1, s2);
    UnservedList(s2);
    z := UnservedRun(y, s1, s2, create, choose, work);
    hide Run, Untouched;
    assert Untouched(y) by {
      NobodyRestricted(y);
    }
  }

  lemma NobodyRestricted(y: System)
    requires y.store.groups == map[] && y.store.regions == map[1 := Region(true, true, None)]
    requires y.store.teams == map[1 := Team(Some(1), {}, false)] && y.lists == map[(1, 1) := {}]
    requires y.store.models == map[1 := Model(false, false)] && y.tags == map[]
    requires y.store.deployments == map[(1, 1) := Deployment(true, Synced)]
    ensures Untouched(y)
  {
  }

  lemma UnservedRun(y: System, s1: Store, s2: Store, create: Step, choose: Step, work: Step) returns (z: System)
    requires y.queue == multiset{} && y.lists == map[(1, 1) := {}] && y.lost == {}
    requires create.Post? && Handled(y.store, create.request) == Ok(Effect(s1, {}))
    requires choose.Post? && Handled(s1, choose.request) == Ok(Effect(s2, {SyncRegionTeams(1)}))
    requires work == Work(SyncRegionTeams(1), map[]) && Reachable(s2, 1)
    requires RegionTeams(s2, 1) == {(1, 1)} && ListFor(s2, (1, 1)) == {"basic"}
    ensures z == Run(y, [create, choose, work])
    ensures z == y.(store := s2, lists := z.lists) && Get(z.lists, (1, 1)) == Some({"basic"})
  {
    hide Handled, ListFor, RegionTeams, Reachable;
    var a, b := y.(store := s1), y.(store := s2, queue := multiset{SyncRegionTeams(1)});
    assert After(y, create) == a;
    assert After(a, choose) == b;
    z := After(b, work);
    assert z == ListsPushed(y.(store := s2), {(1, 1)}, map[]);
    assert [create, choose, work][1..] == [choose, work];
    TwoSteps(a, choose, work);
  }

  lemma UnservedCreate(s: Store, s1: Store)
    requires s.groups == map[] && s.nextId == 0 && s.models == map[1 := Model(false, false)] && 1 in s.regions
    requires s1 == s.(groups := map[0 := Group("basic", "Basic", None, {1}, {1}, {})], nextId := 1)
    ensures Handled(s, Create("basic", "Basic", None, [1], [1])) == Ok(Effect(s1, {}))
  {
    assert Elements([1]) == {1};
    assert Marked(s1, {1}) == s1;
    assert ModelTasks(s1, {1}) == {};
    assert s.groups[0 := Group("basic", "Basic", None, {1}, {1}, {})] == s1.groups;
    assert s.nextId + 1 == 1 && s.(groups := s1.groups, nextId := 1) == s1;
    var q := Create("basic", "Basic", None, [1], [1]);
    assert Group(q.slug, q.caption, q.description, Elements(q.models), Elements(q.regions), {}) == s1.groups[0];
    assert !SlugTaken(s, "basic") && KnownModels(s, [1]) && KnownRegions(s, [1]);
    assert Created(s, q) == Ok(Effect(s1, {}));
  }

  lemma UnservedDefault(s: Store, t: Store)
    requires s.groups == map[0 := Group("basic", "Basic", None, {1}, {1}, {})]
    requires s.models == map[1 := Model(false, false)] && s.regions == map[1 := Region(true, true, None)]
    requires s.deployments == map[(1, 1) := Deployment(true, Synced)]
    requires t == s.(regions := map[1 := Region(true, true, Some(0))])
    ensures Handled(s, SetDefault(1, Some(0))) == Ok(Effect(t, {SyncRegionTeams(1)}))
  {
    assert ActiveMember(s, 0, 1, 1);
    assert MayBecomeDefault(s, 0, 1);
    assert s.regions[1 := Region(true, true, Some(0))] == map[1 := Region(true, true, Some(0))];
  }

  lemma UnservedList(s: Store)
    requires s.groups == map[0 := Group("basic", "Basic", None, {1}, {1}, {})]
    requires s.regions == map[1 := Region(true, true, Some(0))] && s.teams == map[1 := Team(Some(1), {}, false)]
    ensures ListFor(s, (1, 1)) == {"basic"} && RegionTeams(s, 1) == {(1, 1)}
  {
    assert DefaultSlugs(s, 1) == {"basic"} && OptInSlugs(s, 1, 1) == {};
  }

  // ------------------------------------------------------------ the gate afterwards

  ghost predicate HasActiveMember(s: Store, group: Id, region: Id) {
    exists m :: ActiveMember(s, group, region, m)
  }

  /** The request gives the group a new list of models, none of which is active in the region. */
  predicate Empties(s: Store, q: Request, group: Id, region: Id) {
    q.Update? && q.group == group && q.newModels.Some? && forall m | m in q.newModels.value :: !ActiveIn(s, m, region)
  }

  lemma SameMembers(s: Store, t: Store, group: Id, region: Id)
    requires group in s.groups && group in t.groups && t.groups[group].models == s.groups[group].models
    requires t.models == s.models && t.deployments.Keys == s.deployments.Keys
    requires forall d | d in s.deployments :: t.deployments[d].active == s.deployments[d].active
    ensures HasActiveMember(t, group, region) <==> HasActiveMember(s, group, region)
  {
    assert forall m :: ActiveMember(t, group, region, m) <==> ActiveMember(s, group, region, m);
  }

  /** A group that is somewhere the default keeps its members through every request but an update of itself. */
  lemma OthersKeepMembers(s: Store, q: Request, group: Id, region: Id)
    requires References(s) && Handled(s, q).Ok? && IsDefaultIn(s, group, region) && group in s.groups
    ensures
      var t := Handled(s, q).value.store;
      group in t.groups && t.groups[group].models ==
        if q.Update? && q.group == group && q.newModels.Some? then Elements(q.newModels.value) else s.groups[group].models
  {
    hide SlugTaken, KnownModels, KnownRegions, MayBecomeDefault, Chosen, TeamTasks, ModelTasks, Pushable;
  }

  /**
   * The gate is not kept up afterwards. A region's default that has an active member there has one after an
   * accepted request exactly unless the request updates the default to models of which none is active in
   * the region, although with those models it could not have been made the default.
   */
  lemma DefaultKeepsMembersExactly(s: Store, q: Request, group: Id, region: Id)
    requires References(s) && Handled(s, q).Ok? && IsDefaultIn(s, group, region) && HasActiveMember(s, group, region)
    ensures HasActiveMember(Handled(s, q).value.store, group, region) <==> !Empties(s, q, group, region)
  {
    var t := Handled(s, q).value.store;
    var m :| ActiveMember(s, group, region, m);
    OtherTablesStay(s, q);
    OthersKeepMembers(s, q, group, region);
    hide Handled, References;
    if q.Update? && q.group == group && q.newModels.Some? {
      assert forall n :: ActiveMember(t, group, region, n) <==> n in q.newModels.value && ActiveIn(s, n, region);
    } else {
      SameMembers(s, t, group, region);
    }
  }

  /** The tables of the run below, before and after its group exists. */
  const BEFORE := Store(map[], map[1 := Region(true, true, None)], map[1 := Team(Some(1), {}, false)],
                        map[1 := Model(true, false)], map[(1, 1) := Deployment(true, Synced)], 0)

  function Scene(models: set<Id>, default: Option<Id>, status: Status): Store {
    Store(map[0 := Group("basic", "Basic", None, models, {1}, {})], map[1 := Region(true, true, default)],
          map[1 := Team(Some(1), {}, false)], map[1 := Model(true, false)], map[(1, 1) := Deployment(true, status)], 1)
  }

  /**
   * And that happens: from a first start, a group of one live model is pushed and made the default, and an
   * update takes the model away. With every push done, the team is restricted to a name nothing answers to.
   */
  lemma DefaultMayLoseItsMembers() returns (y: System, z: System)
    ensures Untouched(y)
    ensures z == Run(y, [Post(Create("basic", "Basic", None, [1], [1])), Work(SyncModel(1, 1), map[]),
                         Post(SetDefault(1, Some(0))), Work(SyncRegionTeams(1), map[]),
                         Post(Update(0, None, None, Some([]), None)), Work(SyncModel(1, 1), map[])])
    ensures z.queue == multiset{} && z.lost == {}
    ensures Get(z.lists, (1, 1)) == Some({"basic"}) && z.tags == map[(1, 1) := {}]
  {
    y := System(BEFORE, multiset{}, map[(1, 1) := {}], map[(1, 1) := {}], {});
    var create, choose := Post(Create("basic", "Basic", None, [1], [1])), Post(SetDefault(1, Some(0)));
    var empty := Post(Update(0, None, None, Some([]), None));
    var push, fan := Work(SyncModel(1, 1), map[]), Work(SyncRegionTeams(1), map[]);
    hide *;
    StartsUntouched(y);
    LosingRequests();
    var a := y.(store := Scene({1}, None, Pending), queue := multiset{SyncModel(1, 1)});
    PostedAlone(y, create.request, a.store, SyncModel(1, 1));
    var b := y.(store := Scene({1}, None, Synced), tags := map[(1, 1) := {"basic"}]);
    PushedAlone(a, {1}, None);
    var c := b.(store := Scene({1}, Some(0), Synced), queue := multiset{SyncRegionTeams(1)});
    PostedAlone(b, choose.request, c.store, SyncRegionTeams(1));
    var d := c.(queue := multiset{}, lists := map[(1, 1) := {"basic"}]);
    FannedAlone(c);
    var e := d.(store := Scene({}, Some(0), Pending), queue := multiset{SyncModel(1, 1)});
    PostedAlone(d, empty.request, e.store, SyncModel(1, 1));
    z := e.(store := Scene({}, Some(0), Synced), queue := multiset{}, tags := map[(1, 1) := {}]);
    PushedAlone(e, {}, Some(0));
    SixSteps(y, create, push, choose, fan, empty, push);
  }

  lemma FirstStep(y: System, first: Step, rest: seq<Step>)
    ensures Run(y, [first] + rest) == Run(After(y, first), rest)
  {
    assert ([first] + rest)[1..] == rest;
  }

  lemma SixSteps(y: System, s1: Step, s2: Step, s3: Step, s4: Step, s5: Step, s6: Step)
    ensures Run(y, [s1, s2, s3, s4, s5, s6]) == After(After(After(After(After(After(y, s1), s2), s3), s4), s5), s6)
  {
    hide After, Run;
    var y1 := After(y, s1);
    var y2 := After(y1, s2);
    var y3 := After(y2, s3);
    FirstStep(y, s1, [s2, s3, s4, s5, s6]);
    FirstStep(y1, s2, [s3, s4, s5, s6]);
    FirstStep(y2, s3, [s4, s5, s6]);
    FirstStep(y3, s4, [s5, s6]);
    TwoSteps(After(y3, s4), s5, s6);
    assert [s1] + [s2, s3, s4, s5, s6] == [s1, s2, s3, s4, s5, s6];
    assert [s2] + [s3, s4, s5, s6] == [s2, s3, s4, s5, s6];
    assert [s3] + [s4, s5, s6] == [s3, s4, s5, s6];
    assert [s4] + [s5, s6] == [s4, s5, s6];
  }

  /** A request accepted while nothing is queued, with one push to do. */
  lemma PostedAlone(y: System, q: Request, next: Store, task: Task)
    requires y.queue == multiset{} && Handled(y.store, q) == Ok(Effect(next, {task}))
    ensures After(y, Post(q)) == y.(store := next, queue := multiset{task})
  {
    hide Handled;
  }

  lemma StartsUntouched(y: System)
    requires y.store == BEFORE && y.tags == map[(1, 1) := {}] && y.lists == map[(1, 1) := {}]
    ensures Untouched(y)
  {
  }

  lemma SceneTags(models: set<Id>, default: Option<Id>)
    ensures Tags(Scene(models, default, Pending), 1, 1) == if 1 in models then {"basic"} else {}
  {
    var s := Scene(models, default, Pending);
    assert 1 in models ==> 0 in s.groups && 1 in s.groups[0].models && s.groups[0].slug in Tags(s, 1, 1);
  }

  lemma PushedAlone(y: System, models: set<Id>, default: Option<Id>)
    requires y.store == Scene(models, default, Pending) && y.queue == multiset{SyncModel(1, 1)} && y.tags.Keys == {(1, 1)}
    ensures
      After(y, Work(SyncModel(1, 1), map[])) ==
      y.(store := Scene(models, default, Synced), queue := multiset{},
         tags := map[(1, 1) := if 1 in models then {"basic"} else {}])
  {
    var s, d := y.store, (1, 1);
    SceneTags(models, default);
    hide Tags;
    assert WithStatus(s, d, Synced).deployments == map[d := Deployment(true, Synced)];
    assert WithStatus(s, d, Synced) == Scene(models, default, Synced);
    assert y.tags[d := Tags(s, 1, 1)] == map[d := Tags(s, 1, 1)];
  }

  lemma FannedAlone(y: System)
    requires y.store == Scene({1}, Some(0), Synced) && y.queue == multiset{SyncRegionTeams(1)}
    requires y.lists == map[(1, 1) := {}] && y.lost == {}
    ensures
      After(y, Work(SyncRegionTeams(1), map[])) == y.(queue := multiset{}, lists := map[(1, 1) := {"basic"}])
  {
    UnservedList(y.store);
    hide ListFor, RegionTeams;
    var z := After(y, Work(SyncRegionTeams(1), map[]));
    assert z == ListsPushed(y.(queue := multiset{}), {(1, 1)}, map[]);
    assert z.lists == map[(1, 1) := {"basic"}] && z.lost == {};
  }

  lemma LosingRequests()
    ensures Handled(BEFORE, Create("basic", "Basic", None, [1], [1])) ==
            Ok(Effect(Scene({1}, None, Pending), {SyncModel(1, 1)}))
    ensures Handled(Scene({1}, None, Synced), SetDefault(1, Some(0))) ==
            Ok(Effect(Scene({1}, Some(0), Synced), {SyncRegionTeams(1)}))
    ensures Handled(Scene({1}, Some(0), Synced), Update(0, None, None, Some([]), None)) ==
            Ok(Effect(Scene({}, Some(0), Pending), {SyncModel(1, 1)}))
  {
    LosingCreate();
    LosingDefault();
    LosingUpdate();
  }

  /** Marking the one model of the scene. */
  lemma SceneMarked(models: set<Id>, default: Option<Id>)
    ensures Marked(Scene(models, default, Synced), {1}) == Scene(models, default, Pending)
    ensures ModelTasks(Scene(models, default, Synced), {1}) == {SyncModel(1, 1)}
  {
    var s := Scene(models, default, Synced);
    assert Pushable(s, (1, 1));
    assert Marked(s, {1}).deployments == map[(1, 1) := Deployment(true, Pending)];
  }

  lemma LosingCreate()
    ensures Handled(BEFORE, Create("basic", "Basic", None, [1], [1])) ==
            Ok(Effect(Scene({1}, None, Pending), {SyncModel(1, 1)}))
  {
    var q := Create("basic", "Basic", None, [1], [1]);
    SceneMarked({1}, None);
    assert Elements([1]) == {1};
    assert !SlugTaken(BEFORE, "basic") && KnownModels(BEFORE, [1]) && KnownRegions(BEFORE, [1]);
    var group := Group(q.slug, q.caption, q.description, Elements(q.models), Elements(q.regions), {});
    var made := Scene({1}, None, Synced);
    assert group == made.groups[0] && BEFORE.groups == map[];
    assert BEFORE.groups[0 := group] == made.groups;
    assert BEFORE.(groups := BEFORE.groups[0 := group], nextId := 1) == made;
    hide Marked, ModelTasks;
    assert Created(BEFORE, q) == Ok(Effect(Marked(made, {1}), ModelTasks(made, {1})));
  }

  lemma LosingDefault()
    ensures Handled(Scene({1}, None, Synced), SetDefault(1, Some(0))) ==
            Ok(Effect(Scene({1}, Some(0), Synced), {SyncRegionTeams(1)}))
  {
    var s := Scene({1}, None, Synced);
    assert ActiveMember(s, 0, 1, 1);
    assert MayBecomeDefault(s, 0, 1);
    assert s.regions[1 := Region(true, true, Some(0))] == map[1 := Region(true, true, Some(0))];
  }

  lemma LosingUpdate()
    ensures Handled(Scene({1}, Some(0), Synced), Update(0, None, None, Some([]), None)) ==
            Ok(Effect(Scene({}, Some(0), Pending), {SyncModel(1, 1)}))
  {
    var s, q := Scene({1}, Some(0), Synced), Update(0, None, None, Some([]), None);
    SceneMarked({}, Some(0));
    assert Elements<Id>([]) == {};
    var now := Edited(s.groups[0], q);
    assert now == Group("basic", "Basic", None, {}, {1}, {});
    var next := Scene({}, Some(0), Synced);
    assert s.groups[0 := now] == next.groups;
    assert s.(groups := s.groups[0 := now]) == next;
    assert {1} + now.models == {1} && KnownModels(s, []);
    assert TeamTasks(next, {}) == {} && {SyncModel(1, 1)} + {} == {SyncModel(1, 1)};
    hide Marked, ModelTasks, TeamTasks;
    assert Updated(s, q) == Ok(Effect(Marked(next, {1}), ModelTasks(next, {1}) + TeamTasks(next, {})));
  }
}
