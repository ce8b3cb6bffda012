/** What the apply endpoint accepts, prunes and reports, said of the request and the stored rows
    themselves. */
module CatalogAnswers {
  import opened Common
  import opened Credentials
  import opened Catalog
  import opened CatalogPlans
  import opened CatalogTheorems

  /** The region is known and active, and the catalog manages it in this environment. */
  predicate IsManaged(s: Store, cfg: Config, r: RegionName) {
    r in s.regions && s.regions[r] && (cfg.localEnv || r in cfg.managedNames)
  }

  // ----- Acceptance -----

  /** The specification is well formed, and its groups are listed in the request. */
  ghost predicate WellFormed(req: Request, spec: ModelSpec) {
    && (if spec.isAlias then
          && (spec.params == None || spec.params == Some(map[])) && spec.deployments == [] && spec.aliasTargets != []
          && forall i, j :: 0 <= i < j < |spec.aliasTargets| ==> spec.aliasTargets[i].region != spec.aliasTargets[j].region
        else
          && spec.aliasTargets == []
          && forall i, j :: 0 <= i < j < |spec.deployments| ==> spec.deployments[i].region != spec.deployments[j].region)
    && forall g :: g in spec.accessGroups ==> exists group :: group in req.groups && group.slug == g
  }

  /** The stored rows allow it: no change of kind, no placeholder for what is not stored yet, and
      alias targets that are models and no aliases. */
  ghost predicate FitsStore(s: Store, cfg: Config, req: Request, spec: ModelSpec) {
    && (if spec.modelId in s.models then s.models[spec.modelId].isAlias == spec.isAlias
        else spec.params.Some? ==> !ContainsSentinel(spec.params.value))
    && (forall d :: d in spec.deployments && IsManaged(s, cfg, d.region) && d.override.Some? ==>
         (spec.modelId in s.models && d.region in s.models[spec.modelId].deployments) || !ContainsSentinel(d.override.value))
    && (forall t :: t in spec.aliasTargets && IsManaged(s, cfg, t.region) ==>
         || (t.target in s.models && !s.models[t.target].isAlias)
         || exists other :: other in req.models && other.modelId == t.target && !other.isAlias)
  }

  lemma ManagedIs(s: Store, cfg: Config)
    ensures forall r :: r in ManagedRegions(s.regions, cfg) <==> IsManaged(s, cfg, r)
  {
  }

  lemma RegionsOnce(spec: ModelSpec)
    ensures Distinct(TargetRegions(spec.aliasTargets)) <==>
      forall i, j :: 0 <= i < j < |spec.aliasTargets| ==> spec.aliasTargets[i].region != spec.aliasTargets[j].region
    ensures Distinct(DeploymentRegions(spec.deployments)) <==>
      forall i, j :: 0 <= i < j < |spec.deployments| ==> spec.deployments[i].region != spec.deployments[j].region
  {
    var ts, ds := TargetRegions(spec.aliasTargets), DeploymentRegions(spec.deployments);
    assert |ts| == |spec.aliasTargets| && forall i :: 0 <= i < |ts| ==> ts[i] == spec.aliasTargets[i].region;
    assert |ds| == |spec.deployments| && forall i :: 0 <= i < |ds| ==> ds[i] == spec.deployments[i].region;
  }

  lemma WellFormedIs(req: Request, spec: ModelSpec)
    ensures ValidSpec(spec, Elements(Slugs(req.groups))) <==> WellFormed(req, spec)
  {
    RegionsOnce(spec);
    hide Distinct, TargetRegions, DeploymentRegions;
    assert Given(spec.params) == map[] <==> spec.params == None || spec.params == Some(map[]);
    forall g
      ensures g in Elements(Slugs(req.groups)) <==> exists group :: group in req.groups && group.slug == g
    {
      if g in Slugs(req.groups) {
        var i :| 0 <= i < |req.groups| && Slugs(req.groups)[i] == g;
        assert req.groups[i] in req.groups;
      }
      if group :| group in req.groups && group.slug == g {
        var i :| 0 <= i < |req.groups| && req.groups[i] == group;
        assert Slugs(req.groups)[i] == g;
      }
    }
    hide Slugs;
    assert forall g :: g in spec.accessGroups <==> g in Elements(spec.accessGroups);
    assert Elements(spec.accessGroups) <= Elements(Slugs(req.groups)) <==>
      forall g :: g in spec.accessGroups ==> g in Elements(Slugs(req.groups));
  }

  lemma NewOverrides(s: Store, cfg: Config, spec: ModelSpec)
    requires ValidShape(spec)
    ensures
      var managed, prior := ManagedRegions(s.regions, cfg), Get(s.models, spec.modelId);
      var desired := DesiredDeployments(spec, managed);
      NewOverridesClean(OldDeployments(prior), desired, desired.Keys) <==>
      forall d :: d in spec.deployments && IsManaged(s, cfg, d.region) && d.override.Some? ==>
        (spec.modelId in s.models && d.region in s.models[spec.modelId].deployments) || !ContainsSentinel(d.override.value)
  {
    ManagedIs(s, cfg);
    hide ManagedRegions, ContainsSentinel, DeploymentMap, TargetMap, Distinct, IsManaged, DeploymentRegions, TargetRegions;
    NoSentinelInNone();
    var managed := ManagedRegions(s.regions, cfg);
    if !spec.isAlias {
      var desired := DeploymentMap(spec.deployments, managed);
      forall d | d in spec.deployments && d.region in managed
        ensures d.region in desired && desired[d.region] == d.override
      {
        ListedDeployment(spec.deployments, managed, d);
      }
      forall r | r in desired
        ensures exists d :: d in spec.deployments && d.region == r && r in managed && desired[r] == d.override
      {
        MappedDeployment(spec.deployments, managed, r);
      }
    }
  }

  lemma NoSentinelInNone()
    ensures !ContainsSentinel(Given(None))
  {
  }

  lemma SpecFits(s: Store, cfg: Config, req: Request, spec: ModelSpec)
    requires ValidRequest(req) && spec in req.models
    ensures
      SpecAccepted(s.models, Plan(req.models), spec, ManagedRegions(s.regions, cfg)) <==> FitsStore(s, cfg, req, spec)
  {
    assert ValidSpec(spec, Elements(Slugs(req.groups)));
    NewOverrides(s, cfg, spec);
    ManagedIs(s, cfg);
    NoSentinelInNone();
    PlanFacts(req.models);
    hide ManagedRegions, ContainsSentinel, DesiredDeployments, Plan, Distinct, IsManaged, ValidSpec, NewOverridesClean;
    forall t
      ensures TargetAccepted(s.models, Plan(req.models), t) <==>
        || (t in s.models && !s.models[t].isAlias)
        || exists other :: other in req.models && other.modelId == t && !other.isAlias
    {
      if t in Plan(req.models) && !Plan(req.models)[t].isAlias {
        assert Plan(req.models)[t] in req.models;
      }
    }
  }

  /** Exactly which requests are accepted. In particular every id and slug occurs once, every group a
      model names is listed, and pruning is never asked for with no model at all. */
  lemma AcceptedExactly(s: Store, cfg: Config, req: Request)
    ensures Accepts(s, cfg, req) <==>
      && (forall i, j :: 0 <= i < j < |req.models| ==> req.models[i].modelId != req.models[j].modelId)
      && (forall i, j :: 0 <= i < j < |req.groups| ==> req.groups[i].slug != req.groups[j].slug)
      && (req.prune ==> req.models != [])
      && (forall spec :: spec in req.models ==> WellFormed(req, spec) && FitsStore(s, cfg, req, spec))
  {
    forall spec
      ensures ValidSpec(spec, Elements(Slugs(req.groups))) <==> WellFormed(req, spec)
    {
      WellFormedIs(req, spec);
    }
    IdsOnce(req);
    hide WellFormed, ValidSpec, FitsStore, SpecAccepted, Plan, ManagedRegions, ModelIds, Slugs, Distinct;
    if ValidRequest(req) {
      PlanFacts(req.models);
      forall spec | spec in req.models
        ensures SpecAccepted(s.models, Plan(req.models), spec, ManagedRegions(s.regions, cfg)) <==> FitsStore(s, cfg, req, spec)
      {
        SpecFits(s, cfg, req, spec);
      }
    }
  }

  lemma IdsOnce(req: Request)
    ensures Distinct(ModelIds(req.models)) <==>
      forall i, j :: 0 <= i < j < |req.models| ==> req.models[i].modelId != req.models[j].modelId
    ensures Distinct(Slugs(req.groups)) <==>
      forall i, j :: 0 <= i < j < |req.groups| ==> req.groups[i].slug != req.groups[j].slug
  {
    assert |ModelIds(req.models)| == |req.models| && forall i :: 0 <= i < |req.models| ==> ModelIds(req.models)[i] == req.models[i].modelId;
    assert |Slugs(req.groups)| == |req.groups| && forall i :: 0 <= i < |req.groups| ==> Slugs(req.groups)[i] == req.groups[i].slug;
  }

  // ----- Pruning -----

  /** The announced end of life: the override if there is one, or else the real date. */
  function Announced(row: ModelRow): Option<int> {
    if row.fields[7].Date? && row.fields[7].date.Some? then Some(row.fields[7].date.value.t)
    else if row.fields[6].Date? && row.fields[6].date.Some? then Some(row.fields[6].date.value.t)
    else None
  }

  /** A stored model that the request does not list is left as it is and reported as unmanaged unless the
      request prunes. Then one that is active with no end of life announced, or one after now, is
      left as it is and reported as blocked; any other ends inactive, with no live deployment in a
      managed region, and each that was live there is reported and pushed. */
  lemma PruningAtEndOfLife(s: Store, cfg: Config, now: int, req: Request, m: ModelId)
    requires Accepts(s, cfg, req) && m in s.models
    requires forall spec :: spec in req.models ==> spec.modelId != m
    ensures
      var o, row, eol := Apply(s, cfg, now, req), s.models[m], Announced(s.models[m]);
      var keeps := !req.prune || (row.active && (eol == None || eol.value > now));
      && m in o.store.models
      && (m in o.unmanagedModels <==> keeps)
      && (keeps ==> o.store.models[m] == row)
      && (req.prune && keeps ==> PruneBlocked(m, eol) in o.changes)
      && (!keeps ==>
           && !o.store.models[m].active
           && (row.active ==> ModelPruned(m) in o.changes)
           && forall r :: r in row.deployments ==>
             && r in o.store.models[m].deployments
             && (IsManaged(s, cfg, r) ==> !o.store.models[m].deployments[r].active)
             && (IsManaged(s, cfg, r) && row.deployments[r].active ==> (m, r) in o.syncs && DeploymentDeactivated(m, r) in o.changes))
  {
    ManagedIs(s, cfg);
    NotPlanned(req, m);
    hide Apply, ManagedRegions, Plan, Accepts, ModelAfter, IsManaged, NewRow, PrunedRow, PruneChanges, PrunedRegions,
         PruneIsBlocked, Announced;
    ModelOutcome(s, cfg, now, req, m);
    StoredRow(s, cfg, now, req, m);
    PrunedOutcome(s, cfg, now, req, m);
    PrunedRowIs(s.models[m], m, ManagedRegions(s.regions, cfg), now);
  }

  lemma PrunedRowIs(row: ModelRow, m: ModelId, managed: set<RegionName>, now: int)
    ensures
      var after, eol := PrunedRow(row, managed, now), Announced(row);
      && (PruneIsBlocked(row, now) <==> row.active && (eol == None || eol.value > now))
      && (PruneIsBlocked(row, now) ==> after == row && PruneBlocked(m, eol) in PruneChanges(m, row, managed, now))
      && (!PruneIsBlocked(row, now) ==>
           && !after.active && after.deployments.Keys == row.deployments.Keys
           && (row.active ==> ModelPruned(m) in PruneChanges(m, row, managed, now))
           && forall r :: r in row.deployments && r in managed ==>
             && !after.deployments[r].active
             && (row.deployments[r].active ==>
                  r in PrunedRegions(row, managed, now) && DeploymentDeactivated(m, r) in PruneChanges(m, row, managed, now)))
  {
  }

  lemma NotPlanned(req: Request, m: ModelId)
    requires ValidRequest(req) && forall spec :: spec in req.models ==> spec.modelId != m
    ensures m !in Plan(req.models)
  {
    PlanFacts(req.models);
  }

  /** The pushes and reports of a pruned row are among the outcome's. */
  lemma PrunedOutcome(s: Store, cfg: Config, now: int, req: Request, m: ModelId)
    requires m in s.models && m !in Plan(req.models)
    ensures
      var o, row, managed := Apply(s, cfg, now, req), s.models[m], ManagedRegions(s.regions, cfg);
      && (req.prune ==>
           && (forall c :: c in PruneChanges(m, row, managed, now) ==> c in o.changes)
           && (forall r :: r in PrunedRegions(row, managed, now) ==> (m, r) in o.syncs))
      && (m in o.unmanagedModels <==> !req.prune || PruneIsBlocked(row, now))
  {
    hide PruneIsBlocked, PruneChanges, PrunedRegions, NewRow, Plan, GroupPlan, ManagedRegions, AllGroupChanges, AllRowChanges,
         WrittenPairs, ActivePairs, RetaggedPairs, AppliedGroups, CatalogChangedModels, ChangedGroupRegions, PrunedModels;
    var managed := ManagedRegions(s.regions, cfg);
    var models := AppliedModels(s.models, Plan(req.models), managed, now);
    var ids := models.Keys - Plan(req.models).Keys;
    assert m in ids && models[m] == s.models[m];
    var changes := map k | k in ids && k in models :: PruneChanges(k, models[k], managed, now);
    var regions := map k | k in ids && k in models :: PrunedRegions(models[k], managed, now);
    forall c | c in PruneChanges(m, s.models[m], managed, now)
      ensures c in AllPruneChanges(models, ids, managed, now)
    {
      assert m in changes && c in changes[m];
    }
    forall r | r in PrunedRegions(s.models[m], managed, now)
      ensures (m, r) in PrunedPairs(models, ids, managed, now)
    {
      assert m in regions && r in regions[m];
    }
  }

  // ----- Skipped regions -----

  /** The request names the region, for a group, a deployment or an alias target. */
  ghost predicate Names(req: Request, r: RegionName) {
    || (exists g :: g in req.groups && r in g.regions)
    || (exists spec, d :: spec in req.models && d in spec.deployments && d.region == r)
    || (exists spec, t :: spec in req.models && t in spec.aliasTargets && t.region == r)
  }

  /** Exactly the regions that a request names and does not reach are reported as skipped, with the reason. */
  lemma SkippedExactly(s: Store, cfg: Config, req: Request, r: RegionName)
    ensures Get(Skipped(s, cfg, req), r) ==
      if !Names(req, r) || IsManaged(s, cfg, r) then None
      else Some(if r !in s.regions then Unknown else if !s.regions[r] then Inactive else NotCatalogManaged)
  {
    NamedIsMentioned(req, r);
    hide Mentioned, Names;
  }

  lemma NamedIsMentioned(req: Request, r: RegionName)
    ensures r in Mentioned(req) <==> Names(req, r)
  {
    if g :| g in req.groups && r in g.regions {
      assert r in Mentioned(req);
    }
    if spec, d :| spec in req.models && d in spec.deployments && d.region == r {
      assert r in MentionedByModel(spec);
    }
    if spec, t :| spec in req.models && t in spec.aliasTargets && t.region == r {
      assert r in MentionedByModel(spec);
    }
  }

  // ----- Deployment rows -----

  lemma NewRowWritten(prior: Option<ModelRow>, spec: ModelSpec, managed: set<RegionName>, now: int, r: RegionName)
    ensures
      var before, after := Get(OldDeployments(prior), r), Get(NewRow(prior, spec, managed, now).deployments, r);
      before != after ==>
        && after.Some? && after.value.status == Pending && after.value.error == None && after.value.updatedAt == now
        && r in RowToSync(prior, spec, managed)
  {
    hide DesiredDeployments, UpsertedRow, NewTargets, Resolved;
  }

  /** A deployment row that the request writes is marked pending at this moment, and pushed. */
  lemma WrittenRowsArePending(s: Store, cfg: Config, now: int, req: Request, m: ModelId, r: RegionName)
    ensures
      var o := Apply(s, cfg, now, req);
      var before := if m in s.models then Get(s.models[m].deployments, r) else None;
      var after := if m in o.store.models then Get(o.store.models[m].deployments, r) else None;
      before != after ==>
        && after.Some? && after.value.status == Pending && after.value.updatedAt == now
        && (m, r) in o.syncs
  {
    hide Apply, ManagedRegions, Plan, NewRow, PrunedRow, ModelAfter, RowToSync, PrunedRegions, CatalogChanged, PruneIsBlocked,
         RetaggedPairs, ChangedGroupRegions, GroupPlan;
    ModelOutcome(s, cfg, now, req, m);
    StoredRow(s, cfg, now, req, m);
    OwedCauses(s, cfg, now, req, m, r);
    var managed := ManagedRegions(s.regions, cfg);
    if m in Plan(req.models) {
      NewRowWritten(Get(s.models, m), Plan(req.models)[m], managed, now, r);
    } else if m in s.models {
      PrunedRowWritten(s.models[m], managed, now, r);
    }
  }

  lemma PrunedRowWritten(row: ModelRow, managed: set<RegionName>, now: int, r: RegionName)
    ensures
      var before, after := Get(row.deployments, r), Get(PrunedRow(row, managed, now).deployments, r);
      before != after ==>
        after.Some? && after.value.status == Pending && after.value.updatedAt == now && r in PrunedRegions(row, managed, now)
  {
  }

  // ----- What a push sends -----

  /** The value a model's own row gives a parameter in one region: its override's, or else its general one. */
  function OwnValue(row: ModelRow, r: RegionName, k: string): Option<Json>
  {
    if r in row.deployments && row.deployments[r].override.Some? && k in row.deployments[r].override.value then
      Some(row.deployments[r].override.value[k])
    else if row.params.Some? && k in row.params.value then Some(row.params.value[k])
    else None
  }

  /** The alias has a target there, which is an active model and no alias. */
  predicate Resolves(s: Store, row: ModelRow, r: RegionName) {
    r in row.targets && row.targets[r] in s.models && s.models[row.targets[r]].active && !s.models[row.targets[r]].isAlias
  }

  /** A push of a deployment that is not live deregisters it. A live one is sent with its model's own
      parameters, or as an alias with those of its target, served under the target's name where they name no
      backend; an alias without a live model for a target is refused. Either is tagged with its own groups. */
  lemma PushIs(s: Store, m: ModelId, r: RegionName, k: string, g: Slug)
    ensures
      var push := PushOf(s, m, r);
      if !(m in s.models && s.models[m].active && r in s.models[m].deployments && s.models[m].deployments[r].active) then
        push == Deregister
      else
        var row := s.models[m];
        && (!row.isAlias ==> push.Send? && Get(push.params, k) == OwnValue(row, r, k))
        && (row.isAlias && !Resolves(s, row, r) ==> push == Refuse)
        && (row.isAlias && Resolves(s, row, r) ==>
             && push.Send?
             && var value := OwnValue(s.models[row.targets[r]], r, k);
                Get(push.params, k) == if k == "model" && value == None then Some(Str(row.targets[r])) else value)
        && (push.Send? ==> (g in push.tags <==> g in row.groups && g in s.groups && r in s.groups[g].regions))
  {
  }

  // ----- Reports -----

  /** The report says that something of this model changed; that its pruning is blocked says no such thing. */
  predicate ReportsModel(c: Change, m: ModelId) {
    match c
    case ModelCreated(k) => k == m
    case ModelUpdated(k, _) => k == m
    case DeploymentCreated(k, _) => k == m
    case DeploymentUpdated(k, _, _) => k == m
    case DeploymentDeactivated(k, _) => k == m
    case AliasRetargeted(k) => k == m
    case ModelPruned(k) => k == m
    case _ => false
  }

  predicate ReportsGroup(c: Change, g: Slug) {
    match c
    case GroupCreated(k) => k == g
    case GroupUpdated(k, _) => k == g
    case _ => false
  }

  /** The reports of an outcome, by the row they are about. */
  lemma ReportCauses(s: Store, cfg: Config, now: int, req: Request, c: Change)
    ensures
      var managed, plan, groups := ManagedRegions(s.regions, cfg), Plan(req.models), GroupPlan(req.groups);
      c in Apply(s, cfg, now, req).changes <==>
        || (exists g :: g in groups && c in GroupChanges(Get(s.groups, g), groups[g], managed))
        || (exists m :: m in plan && c in RowChanges(Get(s.models, m), plan[m], managed))
        || (req.prune && exists m :: m in s.models && m !in plan && c in PruneChanges(m, s.models[m], managed, now))
  {
    hide GroupChanges, RowChanges, PruneChanges, NewRow, Plan, GroupPlan, ManagedRegions, WrittenPairs, ActivePairs,
         RetaggedPairs, AppliedGroups, CatalogChangedModels, ChangedGroupRegions, PrunedModels, PrunedPairs, BlockedModels;
    var managed, plan, groups := ManagedRegions(s.regions, cfg), Plan(req.models), GroupPlan(req.groups);
    var models := AppliedModels(s.models, plan, managed, now);
    var ids := models.Keys - plan.Keys;
    var pruned := if req.prune then ids else {};
    var byGroup := map g | g in groups :: GroupChanges(Get(s.groups, g), groups[g], managed);
    var byModel := map m | m in plan :: RowChanges(Get(s.models, m), plan[m], managed);
    var byPruned := map m | m in pruned && m in models :: PruneChanges(m, models[m], managed, now);
    assert AllGroupChanges(s.groups, groups, managed) == Union(byGroup);
    assert AllRowChanges(s.models, plan, managed) == Union(byModel);
    assert AllPruneChanges(models, pruned, managed, now) == Union(byPruned);
    UnionHas(byGroup, c);
    UnionHas(byModel, c);
    UnionHas(byPruned, c);
    assert byGroup.Keys == groups.Keys && byModel.Keys == plan.Keys;
    assert forall m :: m in byPruned <==> req.prune && m in s.models && m !in plan;
    assert forall m :: m in byPruned ==> byPruned[m] == PruneChanges(m, s.models[m], managed, now);
    hide Union, AllGroupChanges, AllRowChanges, AllPruneChanges, AppliedModels;
  }

  lemma UnionHas<K, V>(index: map<K, set<V>>, v: V)
    ensures v in Union(index) <==> exists k :: k in index && v in index[k]
  {
  }

  lemma RowReportsItself(prior: Option<ModelRow>, spec: ModelSpec, managed: set<RegionName>, c: Change)
    requires c in RowChanges(prior, spec, managed)
    ensures ReportsModel(c, spec.modelId) && forall m :: ReportsModel(c, m) ==> m == spec.modelId
    ensures forall g :: !ReportsGroup(c, g)
  {
    hide DesiredDeployments, UpdateDetails, DeploymentDetails, TargetMap;
  }

  lemma PruneReportsItself(m: ModelId, row: ModelRow, managed: set<RegionName>, now: int, c: Change)
    requires c in PruneChanges(m, row, managed, now)
    ensures c.PruneBlocked? || ReportsModel(c, m)
    ensures (forall k :: ReportsModel(c, k) ==> k == m) && forall g :: !ReportsGroup(c, g)
  {
  }

  lemma GroupReportsItself(prior: Option<GroupRow>, spec: GroupSpec, managed: set<RegionName>, c: Change)
    requires c in GroupChanges(prior, spec, managed)
    ensures ReportsGroup(c, spec.slug) && forall g :: ReportsGroup(c, g) ==> g == spec.slug
    ensures forall m :: !ReportsModel(c, m)
  {
    hide FlippedRegions;
  }

  lemma {:induction false} SomeFieldChanged(prior: CatalogFields, desired: CatalogFields, n: nat)
    requires n <= 8 && ChangedFields(prior, desired, n) != []
    ensures exists k :: 0 <= k < n && Tz(prior[k]) != Tz(desired[k])
  {
    if Tz(prior[n - 1]) == Tz(desired[n - 1]) {
      SomeFieldChanged(prior, desired, n - 1);
    }
  }

  /** An update that leaves the row's own columns as they are reports nothing of them, and the other way round. */
  lemma UpsertReported(row: ModelRow, spec: ModelSpec)
    requires row.isAlias == spec.isAlias
    ensures UpsertedRow(Some(row), spec) == row <==> UpsertChanges(Some(row), spec) == {}
  {
    if UpdateDetails(row, spec) == [] {
      NoChangedFields(row.fields, spec.fields, 8);
      assert UpdatedFields(row.fields, spec.fields) == row.fields;
    } else if ChangedFields(row.fields, spec.fields, 8) != [] {
      SomeFieldChanged(row.fields, spec.fields, 8);
      var k :| 0 <= k < 8 && Tz(row.fields[k]) != Tz(spec.fields[k]);
      assert UpdatedFields(row.fields, spec.fields)[k] == spec.fields[k] != row.fields[k];
    }
  }

  lemma TargetsReported(row: ModelRow, spec: ModelSpec, managed: set<RegionName>)
    ensures NewTargets(Some(row), spec, managed) == row.targets <==> !Retargeted(Some(row), spec, managed)
  {
    if spec.isAlias {
      var desired := TargetMap(spec.aliasTargets, managed);
      forall r
        ensures r in desired ==> r in managed
      {
        TargetMapRegions(spec.aliasTargets, managed, r);
      }
      hide TargetMap;
      var after := Outside(row.targets, managed) + desired;
      assert Within(after, managed) == desired;
      if Within(row.targets, managed) == desired {
        assert after == row.targets;
      }
    }
  }

  lemma DeploymentReported(prior: Deployment, override: Option<Params>, now: int)
    ensures NewDeployment(Some(prior), override, now) == prior <==> DeploymentDetails(prior, override) == []
  {
  }

  lemma DeploymentsReported(
    prior: map<RegionName, Deployment>, desired: map<RegionName, Option<Params>>, managed: set<RegionName>, now: int)
    ensures ReconciledDeployments(prior, desired, managed, now) == prior <==> WrittenRegions(prior, desired, managed) == {}
  {
    hide NewDeployment, DeploymentDetails;
    var after := ReconciledDeployments(prior, desired, managed, now);
    forall r | r in prior.Keys + desired.Keys
      ensures r !in WrittenRegions(prior, desired, managed) <==> r in prior && after[r] == prior[r]
    {
      if r in prior && r in desired {
        DeploymentReported(prior[r], desired[r], now);
      }
    }
    if WrittenRegions(prior, desired, managed) == {} {
      assert forall r :: r in prior.Keys + desired.Keys ==> r !in WrittenRegions(prior, desired, managed);
      assert after.Keys == prior.Keys;
    } else {
      var r :| r in WrittenRegions(prior, desired, managed);
      assert r in prior.Keys + desired.Keys && r in after;
    }
  }

  lemma RowReported(row: ModelRow, spec: ModelSpec, managed: set<RegionName>, now: int)
    requires row.isAlias == spec.isAlias
    ensures NewRow(Some(row), spec, managed, now) == row <==> RowChanges(Some(row), spec, managed) == {}
  {
    UpsertReported(row, spec);
    TargetsReported(row, spec, managed);
    DeploymentsReported(row.deployments, DesiredDeployments(spec, managed), managed, now);
    hide UpsertChanges, Retargeted, NewTargets, ReconciledDeployments, WrittenRegions, DesiredDeployments, DeploymentChange;
    var written := WrittenRegions(row.deployments, DesiredDeployments(spec, managed), managed);
    if r :| r in written {
      assert DeploymentChange(spec.modelId, r, Get(row.deployments, r), Get(DesiredDeployments(spec, managed), r))
          in RowChanges(Some(row), spec, managed);
    }
    UpsertedKeeps(row, spec);
    hide UpsertedRow;
  }

  lemma UpsertedKeeps(row: ModelRow, spec: ModelSpec)
    ensures
      var up := UpsertedRow(Some(row), spec);
      && up.isAlias == row.isAlias && up.groups == row.groups
      && up.targets == row.targets && up.deployments == row.deployments
  {
  }

  lemma PruneReported(m: ModelId, row: ModelRow, managed: set<RegionName>, now: int)
    ensures PrunedRow(row, managed, now) == row <==> forall c :: c in PruneChanges(m, row, managed, now) ==> c.PruneBlocked?
  {
    if !PruneIsBlocked(row, now) {
      var after := PrunedRow(row, managed, now);
      if r :| r in PrunedRegions(row, managed, now) {
        assert after.deployments[r] != row.deployments[r];
        assert DeploymentDeactivated(m, r) in PruneChanges(m, row, managed, now);
      } else {
        forall r | r in row.deployments && row.deployments[r].active
          ensures r !in managed
        {
          assert r !in PrunedRegions(row, managed, now);
        }
        assert PrunedDeployments(row.deployments, managed, now) == row.deployments;
      }
      if row.active {
        assert ModelPruned(m) in PruneChanges(m, row, managed, now);
      }
    }
  }

  /** A model's row differs after an accepted request exactly if the request reports a change of it; a dry
      run reports the same. */
  lemma ModelReportsExactly(s: Store, cfg: Config, now: int, req: Request, m: ModelId)
    requires Accepts(s, cfg, req)
    ensures
      Get(Apply(s, cfg, now, req).store.models, m) != Get(s.models, m) <==>
      exists c :: c in Apply(s, cfg, now, req).changes && ReportsModel(c, m)
  {
    hide Apply, ManagedRegions, Plan, GroupPlan, NewRow, PrunedRow, RowChanges, PruneChanges, GroupChanges, ReportsModel,
         ReportsGroup, ModelAfter, RowAccepts, PruneIsBlocked;
    var managed, plan, groups := ManagedRegions(s.regions, cfg), Plan(req.models), GroupPlan(req.groups);
    var o := Apply(s, cfg, now, req);
    ModelOutcome(s, cfg, now, req, m);
    StoredRow(s, cfg, now, req, m);
    PlanMatches(req);
    GroupPlanFacts(req.groups);
    forall c
      ensures c in o.changes && ReportsModel(c, m) <==>
        || (m in plan && c in RowChanges(Get(s.models, m), plan[m], managed))
        || (req.prune && m in s.models && m !in plan && c in PruneChanges(m, s.models[m], managed, now) && !c.PruneBlocked?)
    {
      ReportsOf(s, cfg, now, req, m, c);
    }
    if m in plan {
      if m in s.models {
        SameKind(s, cfg, req, m);
        RowReported(s.models[m], plan[m], managed, now);
      } else {
        CreationReported(plan[m], managed);
      }
    } else if m in s.models {
      PruneReported(m, s.models[m], managed, now);
    }
  }

  /** The reports about a model are those of its own row. */
  lemma ReportsOf(s: Store, cfg: Config, now: int, req: Request, m: ModelId, c: Change)
    requires ValidRequest(req)
    ensures
      var managed, plan := ManagedRegions(s.regions, cfg), Plan(req.models);
      c in Apply(s, cfg, now, req).changes && ReportsModel(c, m) <==>
        || (m in plan && c in RowChanges(Get(s.models, m), plan[m], managed))
        || (req.prune && m in s.models && m !in plan && c in PruneChanges(m, s.models[m], managed, now) && !c.PruneBlocked?)
  {
    hide Apply, ManagedRegions, Plan, GroupPlan, RowChanges, PruneChanges, GroupChanges, ReportsModel, ReportsGroup;
    ReportCauses(s, cfg, now, req, c);
    ReportsOneRow(s, req, ManagedRegions(s.regions, cfg), now, m, c);
  }

  lemma DeploymentReportsOf(
    id: ModelId, before: map<RegionName, Deployment>, desired: map<RegionName, Option<Params>>, managed: set<RegionName>,
    r: RegionName, c: Change)
    requires c == DeploymentCreated(id, r) || c == DeploymentDeactivated(id, r)
    ensures c in DeploymentChanges(id, before, desired, managed) <==>
      r in WrittenRegions(before, desired, managed) && DeploymentChange(id, r, Get(before, r), Get(desired, r)) == c
  {
    hide WrittenRegions, DeploymentDetails;
  }

  lemma DeploymentLifecycle(
    id: ModelId, before: map<RegionName, Deployment>, desired: map<RegionName, Option<Params>>, managed: set<RegionName>,
    now: int, r: RegionName)
    requires desired.Keys <= managed
    ensures
      var after, changes := ReconciledDeployments(before, desired, managed, now), DeploymentChanges(id, before, desired, managed);
      && (DeploymentCreated(id, r) in changes <==> r !in before && r in after)
      && (DeploymentDeactivated(id, r) in changes <==>
           r in before && before[r].active && r in after && !after[r].active)
  {
    DeploymentReportsOf(id, before, desired, managed, r, DeploymentCreated(id, r));
    DeploymentReportsOf(id, before, desired, managed, r, DeploymentDeactivated(id, r));
    hide DeploymentChanges, Resolved;
  }

  lemma RowLifecycle(prior: Option<ModelRow>, spec: ModelSpec, managed: set<RegionName>, now: int, r: RegionName)
    ensures
      var after, changes := NewRow(prior, spec, managed, now), RowChanges(prior, spec, managed);
      && (ModelCreated(spec.modelId) in changes <==> prior.None?)
      && ModelPruned(spec.modelId) !in changes && after.active
      && (DeploymentCreated(spec.modelId, r) in changes <==> r !in OldDeployments(prior) && r in after.deployments)
      && (DeploymentDeactivated(spec.modelId, r) in changes <==>
           r in OldDeployments(prior) && OldDeployments(prior)[r].active && r in after.deployments && !after.deployments[r].active)
  {
    DesiredIsManaged(spec, managed);
    DeploymentLifecycle(spec.modelId, OldDeployments(prior), DesiredDeployments(spec, managed), managed, now, r);
    ReportParts(prior, spec, managed, ModelCreated(spec.modelId));
    ReportParts(prior, spec, managed, ModelPruned(spec.modelId));
    ReportParts(prior, spec, managed, DeploymentCreated(spec.modelId, r));
    ReportParts(prior, spec, managed, DeploymentDeactivated(spec.modelId, r));
    hide DesiredDeployments, NewTargets, UpdatedFields, UpdateDetails, DeploymentChanges, ReconciledDeployments, RowChanges;
  }

  lemma ReportParts(prior: Option<ModelRow>, spec: ModelSpec, managed: set<RegionName>, c: Change)
    requires c.ModelCreated? || c.ModelPruned? || c.DeploymentCreated? || c.DeploymentDeactivated?
    ensures c in RowChanges(prior, spec, managed) <==>
      if c.ModelCreated? || c.ModelPruned? then c in UpsertChanges(prior, spec)
      else c in DeploymentChanges(spec.modelId, OldDeployments(prior), DesiredDeployments(spec, managed), managed)
  {
    hide DesiredDeployments, WrittenRegions, UpdateDetails, Retargeted, DeploymentDetails;
  }

  lemma PruneLifecycle(m: ModelId, row: ModelRow, managed: set<RegionName>, now: int, r: RegionName)
    ensures
      var after, changes := PrunedRow(row, managed, now), PruneChanges(m, row, managed, now);
      && ModelCreated(m) !in changes && DeploymentCreated(m, r) !in changes
      && after.deployments.Keys == row.deployments.Keys
      && (ModelPruned(m) in changes <==> row.active && !after.active)
      && (DeploymentDeactivated(m, r) in changes <==>
           r in row.deployments && row.deployments[r].active && !after.deployments[r].active)
  {
  }

  /** What the reports say of a model's life is so: it is reported created, pruned, deployed anew or taken
      out of a region exactly if its rows say that before and after. */
  lemma LifecycleReports(s: Store, cfg: Config, now: int, req: Request, m: ModelId, r: RegionName)
    requires Accepts(s, cfg, req)
    ensures
      var o := Apply(s, cfg, now, req);
      var before, after := Get(s.models, m), Get(o.store.models, m);
      && (ModelCreated(m) in o.changes <==> before.None? && after.Some?)
      && (ModelPruned(m) in o.changes <==> before.Some? && after.Some? && before.value.active && !after.value.active)
      && (DeploymentCreated(m, r) in o.changes <==>
           after.Some? && r in after.value.deployments && (before.None? || r !in before.value.deployments))
      && (DeploymentDeactivated(m, r) in o.changes <==>
           && before.Some? && r in before.value.deployments && before.value.deployments[r].active
           && after.Some? && r in after.value.deployments && !after.value.deployments[r].active)
  {
    hide Apply, ManagedRegions, Plan, NewRow, PrunedRow, RowChanges, PruneChanges, ModelAfter, ValidRequest, RowAccepts;
    ReportsOf(s, cfg, now, req, m, ModelCreated(m));
    ReportsOf(s, cfg, now, req, m, ModelPruned(m));
    ReportsOf(s, cfg, now, req, m, DeploymentCreated(m, r));
    ReportsOf(s, cfg, now, req, m, DeploymentDeactivated(m, r));
    PlanMatches(req);
    hide Accepts;
    ModelOutcome(s, cfg, now, req, m);
    StoredRow(s, cfg, now, req, m);
    var managed := ManagedRegions(s.regions, cfg);
    if m in Plan(req.models) {
      RowLifecycle(Get(s.models, m), Plan(req.models)[m], managed, now, r);
    } else if m in s.models {
      PruneLifecycle(m, s.models[m], managed, now, r);
    }
  }

  lemma CreationReported(spec: ModelSpec, managed: set<RegionName>)
    ensures ModelCreated(spec.modelId) in RowChanges(None, spec, managed)
  {
    hide DeploymentChanges, Retargeted;
  }

  lemma SameKind(s: Store, cfg: Config, req: Request, m: ModelId)
    requires Accepts(s, cfg, req) && m in Plan(req.models) && m in s.models
    ensures s.models[m].isAlias == Plan(req.models)[m].isAlias
  {
    PlanMatches(req);
    hide Plan, ManagedRegions, ValidRequest, NewOverridesClean, ContainsSentinel;
    assert SpecAccepted(s.models, Plan(req.models), Plan(req.models)[m], ManagedRegions(s.regions, cfg));
  }

  /** Each report is about the row that causes it, and about no other. */
  lemma ReportsOneRow(s: Store, req: Request, managed: set<RegionName>, now: int, m: ModelId, c: Change)
    requires ValidRequest(req)
    ensures
      var plan, groups := Plan(req.models), GroupPlan(req.groups);
      && (forall k :: k in plan && c in RowChanges(Get(s.models, k), plan[k], managed) ==> (ReportsModel(c, m) <==> k == m))
      && (forall k :: k in s.models && c in PruneChanges(k, s.models[k], managed, now) ==>
           (ReportsModel(c, m) <==> k == m && !c.PruneBlocked?))
      && (forall g :: g in groups && c in GroupChanges(Get(s.groups, g), groups[g], managed) ==> !ReportsModel(c, m))
      && (forall k, g :: k in plan && c in RowChanges(Get(s.models, k), plan[k], managed) ==> !ReportsGroup(c, g))
      && (forall k, g :: k in s.models && c in PruneChanges(k, s.models[k], managed, now) ==> !ReportsGroup(c, g))
      && (forall k, g :: k in groups && c in GroupChanges(Get(s.groups, k), groups[k], managed) ==> (ReportsGroup(c, g) <==> g == k))
  {
    hide RowChanges, PruneChanges, GroupChanges, Plan, GroupPlan;
    PlanMatches(req);
    GroupPlanFacts(req.groups);
    var plan, groups := Plan(req.models), GroupPlan(req.groups);
    forall k | k in plan && c in RowChanges(Get(s.models, k), plan[k], managed)
      ensures (ReportsModel(c, m) <==> k == m) && forall g :: !ReportsGroup(c, g)
    {
      RowReportsItself(Get(s.models, k), plan[k], managed, c);
    }
    forall k | k in s.models && c in PruneChanges(k, s.models[k], managed, now)
      ensures (ReportsModel(c, m) <==> k == m && !c.PruneBlocked?) && forall g :: !ReportsGroup(c, g)
    {
      PruneReportsItself(k, s.models[k], managed, now, c);
    }
    forall k | k in groups && c in GroupChanges(Get(s.groups, k), groups[k], managed)
      ensures !ReportsModel(c, m) && forall g :: ReportsGroup(c, g) <==> g == k
    {
      GroupReportsItself(Get(s.groups, k), groups[k], managed, c);
    }
  }

  lemma GroupReported(row: GroupRow, spec: GroupSpec, managed: set<RegionName>)
    ensures NewGroup(Some(row), spec, managed) == row <==> GroupChanges(Some(row), spec, managed) == {}
  {
    var after, flipped := NewGroup(Some(row), spec, managed), FlippedRegions(Some(row), spec, managed);
    assert forall r :: r in flipped <==> r in managed && (r in row.regions <==> r !in spec.regions);
    if flipped == {} {
      assert forall r :: r in managed ==> (r in row.regions <==> r in spec.regions);
      assert after.regions == row.regions;
    } else {
      var r :| r in flipped;
      assert r in after.regions <==> r !in row.regions;
    }
  }

  /** The same for groups. */
  lemma GroupReportsExactly(s: Store, cfg: Config, now: int, req: Request, g: Slug)
    requires Accepts(s, cfg, req)
    ensures
      Get(Apply(s, cfg, now, req).store.groups, g) != Get(s.groups, g) <==>
      exists c :: c in Apply(s, cfg, now, req).changes && ReportsGroup(c, g)
  {
    hide Apply, ManagedRegions, Plan, GroupPlan, NewGroup, RowChanges, PruneChanges, ReportsModel, FlippedRegions,
         ReportsGroup, RowAccepts;
    var managed, groups := ManagedRegions(s.regions, cfg), GroupPlan(req.groups);
    var o := Apply(s, cfg, now, req);
    GroupOutcome(s, cfg, now, req, g);
    GroupPlanFacts(req.groups);
    forall c
      ensures c in o.changes && ReportsGroup(c, g) <==> g in groups && c in GroupChanges(Get(s.groups, g), groups[g], managed)
    {
      ReportCauses(s, cfg, now, req, c);
      ReportsOneRow(s, req, managed, now, "", c);
    }
    if g in groups && g in s.groups {
      GroupReported(s.groups[g], groups[g], managed);
    } else if g in groups {
      assert GroupCreated(g) in GroupChanges(None, groups[g], managed);
    }
  }
}
