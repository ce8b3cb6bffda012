/** What a maintainer is promised about applying a desired state. */
module CatalogTheorems {
  import opened Common
  import opened Credentials
  import opened Catalog
  import opened CatalogPlans

  // ----- The order of a request does not matter -----

  ghost predicate Permuted(a: Request, b: Request) {
    && a.dryRun == b.dryRun
    && a.prune == b.prune
    && multiset(a.models) == multiset(b.models)
    && multiset(a.groups) == multiset(b.groups)
  }

  lemma SameSlugs(a: seq<GroupSpec>, b: seq<GroupSpec>)
    requires forall spec :: spec in a <==> spec in b
    ensures Elements(Slugs(a)) == Elements(Slugs(b))
  {
    forall g | g in Slugs(a)
      ensures g in Slugs(b)
    {
      var i :| 0 <= i < |a| && Slugs(a)[i] == g;
      assert a[i] in b;
      var j :| 0 <= j < |b| && b[j] == a[i];
      assert Slugs(b)[j] == g;
    }
    forall g | g in Slugs(b)
      ensures g in Slugs(a)
    {
      var i :| 0 <= i < |b| && Slugs(b)[i] == g;
      assert b[i] in a;
      var j :| 0 <= j < |a| && a[j] == b[i];
      assert Slugs(a)[j] == g;
    }
  }

  lemma PermutedIsValid(a: Request, b: Request)
    requires Permuted(a, b) && ValidRequest(a)
    ensures ValidRequest(b)
    ensures Plan(a.models) == Plan(b.models) && GroupPlan(a.groups) == GroupPlan(b.groups)
  {
    PermutedModelIds(a.models, b.models);
    PermutedSlugs(a.groups, b.groups);
    SameSlugs(a.groups, b.groups);
    SamePlan(a.models, b.models);
    SameGroupPlan(a.groups, b.groups);
    hide Plan, GroupPlan, ModelIds, Slugs, Distinct, ValidSpec;
    assert |multiset(a.models)| == |a.models| && |multiset(b.models)| == |b.models|;
  }

  /** The same decision, the same store, the same reports and the same pushes, in any order. */
  lemma OrderIndependence(s: Store, cfg: Config, now: int, a: Request, b: Request)
    requires Permuted(a, b)
    ensures Accepts(s, cfg, a) <==> Accepts(s, cfg, b)
    ensures Accepts(s, cfg, a) ==> Apply(s, cfg, now, a) == Apply(s, cfg, now, b)
  {
    hide ValidRequest, PlanAccepted, ManagedRegions, Plan, GroupPlan;
    if ValidRequest(a) {
      PermutedIsValid(a, b);
    }
    if ValidRequest(b) {
      PermutedIsValid(b, a);
    }
  }

  // ----- The outcome, row by row -----

  ghost function ModelAfter(s: Store, cfg: Config, now: int, req: Request, m: ModelId): Option<ModelRow> {
    Get(Apply(s, cfg, now, req).store.models, m)
  }

  lemma ModelOutcome(s: Store, cfg: Config, now: int, req: Request, m: ModelId)
    ensures
      var managed := ManagedRegions(s.regions, cfg);
      var plan := Plan(req.models);
      ModelAfter(s, cfg, now, req, m) ==
        if m in plan then Some(NewRow(Get(s.models, m), plan[m], managed, now))
        else if m in s.models && req.prune then Some(PrunedRow(s.models[m], managed, now))
        else Get(s.models, m)
  {
    hide NewRow, PrunedRow, ManagedRegions, Plan, GroupPlan, AllGroupChanges, AllRowChanges, AllPruneChanges,
         WrittenPairs, ActivePairs, RetaggedPairs, PrunedPairs, CatalogChangedModels, ChangedGroupRegions, BlockedModels,
         AppliedGroups;
  }

  lemma StoredRow(s: Store, cfg: Config, now: int, req: Request, m: ModelId)
    ensures ModelAfter(s, cfg, now, req, m) == Get(Apply(s, cfg, now, req).store.models, m)
  {
  }

  lemma GroupOutcome(s: Store, cfg: Config, now: int, req: Request, g: Slug)
    ensures
      var managed := ManagedRegions(s.regions, cfg);
      var plan := GroupPlan(req.groups);
      Get(Apply(s, cfg, now, req).store.groups, g) ==
        if g in plan then Some(NewGroup(Get(s.groups, g), plan[g], managed)) else Get(s.groups, g)
  {
    hide NewGroup, ManagedRegions, Plan, GroupPlan, AllGroupChanges, AllRowChanges, AllPruneChanges,
         WrittenPairs, ActivePairs, RetaggedPairs, PrunedPairs, CatalogChangedModels, ChangedGroupRegions, BlockedModels,
         AppliedModels, PrunedModels;
  }

  // ----- Desired state and frame -----

  /** The regions a specification asks for. */
  ghost predicate Lists(spec: ModelSpec, r: RegionName) {
    if spec.isAlias then r in TargetRegions(spec.aliasTargets) else r in DeploymentRegions(spec.deployments)
  }

  lemma {:induction false} TargetMapRegions(ts: seq<TargetSpec>, managed: set<RegionName>, r: RegionName)
    ensures r in TargetMap(ts, managed) <==> r in managed && r in TargetRegions(ts)
  {
    if ts != [] {
      var n := |ts| - 1;
      TargetMapRegions(ts[..n], managed, r);
      assert TargetRegions(ts) == TargetRegions(ts[..n]) + [ts[n].region];
    }
  }

  lemma {:induction false} DeploymentMapRegions(ds: seq<DeploymentSpec>, managed: set<RegionName>, r: RegionName)
    ensures r in DeploymentMap(ds, managed) <==> r in managed && r in DeploymentRegions(ds)
  {
    if ds != [] {
      var n := |ds| - 1;
      DeploymentMapRegions(ds[..n], managed, r);
      assert DeploymentRegions(ds) == DeploymentRegions(ds[..n]) + [ds[n].region];
    }
  }

  lemma DesiredRegions(spec: ModelSpec, managed: set<RegionName>, r: RegionName)
    ensures r in DesiredDeployments(spec, managed) <==> r in managed && Lists(spec, r)
  {
    TargetMapRegions(spec.aliasTargets, managed, r);
    DeploymentMapRegions(spec.deployments, managed, r);
  }

  lemma DesiredIsManaged(spec: ModelSpec, managed: set<RegionName>)
    ensures DesiredDeployments(spec, managed).Keys <= managed
  {
    forall r | r in DesiredDeployments(spec, managed)
      ensures r in managed
    {
      DesiredRegions(spec, managed, r);
    }
  }

  predicate Live(row: ModelRow, r: RegionName) {
    r in row.deployments && row.deployments[r].active
  }

  lemma NewRowRegion(prior: Option<ModelRow>, spec: ModelSpec, managed: set<RegionName>, now: int, r: RegionName)
    ensures
      var row := NewRow(prior, spec, managed, now);
      && (r in managed ==> (Live(row, r) <==> Lists(spec, r)))
      && (r !in managed ==>
            && Get(row.deployments, r) == Get(OldDeployments(prior), r)
            && Get(row.targets, r) == Get(OldTargets(prior), r))
  {
    DesiredRegions(spec, managed, r);
    TargetMapRegions(spec.aliasTargets, managed, r);
    hide DesiredDeployments, Lists, TargetMap, UpsertedRow;
  }

  /** A model of an accepted request ends as requested: its live managed deployments are
      exactly the listed ones, it is active, and its groups are the listed ones. */
  lemma DesiredState(s: Store, cfg: Config, now: int, req: Request, spec: ModelSpec, r: RegionName)
    requires Accepts(s, cfg, req) && spec in req.models
    ensures
      var after := ModelAfter(s, cfg, now, req, spec.modelId);
      && after.Some?
      && after.value.active
      && after.value.groups == Elements(spec.accessGroups)
      && (r in ManagedRegions(s.regions, cfg) ==> (Live(after.value, r) <==> Lists(spec, r)))
  {
    hide Plan, Lists, ManagedRegions, ModelAfter, Live, NewTargets, ReconciledDeployments;
    PlanFacts(req.models);
    ModelOutcome(s, cfg, now, req, spec.modelId);
    NewRowRegion(Get(s.models, spec.modelId), spec, ManagedRegions(s.regions, cfg), now, r);
  }

  lemma {:induction false} ListedTarget(ts: seq<TargetSpec>, managed: set<RegionName>, t: TargetSpec)
    requires Distinct(TargetRegions(ts)) && t in ts && t.region in managed
    ensures Get(TargetMap(ts, managed), t.region) == Some(t.target)
  {
    var n := |ts| - 1;
    assert TargetRegions(ts) == TargetRegions(ts[..n]) + [ts[n].region];
    if t != ts[n] {
      var k :| 0 <= k < n && ts[k] == t;
      assert ts[..n][k] == t;
      assert TargetRegions(ts)[k] == t.region && TargetRegions(ts)[n] == ts[n].region;
      assert forall a :: 0 <= a < n ==> TargetRegions(ts[..n])[a] == TargetRegions(ts)[a];
      ListedTarget(ts[..n], managed, t);
    }
  }

  lemma {:induction false} ListedDeployment(ds: seq<DeploymentSpec>, managed: set<RegionName>, d: DeploymentSpec)
    requires Distinct(DeploymentRegions(ds)) && d in ds && d.region in managed
    ensures Get(DeploymentMap(ds, managed), d.region) == Some(d.override)
  {
    var n := |ds| - 1;
    assert DeploymentRegions(ds) == DeploymentRegions(ds[..n]) + [ds[n].region];
    if d != ds[n] {
      var k :| 0 <= k < n && ds[k] == d;
      assert ds[..n][k] == d;
      assert DeploymentRegions(ds)[k] == d.region && DeploymentRegions(ds)[n] == ds[n].region;
      assert forall a :: 0 <= a < n ==> DeploymentRegions(ds[..n])[a] == DeploymentRegions(ds)[a];
      ListedDeployment(ds[..n], managed, d);
    }
  }

  lemma {:induction false} MappedDeployment(ds: seq<DeploymentSpec>, managed: set<RegionName>, r: RegionName)
    requires r in DeploymentMap(ds, managed)
    ensures r in managed && exists d :: d in ds && d.region == r && DeploymentMap(ds, managed)[r] == d.override
  {
    var n := |ds| - 1;
    if !(ds[n].region == r && r in managed) {
      MappedDeployment(ds[..n], managed, r);
      var d :| d in ds[..n] && d.region == r && DeploymentMap(ds[..n], managed)[r] == d.override;
      assert d in ds;
    }
  }

  /** What was stored for a document, if anything. */
  function StoredParams(prior: Option<ModelRow>): Params {
    if prior.Some? then Given(prior.value.params) else map[]
  }

  function StoredOverride(prior: Option<ModelRow>, r: RegionName): Params {
    if r in OldDeployments(prior) then Given(OldDeployments(prior)[r].override) else map[]
  }

  /** The same value; two dates are the same if they are the same instant, with or without a time zone. */
  predicate SameValue(a: FieldValue, b: FieldValue) {
    a == b || (a.Date? && b.Date? && a.date.Some? && b.date.Some? && a.date.value.t == b.date.value.t)
  }

  lemma NewRowContent(prior: Option<ModelRow>, spec: ModelSpec, managed: set<RegionName>, now: int)
    requires ValidShape(spec) && RowAccepts(prior, spec, managed)
    ensures
      var row := NewRow(prior, spec, managed, now);
      && row.isAlias == spec.isAlias
      && (forall i :: 0 <= i < 8 ==> SameValue(row.fields[i], spec.fields[i]))
      && (!spec.isAlias ==>
           Given(row.params) == if prior.None? then Given(spec.params) else Merge(Given(spec.params), StoredParams(prior)))
      && (spec.isAlias ==> row.params == if prior.None? then None else prior.value.params)
  {
    hide ReconciledDeployments, DesiredDeployments, NewTargets, NewOverridesClean, ContainsSentinel;
  }

  /** What is stored for a deployment that comes without an override. */
  lemma NoOverride(prior: Option<Deployment>, now: int)
    ensures NewDeployment(prior, None, now).override == None
  {
    forall stored
      ensures Resolved(None, stored) == None
    {
      assert Merge(map[], Given(stored)) == map[];
    }
  }

  lemma NewRowListing(prior: Option<ModelRow>, spec: ModelSpec, managed: set<RegionName>, now: int)
    requires ValidShape(spec)
    ensures
      var row := NewRow(prior, spec, managed, now);
      && (forall t :: t in spec.aliasTargets && t.region in managed ==>
           && Get(row.targets, t.region) == Some(t.target)
           && (spec.isAlias ==> t.region in row.deployments && row.deployments[t.region].override == None))
      && (forall d :: d in spec.deployments && d.region in managed ==>
           && d.region in row.deployments
           && Given(row.deployments[d.region].override) == Merge(Given(d.override), StoredOverride(prior, d.region)))
  {
    hide UpsertedRow, TargetMap, DeploymentMap, Merge;
    forall t | t in spec.aliasTargets && t.region in managed
      ensures Get(TargetMap(spec.aliasTargets, managed), t.region) == Some(t.target)
      ensures NewDeployment(Get(OldDeployments(prior), t.region), None, now).override == None
    {
      ListedTarget(spec.aliasTargets, managed, t);
      NoOverride(Get(OldDeployments(prior), t.region), now);
    }
    forall d | d in spec.deployments && d.region in managed
      ensures Get(DeploymentMap(spec.deployments, managed), d.region) == Some(d.override)
    {
      ListedDeployment(spec.deployments, managed, d);
    }
  }

  /** And with the listed content: its catalog fields, its parameters and overrides, with redacted places
      filled in from what was stored, and its alias targets. */
  lemma DesiredContent(s: Store, cfg: Config, now: int, req: Request, spec: ModelSpec)
    requires Accepts(s, cfg, req) && spec in req.models
    ensures
      var managed := ManagedRegions(s.regions, cfg);
      var prior, after := Get(s.models, spec.modelId), ModelAfter(s, cfg, now, req, spec.modelId);
      after.Some? && var row := after.value;
      && row.isAlias == spec.isAlias
      && (forall i :: 0 <= i < 8 ==> SameValue(row.fields[i], spec.fields[i]))
      && (!spec.isAlias ==>
           Given(row.params) == if prior.None? then Given(spec.params) else Merge(Given(spec.params), StoredParams(prior)))
      && (spec.isAlias ==> row.params == if prior.None? then None else prior.value.params)
      && (forall t :: t in spec.aliasTargets && t.region in managed ==>
           && Get(row.targets, t.region) == Some(t.target)
           && (spec.isAlias ==> t.region in row.deployments && row.deployments[t.region].override == None))
      && (forall d :: d in spec.deployments && d.region in managed ==>
           && d.region in row.deployments
           && Given(row.deployments[d.region].override) == Merge(Given(d.override), StoredOverride(prior, d.region)))
  {
    hide Plan, ManagedRegions, ModelAfter, NewRow, Merge, RowAccepts, ValidShape;
    PlanFacts(req.models);
    ModelOutcome(s, cfg, now, req, spec.modelId);
    NewRowContent(Get(s.models, spec.modelId), spec, ManagedRegions(s.regions, cfg), now);
    NewRowListing(Get(s.models, spec.modelId), spec, ManagedRegions(s.regions, cfg), now);
  }

  /** A group of an accepted request ends with its label and description, and deployed, in managed
      regions, exactly where listed. */
  lemma DesiredGroups(s: Store, cfg: Config, now: int, req: Request, spec: GroupSpec, r: RegionName)
    requires Accepts(s, cfg, req) && spec in req.groups
    ensures
      var after := Get(Apply(s, cfg, now, req).store.groups, spec.slug);
      && after.Some?
      && after.value.labelText == spec.labelText && after.value.description == spec.description
      && (r in ManagedRegions(s.regions, cfg) ==> (r in after.value.regions <==> r in spec.regions))
  {
    hide GroupPlan, Apply, ManagedRegions;
    GroupPlanFacts(req.groups);
    GroupOutcome(s, cfg, now, req, spec.slug);
  }

  /** Nothing outside the managed regions is written: no deployment, no alias target, no group
      deployment; and what the request does not name changes only by pruning. */
  lemma Frame(s: Store, cfg: Config, now: int, req: Request, m: ModelId, g: Slug, r: RegionName)
    requires r !in ManagedRegions(s.regions, cfg)
    ensures
      var after := Apply(s, cfg, now, req).store;
      var prior := Get(s.models, m);
      && after.regions == s.regions
      && (m in s.models ==> m in after.models)
      && (g in s.groups ==> g in after.groups)
      && (m in after.models ==>
            && Get(after.models[m].deployments, r) == Get(OldDeployments(prior), r)
            && Get(after.models[m].targets, r) == Get(OldTargets(prior), r))
      && (g in after.groups ==> (r in after.groups[g].regions <==> g in s.groups && r in s.groups[g].regions))
      && (m in s.models && m !in Plan(req.models) && !req.prune ==> after.models[m] == s.models[m])
      && (g in s.groups && g !in GroupPlan(req.groups) ==> after.groups[g] == s.groups[g])
  {
    hide Plan, GroupPlan, ManagedRegions, PruneIsBlocked, NewRow, Apply;
    var managed := ManagedRegions(s.regions, cfg);
    ModelOutcome(s, cfg, now, req, m);
    GroupOutcome(s, cfg, now, req, g);
    if m in Plan(req.models) {
      NewRowRegion(Get(s.models, m), Plan(req.models)[m], managed, now, r);
    }
    ApplyKeepsRegions(s, cfg, now, req);
  }

  lemma ApplyKeepsRegions(s: Store, cfg: Config, now: int, req: Request)
    ensures Apply(s, cfg, now, req).store.regions == s.regions
  {
  }

  // ----- Pushes: what is owed -----

  /** The groups a deployment is tagged with: those that hold the model and are deployed there. */
  function Tags(groups: map<Slug, GroupRow>, row: ModelRow, r: RegionName): set<Slug> {
    set g | g in row.groups && g in groups && r in groups[g].regions
  }

  /** What the catalog itself says about one deployment; nothing when it is deregistered. */
  datatype Content = Content(
    fields: CatalogFields,
    isAlias: bool,
    params: Option<Params>,
    override: Option<Params>,
    target: Option<ModelId>,
    tags: set<Slug>)

  function RowContent(row: ModelRow, r: RegionName, tags: set<Slug>): Option<Content> {
    if row.active && Live(row, r)
    then Some(Content(row.fields, row.isAlias, row.params, row.deployments[r].override, Get(row.targets, r), tags))
    else None
  }

  function Pushed(s: Store, m: ModelId, r: RegionName): Option<Content> {
    if m in s.models then RowContent(s.models[m], r, Tags(s.groups, s.models[m], r)) else None
  }

  lemma {:induction false} NoChangedFields(prior: CatalogFields, desired: CatalogFields, n: nat)
    requires n <= 8 && ChangedFields(prior, desired, n) == []
    ensures forall k :: 0 <= k < n ==> Tz(prior[k]) == Tz(desired[k])
  {
    if n > 0 {
      NoChangedFields(prior, desired, n - 1);
    }
  }

  /** A row that reports no catalog change keeps everything that is pushed with it. */
  lemma UnchangedRow(prior: ModelRow, spec: ModelSpec, managed: set<RegionName>, now: int, r: RegionName)
    requires !CatalogChanged(Some(prior), spec, managed) && r in managed
    ensures
      var row := NewRow(Some(prior), spec, managed, now);
      && row.fields == prior.fields && row.isAlias == prior.isAlias && row.active && prior.active
      && row.params == prior.params && row.groups == prior.groups
      && Get(row.targets, r) == Get(prior.targets, r)
  {
    hide ReconciledDeployments, DesiredDeployments;
    assert UpdateDetails(prior, spec) == [];
    NoChangedFields(prior.fields, spec.fields, 8);
    assert UpdatedFields(prior.fields, spec.fields) == prior.fields;
    assert spec.isAlias ==> Get(TargetMap(spec.aliasTargets, managed), r) == Get(Within(prior.targets, managed), r);
  }

  lemma UnwrittenRegion(prior: Option<ModelRow>, spec: ModelSpec, managed: set<RegionName>, now: int, r: RegionName)
    requires r !in RowToSync(prior, spec, managed)
    ensures Get(NewRow(prior, spec, managed, now).deployments, r) == Get(OldDeployments(prior), r)
  {
    hide DesiredDeployments, UpsertedRow, NewTargets;
  }

  lemma MemberIsRetagged(
    models: map<ModelId, ModelRow>, groups: map<Slug, GroupRow>, plan: map<Slug, GroupSpec>, managed: set<RegionName>,
    m: ModelId, r: RegionName)
    requires m in models && Live(models[m], r) && r in managed
    requires Tags(groups, models[m], r) != Tags(AppliedGroups(groups, plan, managed), models[m], r)
    ensures (m, r) in RetaggedPairs(models, ChangedGroupRegions(groups, plan, managed))
  {
    var after := AppliedGroups(groups, plan, managed);
    var row := models[m];
    assert exists g :: g in row.groups && (g in Tags(groups, row, r) <==> g !in Tags(after, row, r));
    var g :| g in row.groups && (g in Tags(groups, row, r) <==> g !in Tags(after, row, r));
    assert g in plan && r in FlippedRegions(Get(groups, g), plan[g], managed);
    var flipped := ChangedGroupRegions(groups, plan, managed);
    assert (m, r) in MemberPairs(models, g, flipped[g]);
    var index := map h | h in flipped :: MemberPairs(models, h, flipped[h]);
    assert g in index && (m, r) in index[g];
  }

  ghost function Owed(s: Store, cfg: Config, now: int, req: Request): set<Pair> {
    Apply(s, cfg, now, req).syncs
  }

  /** The pushes of an outcome, by cause. */
  lemma OwedCauses(s: Store, cfg: Config, now: int, req: Request, m: ModelId, r: RegionName)
    ensures
      var managed := ManagedRegions(s.regions, cfg);
      var plan := Plan(req.models);
      var models := AppliedModels(s.models, plan, managed, now);
      (m, r) in Owed(s, cfg, now, req) <==>
        || (m in plan && r in RowToSync(Get(s.models, m), plan[m], managed))
        || (m in plan && CatalogChanged(Get(s.models, m), plan[m], managed) && Live(models[m], r) && r in managed)
        || (m, r) in RetaggedPairs(models, ChangedGroupRegions(s.groups, GroupPlan(req.groups), managed))
        || (req.prune && m in s.models && m !in plan && r in PrunedRegions(s.models[m], managed, now))
  {
    hide CatalogChanged, RowToSync, PrunedRegions, RetaggedPairs, ChangedGroupRegions, Plan, GroupPlan, NewRow,
         AllRowChanges, AllGroupChanges, AllPruneChanges, AppliedGroups, PrunedModels, BlockedModels, ManagedRegions;
  }

  lemma RetaggedIsManaged(
    models: map<ModelId, ModelRow>, groups: map<Slug, GroupRow>, plan: map<Slug, GroupSpec>, managed: set<RegionName>,
    m: ModelId, r: RegionName)
    requires (m, r) in RetaggedPairs(models, ChangedGroupRegions(groups, plan, managed))
    ensures r in managed && m in models && Live(models[m], r)
  {
    var flipped := ChangedGroupRegions(groups, plan, managed);
    var g :| g in flipped && (m, r) in MemberPairs(models, g, flipped[g]);
  }

  /** No push is ever owed outside the managed regions, or without a deployment row. */
  lemma SyncScope(s: Store, cfg: Config, now: int, req: Request, m: ModelId, r: RegionName)
    requires (m, r) in Owed(s, cfg, now, req)
    ensures r in ManagedRegions(s.regions, cfg)
    ensures ModelAfter(s, cfg, now, req, m).Some? && r in ModelAfter(s, cfg, now, req, m).value.deployments
  {
    hide Owed, Plan, GroupPlan, ManagedRegions, RetaggedPairs, ChangedGroupRegions, ModelAfter, Lists, CatalogChanged,
         PruneIsBlocked, UpsertedRow, NewTargets;
    var managed := ManagedRegions(s.regions, cfg);
    var models := AppliedModels(s.models, Plan(req.models), managed, now);
    OwedCauses(s, cfg, now, req, m, r);
    ModelOutcome(s, cfg, now, req, m);
    if m in Plan(req.models) && r in RowToSync(Get(s.models, m), Plan(req.models)[m], managed) {
      DesiredRegions(Plan(req.models)[m], managed, r);
    }
    if (m, r) in RetaggedPairs(models, ChangedGroupRegions(s.groups, GroupPlan(req.groups), managed)) {
      RetaggedIsManaged(models, s.groups, GroupPlan(req.groups), managed, m, r);
    }
  }

  /** Whatever the catalog says differently about a managed deployment is pushed. */
  lemma SyncComplete(s: Store, cfg: Config, now: int, req: Request, m: ModelId, r: RegionName)
    requires r in ManagedRegions(s.regions, cfg)
    requires Pushed(s, m, r) != Pushed(Apply(s, cfg, now, req).store, m, r)
    ensures (m, r) in Owed(s, cfg, now, req)
  {
    hide Owed, Plan, GroupPlan, ManagedRegions, RetaggedPairs, ChangedGroupRegions, CatalogChanged, RowToSync,
         NewRow, PruneIsBlocked, Tags, Apply, AppliedGroups, PrunedRegions, PrunedRow;
    var managed := ManagedRegions(s.regions, cfg);
    var plan, groupPlan := Plan(req.models), GroupPlan(req.groups);
    var models := AppliedModels(s.models, plan, managed, now);
    OwedCauses(s, cfg, now, req, m, r);
    ModelOutcome(s, cfg, now, req, m);
    StoreAfter(s, cfg, now, req);
    if m in plan {
      if r !in RowToSync(Get(s.models, m), plan[m], managed) {
        UnwrittenRegion(Get(s.models, m), plan[m], managed, now, r);
        if !CatalogChanged(Get(s.models, m), plan[m], managed) {
          ChangedWhenNew(plan[m], managed);
          UnchangedRow(s.models[m], plan[m], managed, now, r);
          TagsOfSameGroups(s.groups, s.models[m], models[m], r);
          TagsOfSameGroups(AppliedGroups(s.groups, groupPlan, managed), s.models[m], models[m], r);
          MemberIsRetagged(models, s.groups, groupPlan, managed, m, r);
        }
      }
    } else if m in s.models {
      PrunedRowPush(s.models[m], managed, now, r);
      if !req.prune || r !in PrunedRegions(s.models[m], managed, now) {
        MemberIsRetagged(models, s.groups, groupPlan, managed, m, r);
      }
    }
  }

  lemma StoreAfter(s: Store, cfg: Config, now: int, req: Request)
    ensures Apply(s, cfg, now, req).store.groups ==
            AppliedGroups(s.groups, GroupPlan(req.groups), ManagedRegions(s.regions, cfg))
  {
  }

  lemma ChangedWhenNew(spec: ModelSpec, managed: set<RegionName>)
    ensures CatalogChanged(None, spec, managed)
  {
  }

  lemma TagsOfSameGroups(groups: map<Slug, GroupRow>, a: ModelRow, b: ModelRow, r: RegionName)
    requires a.groups == b.groups
    ensures Tags(groups, a, r) == Tags(groups, b, r)
  {
  }

  /** Pruning either deactivates a managed deployment, or leaves what is pushed for it alone. */
  lemma PrunedRowPush(row: ModelRow, managed: set<RegionName>, now: int, r: RegionName)
    requires r in managed
    ensures
      var after := PrunedRow(row, managed, now);
      && after.groups == row.groups
      && (r in PrunedRegions(row, managed, now) ==> !Live(after, r))
      && (r !in PrunedRegions(row, managed, now) ==>
            forall tags :: RowContent(after, r, tags) == RowContent(row, r, tags))
      && (r !in PrunedRegions(row, managed, now) && row.active && Live(row, r) ==> after == row)
  {
  }

  // ----- Pushes: what a proxy is actually sent -----

  /** The parameters of a model that is no alias, in one region. */
  function OwnParams(row: ModelRow, r: RegionName): Params {
    Given(row.params) + (if r in row.deployments then Given(row.deployments[r].override) else map[])
  }

  /** Without a backend of its own, a model is served under its own name. */
  function WithBackend(params: Params, id: ModelId): Params {
    if "model" in params then params else params["model" := Str(id)]
  }

  /** The parameters an alias takes over from its target; none when the target cannot serve. */
  function TargetParams(target: Option<ModelRow>, id: ModelId, r: RegionName): Option<Params> {
    if target.None? || !target.value.active || target.value.isAlias then None
    else Some(WithBackend(OwnParams(target.value, r), id))
  }

  datatype Push = Deregister | Refuse | Send(params: Params, tags: set<Slug>)

  /** What a sync of one deployment does, read off the store it runs against. */
  function PushOf(s: Store, m: ModelId, r: RegionName): Push {
    if Pushed(s, m, r).None? then Deregister
    else
      var row := s.models[m];
      var tags := Tags(s.groups, row, r);
      if !row.isAlias then Send(OwnParams(row, r), tags)
      else if r !in row.targets then Refuse
      else
        var params := TargetParams(Get(s.models, row.targets[r]), row.targets[r], r);
        if params.None? then Refuse else Send(params.value, tags)
  }

  /** A managed deployment whose push changes although no push is owed for it. */
  ghost predicate MissedPush(s: Store, cfg: Config, now: int, req: Request, m: ModelId, r: RegionName) {
    && r in ManagedRegions(s.regions, cfg)
    && PushOf(s, m, r) != PushOf(Apply(s, cfg, now, req).store, m, r)
    && (m, r) !in Owed(s, cfg, now, req)
  }

  /** What the request does to a model's row, read off that row and its own specification. */
  ghost function RowAfter(s: Store, cfg: Config, now: int, req: Request, m: ModelId): Option<ModelRow> {
    var managed := ManagedRegions(s.regions, cfg);
    if m in Plan(req.models) then Some(NewRow(Get(s.models, m), Plan(req.models)[m], managed, now))
    else if m in s.models && req.prune then Some(PrunedRow(s.models[m], managed, now))
    else Get(s.models, m)
  }

  lemma MissedByAlias(s: Store, cfg: Config, now: int, req: Request, m: ModelId, r: RegionName)
    ensures MissedPush(s, cfg, now, req, m, r) <==>
      && r in ManagedRegions(s.regions, cfg)
      && (m, r) !in Owed(s, cfg, now, req)
      && Pushed(s, m, r).Some? && s.models[m].isAlias && r in s.models[m].targets
      && var t := s.models[m].targets[r];
         TargetParams(Get(s.models, t), t, r) != TargetParams(RowAfter(s, cfg, now, req, t), t, r)
  {
    hide Owed, ManagedRegions, Tags, Apply, Plan, NewRow, PrunedRow, OwnParams;
    if r in ManagedRegions(s.regions, cfg) && (m, r) !in Owed(s, cfg, now, req) {
      var after := Apply(s, cfg, now, req).store;
      if Pushed(s, m, r) != Pushed(after, m, r) {
        SyncComplete(s, cfg, now, req, m, r);
      }
      if Pushed(s, m, r).Some? {
        SameOwnParams(s.models[m], after.models[m], r);
        if r in s.models[m].targets {
          ModelOutcome(s, cfg, now, req, s.models[m].targets[r]);
        }
      }
    }
  }

  lemma SameOwnParams(a: ModelRow, b: ModelRow, r: RegionName)
    requires a.params == b.params && r in a.deployments && r in b.deployments
    requires a.deployments[r].override == b.deployments[r].override
    ensures OwnParams(a, r) == OwnParams(b, r)
  {
  }

  // ----- The same, read off the store and the request alone -----

  /** Nothing that is stored with this model changes: its own row, its tags, its deployment there. */
  ghost predicate LeftAlone(s: Store, cfg: Config, now: int, req: Request, m: ModelId, r: RegionName)
    requires m in s.models
  {
    var managed := ManagedRegions(s.regions, cfg);
    var row, plan, groups := s.models[m], Plan(req.models), GroupPlan(req.groups);
    && (m in plan ==> r !in RowToSync(Some(row), plan[m], managed) && !CatalogChanged(Some(row), plan[m], managed))
    && (forall g :: g in groups && r in FlippedRegions(Get(s.groups, g), groups[g], managed) ==> g !in row.groups)
    && (m !in plan && req.prune ==> PruneIsBlocked(row, now))
  }

  lemma RetaggedExactly(
    models: map<ModelId, ModelRow>, groups: map<Slug, GroupRow>, plan: map<Slug, GroupSpec>, managed: set<RegionName>,
    m: ModelId, r: RegionName)
    requires m in models && Live(models[m], r)
    ensures
      (m, r) in RetaggedPairs(models, ChangedGroupRegions(groups, plan, managed)) <==>
      exists g :: g in plan && r in FlippedRegions(Get(groups, g), plan[g], managed) && g in models[m].groups
  {
    hide FlippedRegions;
    var flipped := ChangedGroupRegions(groups, plan, managed);
    var index := map h | h in flipped :: MemberPairs(models, h, flipped[h]);
    if (m, r) in RetaggedPairs(models, flipped) {
      var g :| g in index && (m, r) in index[g];
      assert g in plan && r in FlippedRegions(Get(groups, g), plan[g], managed) && g in models[m].groups;
    }
    if g :| g in plan && r in FlippedRegions(Get(groups, g), plan[g], managed) && g in models[m].groups {
      assert g in index && (m, r) in index[g];
    }
  }

  /** A served managed deployment is pushed exactly if something stored with its model changes. */
  lemma OwedExactly(s: Store, cfg: Config, now: int, req: Request, m: ModelId, r: RegionName)
    requires r in ManagedRegions(s.regions, cfg) && Pushed(s, m, r).Some?
    ensures (m, r) !in Owed(s, cfg, now, req) <==> LeftAlone(s, cfg, now, req, m, r)
  {
    var managed, plan, groups := ManagedRegions(s.regions, cfg), Plan(req.models), GroupPlan(req.groups);
    var models := AppliedModels(s.models, plan, managed, now);
    hide Owed, ManagedRegions, Plan, GroupPlan, RetaggedPairs, ChangedGroupRegions, CatalogChanged, RowToSync, NewRow,
         FlippedRegions, PruneIsBlocked, Tags;
    OwedCauses(s, cfg, now, req, m, r);
    if m in plan {
      if r !in RowToSync(Some(s.models[m]), plan[m], managed) {
        UnwrittenRegion(Some(s.models[m]), plan[m], managed, now, r);
        assert Live(models[m], r);
        RetaggedExactly(models, s.groups, groups, managed, m, r);
        if !CatalogChanged(Some(s.models[m]), plan[m], managed) {
          UnchangedRow(s.models[m], plan[m], managed, now, r);
        }
      }
    } else {
      RetaggedExactly(models, s.groups, groups, managed, m, r);
    }
  }

  /** The parameters of a stored model in one region, with those of its new specification resolved against them. */
  function ResolvedParams(row: ModelRow, spec: ModelSpec, managed: set<RegionName>, r: RegionName): Params {
    var stored, desired := StoredOverride(Some(row), r), DesiredDeployments(spec, managed);
    Merge(Given(spec.params), Given(row.params)) + if r in desired then Merge(Given(desired[r]), stored) else stored
  }

  /**
   * The request changes what an alias of this model resolves to there: it creates or reactivates the model,
   * or gives it parameters or an override that resolve to something else, or prunes it.
   */
  ghost predicate TargetChanges(s: Store, cfg: Config, now: int, req: Request, t: ModelId, r: RegionName) {
    var plan, managed := Plan(req.models), ManagedRegions(s.regions, cfg);
    if t in plan then
      && !plan[t].isAlias
      && (t !in s.models || !s.models[t].active ||
          WithBackend(OwnParams(s.models[t], r), t) != WithBackend(ResolvedParams(s.models[t], plan[t], managed, r), t))
    else
      t in s.models && s.models[t].active && !s.models[t].isAlias && req.prune && !PruneIsBlocked(s.models[t], now)
  }

  lemma NewOwnParams(row: ModelRow, spec: ModelSpec, managed: set<RegionName>, now: int, r: RegionName)
    requires !spec.isAlias
    ensures OwnParams(NewRow(Some(row), spec, managed, now), r) == ResolvedParams(row, spec, managed, r)
  {
    hide DesiredDeployments, NewTargets, UpdatedFields, Merge;
    var after := NewRow(Some(row), spec, managed, now);
    assert Given(after.params) == Merge(Given(spec.params), Given(row.params));
    var stored, desired := StoredOverride(Some(row), r), DesiredDeployments(spec, managed);
    if r in desired {
      assert Given(after.deployments[r].override) == Merge(Given(desired[r]), stored);
    }
  }

  lemma TargetChangesExactly(s: Store, cfg: Config, now: int, req: Request, t: ModelId, r: RegionName)
    requires Accepts(s, cfg, req)
    ensures
      TargetParams(Get(s.models, t), t, r) != TargetParams(RowAfter(s, cfg, now, req, t), t, r) <==>
      TargetChanges(s, cfg, now, req, t, r)
  {
    hide ManagedRegions, Plan, OwnParams, ResolvedParams, WithBackend, ReconciledDeployments, DesiredDeployments, NewTargets,
         Resolved, UpdatedFields, ContainsSentinel, ValidRequest, NewOverridesClean;
    var plan, managed := Plan(req.models), ManagedRegions(s.regions, cfg);
    PlanMatches(req);
    if t in plan {
      assert SpecAccepted(s.models, plan, plan[t], managed) && plan[t].modelId == t;
      if t in s.models && !plan[t].isAlias {
        NewOwnParams(s.models[t], plan[t], managed, now, r);
      }
    }
  }

  lemma PlanMatches(req: Request)
    requires ValidRequest(req)
    ensures forall m :: m in Plan(req.models) ==> Plan(req.models)[m].modelId == m
  {
    PlanFacts(req.models);
  }

  /**
   * A model that is no alias never misses a push. An alias misses one exactly if it is served in a managed
   * region and resolves there, nothing stored with it changes, and the request changes its target there.
   */
  lemma MissedPushExactly(s: Store, cfg: Config, now: int, req: Request, m: ModelId, r: RegionName)
    requires Accepts(s, cfg, req)
    ensures MissedPush(s, cfg, now, req, m, r) <==>
      && r in ManagedRegions(s.regions, cfg)
      && Pushed(s, m, r).Some? && s.models[m].isAlias && r in s.models[m].targets
      && LeftAlone(s, cfg, now, req, m, r)
      && TargetChanges(s, cfg, now, req, s.models[m].targets[r], r)
  {
    hide Owed, ManagedRegions, Tags, Apply, LeftAlone, TargetChanges, TargetParams, RowAfter, Accepts, PushOf;
    MissedByAlias(s, cfg, now, req, m, r);
    if r in ManagedRegions(s.regions, cfg) && Pushed(s, m, r).Some? {
      OwedExactly(s, cfg, now, req, m, r);
      if r in s.models[m].targets {
        TargetChangesExactly(s, cfg, now, req, s.models[m].targets[r], r);
      }
    }
  }
}
