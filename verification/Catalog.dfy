/** The model catalog: its rows, a desired-state request, and what applying the request
    means, row by row, as a function of the stored row and the row's own specification.
    A row owned by a model (deployment, alias target, group membership) is stored with
    the model, a row owned by a group with the group; every key is a stable string. */
module Catalog {
  import opened Common
  import opened Credentials

  type RegionName = string
  type ModelId = string
  type Slug = string
  type Pair = (ModelId, RegionName)

  // ----- Stored rows -----

  /** A stored instant; one without a time zone is read as UTC. */
  datatype Timestamp = Naive(t: int) | Aware(t: int)

  datatype FieldValue = Text(text: Option<string>) | Number(number: Option<int>) | Date(date: Option<Timestamp>)

  const CATALOG_FIELDS: seq<string> :=
    ["display_name", "provider", "type", "context_length", "max_output_tokens", "description", "real_eol",
     "override_eol"]
  const REAL_EOL := 6
  const OVERRIDE_EOL := 7

  /** The values of a model's catalog fields, in the order of `CATALOG_FIELDS`. */
  type CatalogFields = fs: seq<FieldValue> | |fs| == 8 witness seq(8, _ => Text(None))

  datatype SyncStatus = Pending | Synced | Failed | NotConfigured

  datatype Deployment = Deployment(
    active: bool,
    override: Option<Params>,
    status: SyncStatus,
    error: Option<string>,
    updatedAt: int)

  datatype ModelRow = ModelRow(
    fields: CatalogFields,
    isAlias: bool,
    active: bool,
    params: Option<Params>,
    groups: set<Slug>,
    targets: map<RegionName, ModelId>,
    deployments: map<RegionName, Deployment>)

  datatype GroupRow = GroupRow(labelText: string, description: Option<string>, regions: set<RegionName>)

  /** `regions` maps every known region to its active flag. */
  datatype Store = Store(regions: map<RegionName, bool>, groups: map<Slug, GroupRow>, models: map<ModelId, ModelRow>)

  // ----- Requests and answers -----

  datatype GroupSpec = GroupSpec(slug: Slug, labelText: string, description: Option<string>, regions: seq<RegionName>)
  datatype DeploymentSpec = DeploymentSpec(region: RegionName, override: Option<Params>)
  datatype TargetSpec = TargetSpec(region: RegionName, target: ModelId)

  datatype ModelSpec = ModelSpec(
    modelId: ModelId,
    fields: CatalogFields,
    params: Option<Params>,
    accessGroups: seq<Slug>,
    isAlias: bool,
    deployments: seq<DeploymentSpec>,
    aliasTargets: seq<TargetSpec>)

  datatype Request = Request(dryRun: bool, prune: bool, groups: seq<GroupSpec>, models: seq<ModelSpec>)

  datatype Change =
    | GroupCreated(slug: Slug)
    | GroupUpdated(slug: Slug, detail: string)
    | ModelCreated(model: ModelId)
    | ModelUpdated(model: ModelId, details: seq<string>)
    | DeploymentCreated(model: ModelId, region: RegionName)
    | DeploymentUpdated(model: ModelId, region: RegionName, details: seq<string>)
    | DeploymentDeactivated(model: ModelId, region: RegionName)
    | AliasRetargeted(model: ModelId)
    | ModelPruned(model: ModelId)
    | PruneBlocked(model: ModelId, eol: Option<int>)

  datatype SkipReason = Unknown | Inactive | NotCatalogManaged

  datatype ApplyError =
    | DuplicateModel
    | DuplicateSlug
    | PruneWithoutModels
    | BadAlias(model: ModelId)
    | BadModel(model: ModelId)
    | UnknownGroup(model: ModelId)
    | CannotConvert(model: ModelId)
    | SentinelInNewParams(model: ModelId)
    | SentinelInNewOverride(model: ModelId, region: RegionName)
    | UnknownTarget(model: ModelId, target: ModelId)
    | AliasChain(model: ModelId, target: ModelId)

  datatype Response = Response(
    dryRun: bool,
    changes: set<Change>,
    unmanagedModels: set<ModelId>,
    unmanagedGroups: set<Slug>,
    skipped: map<RegionName, SkipReason>,
    syncsScheduled: nat)

  // ----- Regions -----

  /** `CATALOG_MANAGED_REGIONS`; a local environment manages every region. */
  datatype Config = Config(localEnv: bool, managedNames: set<RegionName>) {
    predicate Manages(name: RegionName) {
      localEnv || name in managedNames
    }
  }

  /** The blast radius: every active region of this environment that the catalog manages. */
  function ManagedRegions(regions: map<RegionName, bool>, cfg: Config): set<RegionName> {
    set r | r in regions && regions[r] && cfg.Manages(r)
  }

  function SkipReasonOf(regions: map<RegionName, bool>, cfg: Config, name: RegionName): Option<SkipReason> {
    if name !in regions then Some(Unknown)
    else if !regions[name] then Some(Inactive)
    else if !cfg.Manages(name) then Some(NotCatalogManaged)
    else None
  }

  function MentionedByModel(spec: ModelSpec): set<RegionName> {
    (set d | d in spec.deployments :: d.region) + (set t | t in spec.aliasTargets :: t.region)
  }

  function Mentioned(req: Request): set<RegionName> {
    (set g, r | g in req.groups && r in g.regions :: r) +
    (set m, r | m in req.models && r in MentionedByModel(m) :: r)
  }

  /** The mentioned regions that the request does not reach, with the reason for each. */
  function Skipped(s: Store, cfg: Config, req: Request): map<RegionName, SkipReason> {
    map n | n in Mentioned(req) && SkipReasonOf(s.regions, cfg, n).Some? :: SkipReasonOf(s.regions, cfg, n).value
  }

  // ----- Validation -----

  function Slugs(groups: seq<GroupSpec>): seq<Slug> {
    seq(|groups|, i requires 0 <= i < |groups| => groups[i].slug)
  }

  function ModelIds(models: seq<ModelSpec>): seq<ModelId> {
    seq(|models|, i requires 0 <= i < |models| => models[i].modelId)
  }

  function DeploymentRegions(ds: seq<DeploymentSpec>): seq<RegionName> {
    seq(|ds|, i requires 0 <= i < |ds| => ds[i].region)
  }

  function TargetRegions(ts: seq<TargetSpec>): seq<RegionName> {
    seq(|ts|, i requires 0 <= i < |ts| => ts[i].region)
  }

  predicate ValidShape(spec: ModelSpec) {
    if spec.isAlias then
      && Given(spec.params) == map[]
      && spec.deployments == []
      && spec.aliasTargets != []
      && Distinct(TargetRegions(spec.aliasTargets))
    else
      && spec.aliasTargets == []
      && Distinct(DeploymentRegions(spec.deployments))
  }

  predicate ValidSpec(spec: ModelSpec, slugs: set<Slug>) {
    ValidShape(spec) && Elements(spec.accessGroups) <= slugs
  }

  predicate ValidRequest(req: Request) {
    && Distinct(ModelIds(req.models))
    && Distinct(Slugs(req.groups))
    && (req.prune ==> req.models != [])
    && forall spec :: spec in req.models ==> ValidSpec(spec, Elements(Slugs(req.groups)))
  }

  // ----- One group -----

  /** A request indexed by key; a valid request names every key once. */
  function GroupPlan(specs: seq<GroupSpec>): map<Slug, GroupSpec> {
    if specs == [] then map[] else
      var last := specs[|specs| - 1];
      GroupPlan(specs[..|specs| - 1])[last.slug := last]
  }

  function NewGroup(prior: Option<GroupRow>, spec: GroupSpec, managed: set<RegionName>): GroupRow {
    var kept := if prior.Some? then prior.value.regions - managed else {};
    GroupRow(spec.labelText, spec.description, kept + Elements(spec.regions) * managed)
  }

  /** The managed regions where the group's deployment flips. */
  function FlippedRegions(prior: Option<GroupRow>, spec: GroupSpec, managed: set<RegionName>): set<RegionName> {
    var desired := Elements(spec.regions) * managed;
    var existing := if prior.Some? then prior.value.regions * managed else {};
    (desired - existing) + (existing - desired)
  }

  function GroupChanges(prior: Option<GroupRow>, spec: GroupSpec, managed: set<RegionName>): set<Change> {
    (if prior.None? then {GroupCreated(spec.slug)}
     else if prior.value.labelText != spec.labelText || prior.value.description != spec.description
     then {GroupUpdated(spec.slug, "label/description")} else {}) +
    (if FlippedRegions(prior, spec, managed) != {} then {GroupUpdated(spec.slug, "regions")} else {})
  }

  // ----- One model: catalog fields -----

  function Tz(v: FieldValue): FieldValue {
    if v.Date? && v.date.Some? then Date(Some(Aware(v.date.value.t))) else v
  }

  function UpdatedFields(prior: CatalogFields, desired: CatalogFields): CatalogFields {
    seq(8, i requires 0 <= i < 8 => if Tz(prior[i]) != Tz(desired[i]) then desired[i] else prior[i])
  }

  /** The names of the first `n` catalog fields that differ. */
  function ChangedFields(prior: CatalogFields, desired: CatalogFields, n: nat): seq<string>
    requires n <= 8
  {
    if n == 0 then [] else
      ChangedFields(prior, desired, n - 1) +
      (if Tz(prior[n - 1]) != Tz(desired[n - 1]) then [CATALOG_FIELDS[n - 1]] else [])
  }

  /** Python's `params or None`. */
  function NonEmpty(p: Params): Option<Params> {
    if p == map[] then None else Some(p)
  }

  /** A submitted document resolved against the stored one; an empty one is stored as null. */
  function Resolved(submitted: Option<Params>, stored: Option<Params>): Option<Params> {
    NonEmpty(Merge(Given(submitted), Given(stored)))
  }

  function UpsertedRow(prior: Option<ModelRow>, spec: ModelSpec): ModelRow {
    match prior
    case None =>
      ModelRow(spec.fields, spec.isAlias, true, if spec.isAlias then None else spec.params, {}, map[], map[])
    case Some(m) =>
      m.(fields := UpdatedFields(m.fields, spec.fields),
         active := true,
         params := if spec.isAlias then m.params else Resolved(spec.params, m.params))
  }

  /** What an update of an existing row reports. */
  function UpdateDetails(m: ModelRow, spec: ModelSpec): seq<string> {
    ChangedFields(m.fields, spec.fields, 8) +
    (if m.active then [] else ["is_active_globally"]) +
    (if !spec.isAlias && m.params != Resolved(spec.params, m.params) then ["litellm_params"] else [])
  }

  function UpsertChanges(prior: Option<ModelRow>, spec: ModelSpec): set<Change> {
    match prior
    case None => {ModelCreated(spec.modelId)}
    case Some(m) => if UpdateDetails(m, spec) == [] then {} else {ModelUpdated(spec.modelId, UpdateDetails(m, spec))}
  }

  // ----- One model: alias targets and deployments -----

  /** The alias targets this environment acts on. */
  function TargetMap(ts: seq<TargetSpec>, managed: set<RegionName>): map<RegionName, ModelId> {
    if ts == [] then map[] else
      var last := ts[|ts| - 1];
      var rest := TargetMap(ts[..|ts| - 1], managed);
      if last.region in managed then rest[last.region := last.target] else rest
  }

  function DeploymentMap(ds: seq<DeploymentSpec>, managed: set<RegionName>): map<RegionName, Option<Params>> {
    if ds == [] then map[] else
      var last := ds[|ds| - 1];
      var rest := DeploymentMap(ds[..|ds| - 1], managed);
      if last.region in managed then rest[last.region := last.override] else rest
  }

  function DesiredDeployments(spec: ModelSpec, managed: set<RegionName>): map<RegionName, Option<Params>> {
    if spec.isAlias
    then map r | r in TargetMap(spec.aliasTargets, managed) :: None
    else DeploymentMap(spec.deployments, managed)
  }

  function Within<V>(m: map<RegionName, V>, managed: set<RegionName>): map<RegionName, V> {
    map r | r in m && r in managed :: m[r]
  }

  function Outside<V>(m: map<RegionName, V>, managed: set<RegionName>): map<RegionName, V> {
    map r | r in m && r !in managed :: m[r]
  }

  function NewDeployment(prior: Option<Deployment>, override: Option<Params>, now: int): Deployment {
    match prior
    case None => Deployment(true, Resolved(override, None), Pending, None, now)
    case Some(d) =>
      if DeploymentDetails(d, override) == [] then d
      else Deployment(true, Resolved(override, d.override), Pending, None, now)
  }

  function DeploymentDetails(d: Deployment, override: Option<Params>): seq<string> {
    (if d.active then [] else ["activated"]) +
    (if d.override != Resolved(override, d.override) then ["override"] else [])
  }

  /** Whether reconciling one region writes its deployment row. */
  predicate DeploymentWritten(
    prior: Option<Deployment>, desired: Option<Option<Params>>, isManaged: bool) {
    match desired
    case Some(override) => prior.None? || DeploymentDetails(prior.value, override) != []
    case None => isManaged && prior.Some? && prior.value.active
  }

  function ReconciledDeployments(
    prior: map<RegionName, Deployment>, desired: map<RegionName, Option<Params>>, managed: set<RegionName>, now: int)
    : map<RegionName, Deployment> {
    map r | r in prior.Keys + desired.Keys ::
      if r in desired then NewDeployment(Get(prior, r), desired[r], now)
      else if r in managed && prior[r].active then prior[r].(active := false, status := Pending, error := None, updatedAt := now)
      else prior[r]
  }

  function WrittenRegions(
    prior: map<RegionName, Deployment>, desired: map<RegionName, Option<Params>>, managed: set<RegionName>)
    : set<RegionName> {
    set r | r in prior.Keys + desired.Keys && DeploymentWritten(Get(prior, r), Get(desired, r), r in managed)
  }

  function DeploymentChange(
    id: ModelId, r: RegionName, prior: Option<Deployment>, desired: Option<Option<Params>>): Change {
    match desired
    case None => DeploymentDeactivated(id, r)
    case Some(override) =>
      if prior.None? then DeploymentCreated(id, r)
      else DeploymentUpdated(id, r, DeploymentDetails(prior.value, override))
  }

  function DeploymentChangesIn(
    id: ModelId, prior: map<RegionName, Deployment>, desired: map<RegionName, Option<Params>>, written: set<RegionName>)
    : set<Change> {
    set r | r in written :: DeploymentChange(id, r, Get(prior, r), Get(desired, r))
  }

  function DeploymentChanges(
    id: ModelId, prior: map<RegionName, Deployment>, desired: map<RegionName, Option<Params>>,
    managed: set<RegionName>): set<Change> {
    DeploymentChangesIn(id, prior, desired, WrittenRegions(prior, desired, managed))
  }

  // ----- One model: the whole row -----

  function OldTargets(prior: Option<ModelRow>): map<RegionName, ModelId> {
    if prior.Some? then prior.value.targets else map[]
  }

  function OldDeployments(prior: Option<ModelRow>): map<RegionName, Deployment> {
    if prior.Some? then prior.value.deployments else map[]
  }

  function OldGroups(prior: Option<ModelRow>): set<Slug> {
    if prior.Some? then prior.value.groups else {}
  }

  predicate Retargeted(prior: Option<ModelRow>, spec: ModelSpec, managed: set<RegionName>) {
    spec.isAlias && TargetMap(spec.aliasTargets, managed) != Within(OldTargets(prior), managed)
  }

  function NewTargets(prior: Option<ModelRow>, spec: ModelSpec, managed: set<RegionName>): map<RegionName, ModelId> {
    if spec.isAlias
    then Outside(OldTargets(prior), managed) + TargetMap(spec.aliasTargets, managed)
    else OldTargets(prior)
  }

  function NewRow(prior: Option<ModelRow>, spec: ModelSpec, managed: set<RegionName>, now: int): ModelRow {
    UpsertedRow(prior, spec).(
      targets := NewTargets(prior, spec, managed),
      deployments := ReconciledDeployments(OldDeployments(prior), DesiredDeployments(spec, managed), managed, now),
      groups := Elements(spec.accessGroups))
  }

  /** A change that must be pushed to every active deployment of the model. */
  predicate CatalogChanged(prior: Option<ModelRow>, spec: ModelSpec, managed: set<RegionName>) {
    || UpsertChanges(prior, spec) != {}
    || Retargeted(prior, spec, managed)
    || OldGroups(prior) != Elements(spec.accessGroups)
  }

  function RowChanges(prior: Option<ModelRow>, spec: ModelSpec, managed: set<RegionName>): set<Change> {
    UpsertChanges(prior, spec) +
    (if Retargeted(prior, spec, managed) then {AliasRetargeted(spec.modelId)} else {}) +
    DeploymentChanges(spec.modelId, OldDeployments(prior), DesiredDeployments(spec, managed), managed) +
    (if OldGroups(prior) != Elements(spec.accessGroups) then {ModelUpdated(spec.modelId, ["access_groups"])} else {})
  }

  function RowToSync(prior: Option<ModelRow>, spec: ModelSpec, managed: set<RegionName>): set<RegionName> {
    WrittenRegions(OldDeployments(prior), DesiredDeployments(spec, managed), managed)
  }

  /** A deployment that is not stored yet must come with real credentials. */
  predicate NewOverridesClean(
    prior: map<RegionName, Deployment>, desired: map<RegionName, Option<Params>>, regions: set<RegionName>)
    requires regions <= desired.Keys
  {
    forall r :: r in regions && r !in prior ==> !ContainsSentinel(Given(desired[r]))
  }

  /** What the stored row of a specification may refuse. */
  predicate RowAccepts(prior: Option<ModelRow>, spec: ModelSpec, managed: set<RegionName>) {
    && (prior.Some? ==> prior.value.isAlias == spec.isAlias)
    && (prior.None? ==> !ContainsSentinel(Given(spec.params)))
    && (var desired := DesiredDeployments(spec, managed);
        NewOverridesClean(OldDeployments(prior), desired, desired.Keys))
  }

  // ----- The whole request -----

  function Plan(specs: seq<ModelSpec>): map<ModelId, ModelSpec> {
    if specs == [] then map[] else
      var last := specs[|specs| - 1];
      Plan(specs[..|specs| - 1])[last.modelId := last]
  }

  function AppliedGroups(groups: map<Slug, GroupRow>, plan: map<Slug, GroupSpec>, managed: set<RegionName>)
    : map<Slug, GroupRow> {
    map g | g in groups.Keys + plan.Keys :: if g in plan then NewGroup(Get(groups, g), plan[g], managed) else groups[g]
  }

  function AllGroupChanges(groups: map<Slug, GroupRow>, plan: map<Slug, GroupSpec>, managed: set<RegionName>)
    : set<Change> {
    Union(map g | g in plan :: GroupChanges(Get(groups, g), plan[g], managed))
  }

  function AppliedModels(
    models: map<ModelId, ModelRow>, plan: map<ModelId, ModelSpec>, managed: set<RegionName>, now: int)
    : map<ModelId, ModelRow> {
    map m | m in models.Keys + plan.Keys :: if m in plan then NewRow(Get(models, m), plan[m], managed, now) else models[m]
  }

  function AllRowChanges(models: map<ModelId, ModelRow>, plan: map<ModelId, ModelSpec>, managed: set<RegionName>)
    : set<Change> {
    Union(map m | m in plan :: RowChanges(Get(models, m), plan[m], managed))
  }

  function WrittenPairs(models: map<ModelId, ModelRow>, plan: map<ModelId, ModelSpec>, managed: set<RegionName>)
    : set<Pair> {
    Graph(map m | m in plan :: RowToSync(Get(models, m), plan[m], managed))
  }

  function CatalogChangedModels(
    models: map<ModelId, ModelRow>, plan: map<ModelId, ModelSpec>, managed: set<RegionName>): set<ModelId> {
    set m | m in plan && CatalogChanged(Get(models, m), plan[m], managed)
  }

  function ActiveRegions(ds: map<RegionName, Deployment>, managed: set<RegionName>): set<RegionName> {
    set r | r in ds && ds[r].active && r in managed
  }

  /** The active managed deployments of some models. */
  function ActivePairs(models: map<ModelId, ModelRow>, ids: set<ModelId>, managed: set<RegionName>): set<Pair> {
    Graph(map m | m in ids && m in models :: ActiveRegions(models[m].deployments, managed))
  }

  function ChangedGroupRegions(
    groups: map<Slug, GroupRow>, plan: map<Slug, GroupSpec>, managed: set<RegionName>): map<Slug, set<RegionName>> {
    map g | g in plan && FlippedRegions(Get(groups, g), plan[g], managed) != {} ::
      FlippedRegions(Get(groups, g), plan[g], managed)
  }

  /** The active deployments of a group's members in some regions. */
  function MemberPairs(models: map<ModelId, ModelRow>, g: Slug, regions: set<RegionName>): set<Pair> {
    set m, r | m in models && g in models[m].groups && r in models[m].deployments && r in regions &&
               models[m].deployments[r].active :: (m, r)
  }

  /** The active deployments whose tags move because a group was deployed or undeployed. */
  function RetaggedPairs(models: map<ModelId, ModelRow>, flipped: map<Slug, set<RegionName>>): set<Pair> {
    Union(map g | g in flipped :: MemberPairs(models, g, flipped[g]))
  }

  /** An alias may only point at a model, not at another alias. */
  predicate TargetAccepted(models: map<ModelId, ModelRow>, plan: map<ModelId, ModelSpec>, target: ModelId) {
    (target in models && !models[target].isAlias) || (target in plan && !plan[target].isAlias)
  }

  predicate SpecAccepted(
    models: map<ModelId, ModelRow>, plan: map<ModelId, ModelSpec>, spec: ModelSpec, managed: set<RegionName>) {
    && RowAccepts(Get(models, spec.modelId), spec, managed)
    && forall t :: t in spec.aliasTargets && t.region in managed ==> TargetAccepted(models, plan, t.target)
  }

  predicate PlanAccepted(
    models: map<ModelId, ModelRow>, plan: map<ModelId, ModelSpec>, managed: set<RegionName>) {
    forall m :: m in plan ==> SpecAccepted(models, plan, plan[m], managed)
  }

  // ----- Pruning -----

  function Eol(v: FieldValue): Option<int> {
    if v.Date? && v.date.Some? then Some(v.date.value.t) else None
  }

  function EolOf(row: ModelRow): Option<int> {
    if Eol(row.fields[OVERRIDE_EOL]).Some? then Eol(row.fields[OVERRIDE_EOL]) else Eol(row.fields[REAL_EOL])
  }

  /** A callable name is only sunset once its announced end of life has passed. */
  predicate PruneIsBlocked(row: ModelRow, now: int) {
    row.active && (EolOf(row).None? || EolOf(row).value > now)
  }

  function PrunedDeployments(ds: map<RegionName, Deployment>, managed: set<RegionName>, now: int)
    : map<RegionName, Deployment> {
    map r | r in ds ::
      if ds[r].active && r in managed then ds[r].(active := false, status := Pending, updatedAt := now) else ds[r]
  }

  function PrunedRow(row: ModelRow, managed: set<RegionName>, now: int): ModelRow {
    if PruneIsBlocked(row, now) then row
    else row.(active := false, deployments := PrunedDeployments(row.deployments, managed, now))
  }

  function PrunedRegions(row: ModelRow, managed: set<RegionName>, now: int): set<RegionName> {
    if PruneIsBlocked(row, now) then {}
    else ActiveRegions(row.deployments, managed)
  }

  function PruneChanges(id: ModelId, row: ModelRow, managed: set<RegionName>, now: int): set<Change> {
    if PruneIsBlocked(row, now) then {PruneBlocked(id, EolOf(row))}
    else (if row.active then {ModelPruned(id)} else {}) +
         (set r | r in PrunedRegions(row, managed, now) :: DeploymentDeactivated(id, r))
  }

  /** Sunset the models of `ids`. */
  function PrunedModels(models: map<ModelId, ModelRow>, ids: set<ModelId>, managed: set<RegionName>, now: int)
    : map<ModelId, ModelRow> {
    map m | m in models :: if m in ids then PrunedRow(models[m], managed, now) else models[m]
  }

  function PrunedPairs(models: map<ModelId, ModelRow>, ids: set<ModelId>, managed: set<RegionName>, now: int)
    : set<Pair> {
    Graph(map m | m in ids && m in models :: PrunedRegions(models[m], managed, now))
  }

  function AllPruneChanges(models: map<ModelId, ModelRow>, ids: set<ModelId>, managed: set<RegionName>, now: int)
    : set<Change> {
    Union(map m | m in ids && m in models :: PruneChanges(m, models[m], managed, now))
  }

  function BlockedModels(models: map<ModelId, ModelRow>, ids: set<ModelId>, now: int): set<ModelId> {
    set m | m in ids && m in models && PruneIsBlocked(models[m], now)
  }

  // ----- The outcome of an accepted request -----

  datatype Outcome = Outcome(store: Store, changes: set<Change>, syncs: set<Pair>, unmanagedModels: set<ModelId>)

  predicate Accepts(s: Store, cfg: Config, req: Request) {
    ValidRequest(req) && PlanAccepted(s.models, Plan(req.models), ManagedRegions(s.regions, cfg))
  }

  /** What an accepted request does to the store and which pushes it owes. */
  function Apply(s: Store, cfg: Config, now: int, req: Request): Outcome {
    var managed := ManagedRegions(s.regions, cfg);
    var groupPlan, plan := GroupPlan(req.groups), Plan(req.models);
    var models := AppliedModels(s.models, plan, managed, now);
    var absent := models.Keys - plan.Keys;
    var pruned := if req.prune then absent else {};
    Outcome(
      Store(s.regions, AppliedGroups(s.groups, groupPlan, managed), PrunedModels(models, pruned, managed, now)),
      AllGroupChanges(s.groups, groupPlan, managed) + AllRowChanges(s.models, plan, managed) +
      AllPruneChanges(models, pruned, managed, now),
      WrittenPairs(s.models, plan, managed) +
      ActivePairs(models, CatalogChangedModels(s.models, plan, managed), managed) +
      RetaggedPairs(models, ChangedGroupRegions(s.groups, groupPlan, managed)) +
      PrunedPairs(models, pruned, managed, now),
      if req.prune then BlockedModels(models, pruned, now) else absent)
  }
}
