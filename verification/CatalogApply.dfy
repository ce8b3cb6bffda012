/** The apply endpoint: the loops that reconcile a desired state with the stored rows,
    proved to do exactly what `Catalog.Apply` says, in one transaction. */
module CatalogApply {
  import opened Common
  import opened Credentials
  import opened Catalog
  import opened CatalogPlans

  lemma ElementsAppend<T>(xs: seq<T>, x: T)
    ensures Elements(xs + [x]) == Elements(xs) + {x}
  {
    assert forall y :: y in xs + [x] <==> y in xs || y == x;
  }

  /** Adding one group, or one model, to what has been applied so far. */
  lemma GroupStep(groups: map<Slug, GroupRow>, plan: map<Slug, GroupSpec>, spec: GroupSpec, managed: set<RegionName>)
    requires spec.slug !in plan
    ensures
      var next := plan[spec.slug := spec];
      var prior := Get(groups, spec.slug);
      && Get(AppliedGroups(groups, plan, managed), spec.slug) == prior
      && AppliedGroups(groups, next, managed) ==
         AppliedGroups(groups, plan, managed)[spec.slug := NewGroup(prior, spec, managed)]
      && AllGroupChanges(groups, next, managed) ==
         AllGroupChanges(groups, plan, managed) + GroupChanges(prior, spec, managed)
      && ChangedGroupRegions(groups, next, managed) ==
         (if FlippedRegions(prior, spec, managed) == {} then ChangedGroupRegions(groups, plan, managed)
          else ChangedGroupRegions(groups, plan, managed)[spec.slug := FlippedRegions(prior, spec, managed)])
  {
    GroupRowStep(groups, plan, spec, managed);
    hide GroupChanges, NewGroup, FlippedRegions, AppliedGroups, ChangedGroupRegions;
    var next := plan[spec.slug := spec];
    var before := map g | g in plan :: GroupChanges(Get(groups, g), plan[g], managed);
    var added := GroupChanges(Get(groups, spec.slug), spec, managed);
    assert before[spec.slug := added] == map g | g in next :: GroupChanges(Get(groups, g), next[g], managed);
    UnionExtend(before, spec.slug, added);
  }

  lemma GroupRowStep(groups: map<Slug, GroupRow>, plan: map<Slug, GroupSpec>, spec: GroupSpec, managed: set<RegionName>)
    requires spec.slug !in plan
    ensures
      var next := plan[spec.slug := spec];
      var prior := Get(groups, spec.slug);
      && Get(AppliedGroups(groups, plan, managed), spec.slug) == prior
      && AppliedGroups(groups, next, managed) ==
         AppliedGroups(groups, plan, managed)[spec.slug := NewGroup(prior, spec, managed)]
      && ChangedGroupRegions(groups, next, managed) ==
         (if FlippedRegions(prior, spec, managed) == {} then ChangedGroupRegions(groups, plan, managed)
          else ChangedGroupRegions(groups, plan, managed)[spec.slug := FlippedRegions(prior, spec, managed)])
  {
    hide NewGroup, FlippedRegions;
  }

  lemma ModelStep(
    models: map<ModelId, ModelRow>, plan: map<ModelId, ModelSpec>, spec: ModelSpec, managed: set<RegionName>, now: int)
    requires spec.modelId !in plan
    ensures
      var prior := Get(models, spec.modelId);
      && Get(AppliedModels(models, plan, managed, now), spec.modelId) == prior
      && AppliedModels(models, plan[spec.modelId := spec], managed, now) ==
         AppliedModels(models, plan, managed, now)[spec.modelId := NewRow(prior, spec, managed, now)]
  {
  }

  lemma ModelStepChanges(
    models: map<ModelId, ModelRow>, plan: map<ModelId, ModelSpec>, spec: ModelSpec, managed: set<RegionName>)
    requires spec.modelId !in plan
    ensures AllRowChanges(models, plan[spec.modelId := spec], managed) ==
            AllRowChanges(models, plan, managed) + RowChanges(Get(models, spec.modelId), spec, managed)
  {
    hide RowChanges;
    var prior := map m | m in plan :: RowChanges(Get(models, m), plan[m], managed);
    var changes := RowChanges(Get(models, spec.modelId), spec, managed);
    var next := plan[spec.modelId := spec];
    assert prior[spec.modelId := changes] == map m | m in next :: RowChanges(Get(models, m), next[m], managed);
    UnionExtend(prior, spec.modelId, changes);
  }

  lemma ModelStepPairs(
    models: map<ModelId, ModelRow>, plan: map<ModelId, ModelSpec>, spec: ModelSpec, managed: set<RegionName>)
    requires spec.modelId !in plan
    ensures
      var next := plan[spec.modelId := spec];
      var prior := Get(models, spec.modelId);
      && WrittenPairs(models, next, managed) ==
         WrittenPairs(models, plan, managed) + PairsFor(spec.modelId, RowToSync(prior, spec, managed))
      && CatalogChangedModels(models, next, managed) ==
         if CatalogChanged(prior, spec, managed) then CatalogChangedModels(models, plan, managed) + {spec.modelId}
         else CatalogChangedModels(models, plan, managed)
  {
    hide RowToSync, CatalogChanged;
    var next := plan[spec.modelId := spec];
    var before := map m | m in plan :: RowToSync(Get(models, m), plan[m], managed);
    var added := RowToSync(Get(models, spec.modelId), spec, managed);
    assert before[spec.modelId := added] == map m | m in next :: RowToSync(Get(models, m), next[m], managed);
    UnionExtend(before, spec.modelId, added);
  }

  /** Where reconciling a model's deployments stands once the regions in `done` have been
      visited: the rows, the rows written so far, and what was reported about them. */
  ghost function Reached(
    id: ModelId, existing: map<RegionName, Deployment>, desired: map<RegionName, Option<Params>>,
    managed: set<RegionName>, now: int, done: set<RegionName>)
    : (map<RegionName, Deployment>, set<RegionName>, set<Change>)
  {
    var after := ReconciledDeployments(existing, desired, managed, now);
    var written := WrittenRegions(existing, desired, managed) * done;
    (map r | r in after && (r in done || r in existing) :: if r in done then after[r] else existing[r],
     written,
     DeploymentChangesIn(id, existing, desired, written))
  }

  /** What one region contributes to reconciling a model's deployments. */
  lemma OneDeployment(
    id: ModelId, existing: map<RegionName, Deployment>, desired: map<RegionName, Option<Params>>,
    managed: set<RegionName>, now: int, region: RegionName)
    requires region in existing || region in desired
    ensures
      var after := ReconciledDeployments(existing, desired, managed, now);
      var written := WrittenRegions(existing, desired, managed);
      && after.Keys == existing.Keys + desired.Keys
      && (region in desired ==>
            && after[region] == NewDeployment(Get(existing, region), desired[region], now)
            && (region in written <==> DeploymentWritten(Get(existing, region), Some(desired[region]), true)))
      && (region !in desired && region !in written ==> after[region] == existing[region])
      && (region !in desired ==> (region in written <==> region in managed && existing[region].active))
      && (region !in desired && region in written ==>
            && after[region] == existing[region].(active := false, status := Pending, error := None, updatedAt := now)
            && DeploymentChange(id, region, Get(existing, region), Get(desired, region)) ==
               DeploymentDeactivated(id, region))
  {
  }

  lemma ReachedEnds(
    id: ModelId, existing: map<RegionName, Deployment>, desired: map<RegionName, Option<Params>>,
    managed: set<RegionName>, now: int)
    ensures Reached(id, existing, desired, managed, now, {}) == (existing, {}, {})
    ensures Reached(id, existing, desired, managed, now, existing.Keys + desired.Keys) ==
            (ReconciledDeployments(existing, desired, managed, now),
             WrittenRegions(existing, desired, managed),
             DeploymentChanges(id, existing, desired, managed))
  {
    hide DeploymentWritten, DeploymentChange, NewDeployment;
    var all := existing.Keys + desired.Keys;
    var written := WrittenRegions(existing, desired, managed);
    assert written * all == written && written * {} == {};
    assert Reached(id, existing, desired, managed, now, {}).0 == existing;
    assert Reached(id, existing, desired, managed, now, {}).2 == {};
    assert Reached(id, existing, desired, managed, now, all).0 == ReconciledDeployments(existing, desired, managed, now);
  }

  /** Visiting one more region. */
  lemma ReachedStep(
    id: ModelId, existing: map<RegionName, Deployment>, desired: map<RegionName, Option<Params>>,
    managed: set<RegionName>, now: int, done: set<RegionName>, region: RegionName)
    requires region in existing || region in desired
    ensures
      var all := WrittenRegions(existing, desired, managed);
      var after := ReconciledDeployments(existing, desired, managed, now);
      var (rows, written, changes) := Reached(id, existing, desired, managed, now, done);
      && region in after
      && Reached(id, existing, desired, managed, now, done + {region}) ==
         (rows[region := after[region]],
          if region in all then written + {region} else written,
          if region in all then changes + {DeploymentChange(id, region, Get(existing, region), Get(desired, region))}
          else changes)
  {
    var all := WrittenRegions(existing, desired, managed);
    var after := ReconciledDeployments(existing, desired, managed, now);
    var before, next := Reached(id, existing, desired, managed, now, done),
                        Reached(id, existing, desired, managed, now, done + {region});
    hide ReconciledDeployments, WrittenRegions, NewDeployment, DeploymentWritten, DeploymentChange;
    OneDeployment(id, existing, desired, managed, now, region);
    assert next.0 == before.0[region := after[region]];
    assert all * (done + {region}) == if region in all then all * done + {region} else all * done;
    DeploymentChangesStep(id, existing, desired, all * done, region);
  }

  lemma DeploymentChangesStep(
    id: ModelId, existing: map<RegionName, Deployment>, desired: map<RegionName, Option<Params>>,
    written: set<RegionName>, r: RegionName)
    ensures DeploymentChangesIn(id, existing, desired, written + {r}) ==
      DeploymentChangesIn(id, existing, desired, written) +
      {DeploymentChange(id, r, Get(existing, r), Get(desired, r))}
  {
    hide DeploymentChange;
  }

  lemma ReachedTurn(
    id: ModelId, existing: map<RegionName, Deployment>, desired: map<RegionName, Option<Params>>,
    managed: set<RegionName>, now: int, done: set<RegionName>, region: RegionName)
    requires region !in done && (region in existing || region in desired)
    ensures
      var (rows, written, changes) := Reached(id, existing, desired, managed, now, done);
      var prior := Get(existing, region);
      Reached(id, existing, desired, managed, now, done + {region}) ==
        if region in desired then
          if DeploymentWritten(prior, Some(desired[region]), true) then
            (rows[region := NewDeployment(prior, desired[region], now)], written + {region},
             changes + {DeploymentChange(id, region, prior, Some(desired[region]))})
          else (rows[region := NewDeployment(prior, desired[region], now)], written, changes)
        else if region in managed && existing[region].active then
          (rows[region := existing[region].(active := false, status := Pending, error := None, updatedAt := now)],
           written + {region}, changes + {DeploymentDeactivated(id, region)})
        else (rows, written, changes)
  {
    var after := ReconciledDeployments(existing, desired, managed, now);
    var (rows, written, changes) := Reached(id, existing, desired, managed, now, done);
    if region !in desired && region !in WrittenRegions(existing, desired, managed) {
      assert rows[region := existing[region]] == rows;
    }
    hide ReconciledDeployments, WrittenRegions, NewDeployment, DeploymentWritten, DeploymentChange, Reached;
    OneDeployment(id, existing, desired, managed, now, region);
    ReachedStep(id, existing, desired, managed, now, done, region);
  }

  function PairsFor(id: ModelId, regions: set<RegionName>): set<Pair> {
    set r | r in regions :: (id, r)
  }

  /** A row after its owned rows were reconciled, and what that reports. */
  function WithOwnedRows(row: ModelRow, spec: ModelSpec, managed: set<RegionName>, now: int): ModelRow {
    row.(targets := NewTargets(Some(row), spec, managed),
         deployments := ReconciledDeployments(row.deployments, DesiredDeployments(spec, managed), managed, now),
         groups := Elements(spec.accessGroups))
  }

  function OwnedChanges(row: ModelRow, spec: ModelSpec, managed: set<RegionName>): set<Change> {
    (if Retargeted(Some(row), spec, managed) then {AliasRetargeted(spec.modelId)} else {}) +
    DeploymentChanges(spec.modelId, row.deployments, DesiredDeployments(spec, managed), managed) +
    (if row.groups != Elements(spec.accessGroups) then {ModelUpdated(spec.modelId, ["access_groups"])} else {})
  }

  /** A new row and its reports, put together from the parts the loop body computes. */
  lemma RowParts(prior: Option<ModelRow>, spec: ModelSpec, managed: set<RegionName>, now: int)
    ensures
      var row := UpsertedRow(prior, spec);
      var desired := DesiredDeployments(spec, managed);
      && row.deployments == OldDeployments(prior)
      && row.groups == OldGroups(prior)
      && (Retargeted(Some(row), spec, managed) <==> Retargeted(prior, spec, managed))
      && NewRow(prior, spec, managed, now) == WithOwnedRows(row, spec, managed, now)
      && (forall base :: base + RowChanges(prior, spec, managed) ==
                         base + UpsertChanges(prior, spec) + OwnedChanges(row, spec, managed))
      && (prior.None? || prior.value.isAlias == spec.isAlias ==> row.isAlias == spec.isAlias)
  {
    hide ReconciledDeployments, DesiredDeployments, TargetMap, UpsertChanges, DeploymentChanges, Elements;
    var row := UpsertedRow(prior, spec);
    assert row.targets == OldTargets(prior);
    assert RowChanges(prior, spec, managed) == UpsertChanges(prior, spec) + OwnedChanges(row, spec, managed);
  }

  lemma TargetsFoundFrame(
    models: map<ModelId, ModelRow>, spec: ModelSpec, managed: set<RegionName>, row: ModelRow)
    ensures TargetsFound(models[spec.modelId := row], spec, managed) <==> TargetsFound(models, spec, managed)
  {
  }

  /** The lookup of an alias target, made while the row of `self` is being applied. */
  predicate TargetFound(models: map<ModelId, ModelRow>, self: ModelSpec, target: ModelId) {
    if target == self.modelId then !self.isAlias else target in models && !models[target].isAlias
  }

  predicate TargetsFound(models: map<ModelId, ModelRow>, spec: ModelSpec, managed: set<RegionName>) {
    forall t :: t in spec.aliasTargets && t.region in managed ==> TargetFound(models, spec, t.target)
  }

  /** Applying a model keeps its kind; only the models of the request are added. */
  lemma AppliedKinds(
    models: map<ModelId, ModelRow>, plan: map<ModelId, ModelSpec>, managed: set<RegionName>, now: int, m: ModelId)
    requires m in plan ==> RowAccepts(Get(models, m), plan[m], managed)
    ensures
      var applied := AppliedModels(models, plan, managed, now);
      && (m in applied <==> m in models || m in plan)
      && (m in plan ==> applied[m].isAlias == plan[m].isAlias && (m in models ==> models[m].isAlias == plan[m].isAlias))
      && (m in models && m !in plan ==> applied[m] == models[m])
  {
    hide ReconciledDeployments, NewTargets, DesiredDeployments, NewOverridesClean, ContainsSentinel;
  }

  /** What has been processed when an alias comes up: part of the plan, with every non-alias in it. */
  lemma PlanSplit(specs: seq<ModelSpec>, i: nat)
    requires Distinct(ModelIds(specs)) && i < |Ordered(specs)| && Ordered(specs)[i].isAlias
    ensures
      var plan, done := Plan(specs), Plan(Ordered(specs)[..i]);
      && Ordered(specs)[i].modelId in plan && plan[Ordered(specs)[i].modelId] == Ordered(specs)[i]
      && Ordered(specs)[i].modelId !in done
      && (forall m :: m in done ==> m in plan && plan[m] == done[m] && done[m] in Ordered(specs)[..i] && done[m].modelId == m)
      && (forall m :: m in plan && m !in done ==> plan[m].isAlias)
  {
    hide Plan, Ordered;
    var ordered := Ordered(specs);
    OrderedFacts(specs);
    PlanFacts(ordered);
    assert forall k :: 0 <= k < i ==> ModelIds(ordered[..i])[k] == ModelIds(ordered)[k];
    PlanFacts(ordered[..i]);
    PlanPrefix(ordered, i);
    hide ModelIds, Distinct;
    PrefixParts(ordered, Plan(specs), Plan(ordered[..i]), i);
  }

  lemma PrefixParts(ordered: seq<ModelSpec>, plan: map<ModelId, ModelSpec>, done: map<ModelId, ModelSpec>, i: nat)
    requires i < |ordered| && ordered[i].isAlias
    requires forall m, n :: 0 <= m < n < |ordered| && ordered[m].isAlias ==> ordered[n].isAlias
    requires forall spec :: spec in ordered ==> spec.modelId in plan && plan[spec.modelId] == spec
    requires forall m :: m in plan ==> plan[m] in ordered && plan[m].modelId == m
    requires forall spec :: spec in ordered[..i] ==> spec.modelId in done && done[spec.modelId] == spec
    requires forall m :: m in done ==> done[m] in ordered[..i] && done[m].modelId == m
    ensures forall m :: m in done ==> m in plan && plan[m] == done[m]
    ensures forall m :: m in plan && m !in done ==> plan[m].isAlias
  {
    assert forall k :: 0 <= k < i ==> ordered[..i][k] == ordered[k];
    forall m | m in plan && m !in done
      ensures plan[m].isAlias
    {
      assert plan[m] in ordered && plan[m] !in ordered[..i];
      var k :| 0 <= k < |ordered| && ordered[k] == plan[m];
    }
    forall m | m in done
      ensures m in plan && plan[m] == done[m]
    {
      var k :| 0 <= k < i && ordered[..i][k] == done[m];
      assert ordered[k] in ordered;
    }
  }

  /** Non-aliases come first, so what an alias finds part of the way through decides the same
      as looking at the stored rows and the whole request. */
  lemma TargetLookup(
    base: Base, specs: seq<ModelSpec>, i: nat, managed: set<RegionName>, now: int)
    requires Distinct(ModelIds(specs)) && i < |Ordered(specs)| && ValidShape(Ordered(specs)[i])
    requires forall j :: 0 <= j <= i ==>
      RowAccepts(Get(base.models, Ordered(specs)[j].modelId), Ordered(specs)[j], managed)
    ensures
      TargetsFound(ModelsReached(base, Plan(Ordered(specs)[..i]), managed, now).0, Ordered(specs)[i], managed)
      <==> SpecAccepted(base.models, Plan(specs), Ordered(specs)[i], managed)
  {
    var ordered := Ordered(specs);
    var spec := ordered[i];
    var done := Plan(ordered[..i]);
    if spec.isAlias {
      PlanSplit(specs, i);
      hide RowAccepts, Plan, Ordered, AppliedModels;
      forall target
        ensures TargetFound(AppliedModels(base.models, done, managed, now), spec, target) <==>
                TargetAccepted(base.models, Plan(specs), target)
      {
        if target in done {
          var j :| 0 <= j < i && ordered[..i][j] == done[target];
          assert RowAccepts(Get(base.models, ordered[j].modelId), ordered[j], managed);
        }
        AppliedKinds(base.models, done, managed, now, target);
        if target == spec.modelId {
          RowKind(base.models, spec, managed);
        }
      }
    }
  }

  lemma NotAccepted(
    models: map<ModelId, ModelRow>, plan: map<ModelId, ModelSpec>, spec: ModelSpec, managed: set<RegionName>)
    requires !RowAccepts(Get(models, spec.modelId), spec, managed)
    ensures !SpecAccepted(models, plan, spec, managed)
  {
  }

  lemma RowKind(models: map<ModelId, ModelRow>, spec: ModelSpec, managed: set<RegionName>)
    requires RowAccepts(Get(models, spec.modelId), spec, managed)
    ensures spec.modelId in models ==> models[spec.modelId].isAlias == spec.isAlias
  {
  }

  /** Where a run over models stands once the specifications in `plan` have been applied:
      the rows, the reports and the pushes owed, added to those of `base`, and the models
      changed as a whole. */
  ghost function ModelsReached(
    base: Base, plan: map<ModelId, ModelSpec>, managed: set<RegionName>, now: int)
    : (map<ModelId, ModelRow>, set<Change>, set<Pair>, set<ModelId>)
  {
    (AppliedModels(base.models, plan, managed, now),
     base.changes + AllRowChanges(base.models, plan, managed),
     base.syncs + WrittenPairs(base.models, plan, managed),
     CatalogChangedModels(base.models, plan, managed))
  }

  datatype Base = Base(models: map<ModelId, ModelRow>, changes: set<Change>, syncs: set<Pair>)

  lemma NothingApplied(base: Base, managed: set<RegionName>, now: int)
    ensures ModelsReached(base, Plan([]), managed, now) == (base.models, base.changes, base.syncs, {})
  {
    var models := base.models;
    assert AppliedModels(models, Plan([]), managed, now) == models;
    assert AllRowChanges(models, Plan([]), managed) == {};
    assert WrittenPairs(models, Plan([]), managed) == {};
    assert CatalogChangedModels(models, Plan([]), managed) == {};
    assert base.changes + {} == base.changes && base.syncs + {} == base.syncs;
  }

  lemma UnionAssociates<T>(a: set<T>, b: set<T>, c: set<T>)
    ensures a + (b + c) == a + b + c
  {
  }

  lemma ModelsTurn(base: Base, specs: seq<ModelSpec>, i: nat, managed: set<RegionName>, now: int)
    requires Distinct(ModelIds(specs)) && i < |specs|
    ensures
      var spec := specs[i];
      var prior := Get(base.models, spec.modelId);
      var reached := ModelsReached(base, Plan(specs[..i]), managed, now);
      && Get(reached.0, spec.modelId) == prior
      && ModelsReached(base, Plan(specs[..i + 1]), managed, now) ==
         (reached.0[spec.modelId := NewRow(prior, spec, managed, now)],
          reached.1 + RowChanges(prior, spec, managed),
          reached.2 + PairsFor(spec.modelId, RowToSync(prior, spec, managed)),
          if CatalogChanged(prior, spec, managed) then reached.3 + {spec.modelId} else reached.3)
  {
    var models, spec, plan := base.models, specs[i], Plan(specs[..i]);
    PlanPrefix(specs, i);
    ModelStep(models, plan, spec, managed, now);
    ModelStepChanges(models, plan, spec, managed);
    ModelStepPairs(models, plan, spec, managed);
    hide AppliedModels, AllRowChanges, WrittenPairs, CatalogChangedModels, CatalogChanged, RowChanges, RowToSync, NewRow,
         PairsFor;
    var prior := Get(models, spec.modelId);
    UnionAssociates(base.changes, AllRowChanges(models, plan, managed), RowChanges(prior, spec, managed));
    UnionAssociates(base.syncs, WrittenPairs(models, plan, managed),
                    PairsFor(spec.modelId, RowToSync(prior, spec, managed)));
  }

  /** Catalog-level pushes once the models in `done` have been visited. */
  ghost function PushesReached(
    models: map<ModelId, ModelRow>, done: set<ModelId>, managed: set<RegionName>, base: set<Pair>): set<Pair> {
    base + ActivePairs(models, done, managed)
  }

  lemma PushesTurn(
    models: map<ModelId, ModelRow>, done: set<ModelId>, managed: set<RegionName>, base: set<Pair>, m: ModelId)
    requires m in models && m !in done
    ensures PushesReached(models, {}, managed, base) == base
    ensures PushesReached(models, done + {m}, managed, base) ==
            PushesReached(models, done, managed, base) + PairsFor(m, ActiveRegions(models[m].deployments, managed))
  {
    var index := map k | k in done && k in models :: ActiveRegions(models[k].deployments, managed);
    var added := ActiveRegions(models[m].deployments, managed);
    hide ActiveRegions;
    assert ActivePairs(models, {}, managed) == {};
    assert index[m := added] ==
           map k | k in done + {m} && k in models :: ActiveRegions(models[k].deployments, managed);
    UnionExtend(index, m, added);
    assert ActivePairs(models, done + {m}, managed) == ActivePairs(models, done, managed) + PairsFor(m, added);
  }

  lemma RetaggedTurn(
    models: map<ModelId, ModelRow>, done: map<Slug, set<RegionName>>, g: Slug, regions: set<RegionName>)
    requires g !in done
    ensures RetaggedPairs(models, done[g := regions]) == RetaggedPairs(models, done) + MemberPairs(models, g, regions)
  {
    hide MemberPairs;
    var index := map h | h in done :: MemberPairs(models, h, done[h]);
    var next := done[g := regions];
    assert index[g := MemberPairs(models, g, regions)] == map h | h in next :: MemberPairs(models, h, next[h]);
    UnionExtend(index, g, MemberPairs(models, g, regions));
  }

  /** Where pruning stands once the models in `done` have been visited. */
  ghost function PruneReached(base: Base, done: set<ModelId>, managed: set<RegionName>, now: int)
    : (map<ModelId, ModelRow>, set<Change>, set<Pair>, set<ModelId>)
  {
    (PrunedModels(base.models, done, managed, now),
     base.changes + AllPruneChanges(base.models, done, managed, now),
     base.syncs + PrunedPairs(base.models, done, managed, now),
     BlockedModels(base.models, done, now))
  }

  lemma PruneStart(base: Base, managed: set<RegionName>, now: int)
    ensures PruneReached(base, {}, managed, now) == (base.models, base.changes, base.syncs, {})
  {
    hide PrunedRow, PruneChanges, PrunedRegions, PruneIsBlocked;
    assert PrunedModels(base.models, {}, managed, now) == base.models;
    assert AllPruneChanges(base.models, {}, managed, now) == {};
    assert PrunedPairs(base.models, {}, managed, now) == {};
    assert BlockedModels(base.models, {}, now) == {};
    assert base.changes + {} == base.changes && base.syncs + {} == base.syncs;
  }

  function SwitchedOff(deployments: map<RegionName, Deployment>, off: set<RegionName>, now: int)
    : map<RegionName, Deployment> {
    map r | r in deployments ::
      if r in off then deployments[r].(active := false, status := Pending, updatedAt := now) else deployments[r]
  }

  function Deactivations(id: ModelId, off: set<RegionName>): set<Change> {
    set r | r in off :: DeploymentDeactivated(id, r)
  }

  lemma SwitchTurn(id: ModelId, deployments: map<RegionName, Deployment>, done: set<RegionName>, now: int, r: RegionName)
    requires r in deployments && r !in done
    ensures
      var rows := SwitchedOff(deployments, done, now);
      SwitchedOff(deployments, done + {r}, now) ==
      rows[r := rows[r].(active := false, status := Pending, updatedAt := now)]
    ensures Deactivations(id, done + {r}) == Deactivations(id, done) + {DeploymentDeactivated(id, r)}
  {
  }

  lemma SwitchedIsPruned(deployments: map<RegionName, Deployment>, managed: set<RegionName>, now: int)
    ensures SwitchedOff(deployments, ActiveRegions(deployments, managed), now) ==
            PrunedDeployments(deployments, managed, now)
  {
  }

  lemma PruneTurn(base: Base, done: set<ModelId>, managed: set<RegionName>, now: int, m: ModelId)
    requires m in base.models && m !in done
    ensures
      var reached := PruneReached(base, done, managed, now);
      var row := base.models[m];
      && Get(reached.0, m) == Some(row)
      && PruneReached(base, done + {m}, managed, now) ==
         (reached.0[m := PrunedRow(row, managed, now)],
          reached.1 + PruneChanges(m, row, managed, now),
          reached.2 + PairsFor(m, PrunedRegions(row, managed, now)),
          if PruneIsBlocked(row, now) then reached.3 + {m} else reached.3)
  {
    hide PrunedRow, PruneChanges, PrunedRegions, PruneIsBlocked;
    var models, row := base.models, base.models[m];
    var changeIndex := map k | k in done && k in models :: PruneChanges(k, models[k], managed, now);
    var pairIndex := map k | k in done && k in models :: PrunedRegions(models[k], managed, now);
    var changes, regions := PruneChanges(m, row, managed, now), PrunedRegions(row, managed, now);
    assert changeIndex[m := changes] ==
           map k | k in done + {m} && k in models :: PruneChanges(k, models[k], managed, now);
    assert pairIndex[m := regions] ==
           map k | k in done + {m} && k in models :: PrunedRegions(models[k], managed, now);
    UnionExtend(changeIndex, m, changes);
    UnionExtend(pairIndex, m, regions);
    var reached := PruneReached(base, done, managed, now);
    assert PrunedModels(models, done + {m}, managed, now) == reached.0[m := PrunedRow(row, managed, now)];
    assert BlockedModels(models, done + {m}, now) ==
           if PruneIsBlocked(row, now) then reached.3 + {m} else reached.3;
    assert base.changes + (Union(changeIndex) + changes) == base.changes + Union(changeIndex) + changes;
    assert Graph(pairIndex[m := regions]) == Graph(pairIndex) + PairsFor(m, regions);
    assert base.syncs + (Graph(pairIndex) + PairsFor(m, regions)) ==
           base.syncs + Graph(pairIndex) + PairsFor(m, regions);
  }

  /** The outcome of a request, put together in the order the endpoint computes it. */
  lemma Stages(s: Store, cfg: Config, now: int, req: Request)
    requires ValidRequest(req)
    ensures
      var managed := ManagedRegions(s.regions, cfg);
      var groupPlan := GroupPlan(req.groups);
      var base := Base(s.models, {} + AllGroupChanges(s.groups, groupPlan, managed), {});
      var (models, changes, written, changed) := ModelsReached(base, Plan(req.models), managed, now);
      var owed := written + ActivePairs(models, changed, managed) +
                  RetaggedPairs(models, ChangedGroupRegions(s.groups, groupPlan, managed));
      var absent := models.Keys - Elements(ModelIds(req.models));
      var (last, reported, syncs, unmanaged) :=
        if req.prune then PruneReached(Base(models, changes, owed), absent, managed, now)
        else (models, changes, owed, absent);
      && changed <= models.Keys
      && Apply(s, cfg, now, req) ==
         Outcome(Store(s.regions, AppliedGroups(s.groups, groupPlan, managed), last), reported, syncs, unmanaged)
  {
    hide AllGroupChanges, AllRowChanges, AllPruneChanges, WrittenPairs, ActivePairs, RetaggedPairs, PrunedPairs,
         ChangedGroupRegions, PrunedModels, BlockedModels, AppliedGroups, AppliedModels, CatalogChangedModels, GroupPlan,
         Plan, ModelIds, ManagedRegions, ValidRequest, Elements;
    var managed := ManagedRegions(s.regions, cfg);
    var groupPlan, plan := GroupPlan(req.groups), Plan(req.models);
    var models := AppliedModels(s.models, plan, managed, now);
    ValidRequestFacts(req);
    PlanKeys(req.models);
    NothingPruned(models, managed, now);
    ChangedModelsExist(s.models, plan, managed, now);
    var reports := AllGroupChanges(s.groups, groupPlan, managed) + AllRowChanges(s.models, plan, managed);
    var owed := WrittenPairs(s.models, plan, managed) +
                ActivePairs(models, CatalogChangedModels(s.models, plan, managed), managed) +
                RetaggedPairs(models, ChangedGroupRegions(s.groups, groupPlan, managed));
    assert {} + AllGroupChanges(s.groups, groupPlan, managed) == AllGroupChanges(s.groups, groupPlan, managed);
    assert {} + WrittenPairs(s.models, plan, managed) == WrittenPairs(s.models, plan, managed);
    if !req.prune {
      assert reports + {} == reports && owed + {} == owed;
    }
  }

  lemma NothingPruned(models: map<ModelId, ModelRow>, managed: set<RegionName>, now: int)
    ensures PrunedModels(models, {}, managed, now) == models
    ensures AllPruneChanges(models, {}, managed, now) == {}
    ensures PrunedPairs(models, {}, managed, now) == {}
  {
    assert PrunedModels(models, {}, managed, now) == models;
  }

  lemma ChangedModelsExist(
    models: map<ModelId, ModelRow>, plan: map<ModelId, ModelSpec>, managed: set<RegionName>, now: int)
    ensures CatalogChangedModels(models, plan, managed) <= AppliedModels(models, plan, managed, now).Keys
    ensures plan.Keys <= AppliedModels(models, plan, managed, now).Keys
  {
  }

  lemma ValidRequestFacts(req: Request)
    requires ValidRequest(req)
    ensures Distinct(ModelIds(req.models)) && Distinct(Slugs(req.groups))
    ensures forall spec :: spec in req.models ==> ValidShape(spec)
    ensures Elements<Change>([]) == {}
  {
  }

  class Session {
    const cfg: Config
    const regions: map<RegionName, bool>
    /** What other sessions see. */
    var committed: Store
    /** This transaction's rows. */
    var groups: map<Slug, GroupRow>
    var models: map<ModelId, ModelRow>
    /** What the transaction reports and owes. */
    var changes: seq<Change>
    var syncs: set<Pair>
    /** Background tasks handed over after a commit. */
    var queued: set<Pair>

    ghost predicate Fresh()
      reads this
    {
      && committed == Store(regions, groups, models)
      && changes == []
      && syncs == {}
    }

    constructor (cfg: Config, store: Store)
      ensures Fresh() && this.cfg == cfg && committed == store && queued == {}
    {
      this.cfg := cfg;
      this.regions := store.regions;
      this.committed := store;
      this.groups := store.groups;
      this.models := store.models;
      this.changes := [];
      this.syncs := {};
      this.queued := {};
    }

    method Report(c: Change)
      modifies `changes
      ensures Elements(changes) == old(Elements(changes)) + {c}
    {
      ElementsAppend(changes, c);
      changes := changes + [c];
    }

    method Commit()
      modifies `committed
      ensures committed == Store(regions, groups, models)
    {
      committed := Store(regions, groups, models);
    }

    method Rollback()
      modifies `groups, `models
      ensures groups == committed.groups && models == committed.models
    {
      groups, models := committed.groups, committed.models;
    }

    method CheckShape(spec: ModelSpec) returns (error: Option<ApplyError>)
      ensures error.None? <==> ValidShape(spec)
    {
      if spec.isAlias {
        if Given(spec.params) != map[] {
          return Some(BadAlias(spec.modelId));
        }
        if spec.deployments != [] {
          return Some(BadAlias(spec.modelId));
        }
        if spec.aliasTargets == [] || !Distinct(TargetRegions(spec.aliasTargets)) {
          return Some(BadAlias(spec.modelId));
        }
      } else if spec.aliasTargets != [] || !Distinct(DeploymentRegions(spec.deployments)) {
        return Some(BadModel(spec.modelId));
      }
      return None;
    }

    method ValidateSpecs(req: Request) returns (error: Option<ApplyError>)
      ensures error.None? <==> ValidRequest(req)
    {
      if !Distinct(ModelIds(req.models)) {
        return Some(DuplicateModel);
      }
      if !Distinct(Slugs(req.groups)) {
        return Some(DuplicateSlug);
      }
      if req.prune && req.models == [] {
        return Some(PruneWithoutModels);
      }
      var known := Elements(Slugs(req.groups));
      for i := 0 to |req.models|
        invariant forall j :: 0 <= j < i ==> ValidSpec(req.models[j], known)
      {
        var spec := req.models[i];
        assert spec in req.models;
        var shape := CheckShape(spec);
        if shape.Some? {
          return shape;
        }
        var unknown := Elements(spec.accessGroups) - known;
        if unknown != {} {
          return Some(UnknownGroup(spec.modelId));
        }
        forall g | g in Elements(spec.accessGroups)
          ensures g in known
        {
          assert g !in unknown;
        }
      }
      return None;
    }

    method ResolveRegions(req: Request) returns (managed: set<RegionName>, skipped: map<RegionName, SkipReason>)
      ensures managed == ManagedRegions(regions, cfg)
      ensures skipped == Skipped(Store(regions, map[], map[]), cfg, req)
      ensures forall n :: n in Mentioned(req) ==> (n in skipped <==> n !in managed)
    {
      managed := set r | r in regions && regions[r] && cfg.Manages(r);
      skipped := SkippedRegions(Mentioned(req));
    }

    method SkippedRegions(mentioned: set<RegionName>) returns (skipped: map<RegionName, SkipReason>)
      ensures skipped == map n | n in mentioned && SkipReasonOf(regions, cfg, n).Some? :: SkipReasonOf(regions, cfg, n).value
    {
      skipped := map[];
      var todo := mentioned;
      while todo != {}
        invariant todo <= mentioned
        invariant skipped ==
          map n | n in mentioned - todo && SkipReasonOf(regions, cfg, n).Some? :: SkipReasonOf(regions, cfg, n).value
        decreases todo
      {
        var name :| name in todo;
        if name !in regions {
          skipped := skipped[name := Unknown];
        } else if !regions[name] {
          skipped := skipped[name := Inactive];
        } else if !cfg.Manages(name) {
          skipped := skipped[name := NotCatalogManaged];
        }
        todo := todo - {name};
      }
    }

    // ----- Access groups -----

    method SetGroupRegions(slug: Slug, desired: set<RegionName>, existing: set<RegionName>)
      requires slug in groups && existing <= groups[slug].regions
      modifies `groups
      ensures groups == old(groups)[slug := old(groups[slug]).(regions := old(groups[slug].regions) - existing + desired)]
    {
      ghost var before := groups;
      var gone := existing - desired;
      while gone != {}
        invariant gone <= existing - desired
        invariant slug in groups && groups == before[slug := before[slug].(regions := groups[slug].regions)]
        invariant groups[slug].regions == before[slug].regions - (existing - desired - gone)
        decreases gone
      {
        var r :| r in gone;
        groups := groups[slug := groups[slug].(regions := groups[slug].regions - {r})];
        gone := gone - {r};
      }
      var added := desired - existing;
      while added != {}
        invariant added <= desired - existing
        invariant slug in groups && groups == before[slug := before[slug].(regions := groups[slug].regions)]
        invariant groups[slug].regions == before[slug].regions - (existing - desired) + (desired - existing - added)
        decreases added
      {
        var r :| r in added;
        groups := groups[slug := groups[slug].(regions := groups[slug].regions + {r})];
        added := added - {r};
      }
      assert groups[slug].regions == before[slug].regions - existing + desired;
    }

    method ApplyAccessGroup(spec: GroupSpec, managed: set<RegionName>) returns (flipped: set<RegionName>)
      modifies `groups, `changes
      ensures groups ==
        old(groups)[spec.slug := NewGroup(Get(old(groups), spec.slug), spec, managed)]
      ensures Elements(changes) ==
        old(Elements(changes)) + GroupChanges(Get(old(groups), spec.slug), spec, managed)
      ensures flipped == FlippedRegions(Get(old(groups), spec.slug), spec, managed)
    {
      ghost var prior := Get(groups, spec.slug);
      if spec.slug !in groups {
        groups := groups[spec.slug := GroupRow(spec.labelText, spec.description, {})];
        Report(GroupCreated(spec.slug));
      } else if groups[spec.slug].labelText != spec.labelText || groups[spec.slug].description != spec.description {
        groups := groups[spec.slug := groups[spec.slug].(labelText := spec.labelText, description := spec.description)];
        Report(GroupUpdated(spec.slug, "label/description"));
      }
      var desired := Elements(spec.regions) * managed;
      var existing := groups[spec.slug].regions * managed;
      flipped := (desired - existing) + (existing - desired);
      if desired != existing {
        SetGroupRegions(spec.slug, desired, existing);
        Report(GroupUpdated(spec.slug, "regions"));
        assert exists r :: r in flipped;
      }
      assert groups[spec.slug].regions == NewGroup(prior, spec, managed).regions;
    }

    method ApplyAccessGroups(specs: seq<GroupSpec>, managed: set<RegionName>)
      returns (flipped: map<Slug, set<RegionName>>)
      requires Distinct(Slugs(specs))
      modifies `groups, `changes
      ensures groups == AppliedGroups(old(groups), GroupPlan(specs), managed)
      ensures Elements(changes) == old(Elements(changes)) + AllGroupChanges(old(groups), GroupPlan(specs), managed)
      ensures flipped == ChangedGroupRegions(old(groups), GroupPlan(specs), managed)
    {
      flipped := map[];
      for i := 0 to |specs|
        invariant groups == AppliedGroups(old(groups), GroupPlan(specs[..i]), managed)
        invariant Elements(changes) ==
          old(Elements(changes)) + AllGroupChanges(old(groups), GroupPlan(specs[..i]), managed)
        invariant flipped == ChangedGroupRegions(old(groups), GroupPlan(specs[..i]), managed)
      {
        GroupPlanPrefix(specs, i);
        GroupStep(old(groups), GroupPlan(specs[..i]), specs[i], managed);
        var moved := ApplyAccessGroup(specs[i], managed);
        if moved != {} {
          flipped := flipped[specs[i].slug := moved];
        }
      }
      assert specs[..|specs|] == specs;
    }

    // ----- One model -----

    method CopyFields(stored: CatalogFields, desired: CatalogFields)
      returns (fields: CatalogFields, changed: seq<string>)
      ensures fields == UpdatedFields(stored, desired)
      ensures changed == ChangedFields(stored, desired, 8)
    {
      fields, changed := stored, [];
      for f := 0 to 8
        invariant forall k :: 0 <= k < f ==> fields[k] == UpdatedFields(stored, desired)[k]
        invariant forall k :: f <= k < 8 ==> fields[k] == stored[k]
        invariant changed == ChangedFields(stored, desired, f)
      {
        if Tz(fields[f]) != Tz(desired[f]) {
          fields := fields[f := desired[f]];
          changed := changed + [CATALOG_FIELDS[f]];
        }
      }
    }

    method UpdateCatalogModel(spec: ModelSpec) returns (changed: seq<string>)
      requires spec.modelId in models
      modifies `models
      ensures
        var row := old(models)[spec.modelId];
        && models == old(models)[spec.modelId := UpsertedRow(Some(row), spec)]
        && changed == UpdateDetails(row, spec)
    {
      var row := models[spec.modelId];
      var fields;
      fields, changed := CopyFields(row.fields, spec.fields);
      row := row.(fields := fields);
      if !row.active {
        row := row.(active := true);
        changed := changed + ["is_active_globally"];
      }
      if !spec.isAlias {
        var merged := MergeCredentialSentinels(
          Given(spec.params), if row.params.Some? then Some(Obj(row.params.value)) else None);
        var resolved := NonEmpty(merged);
        if row.params != resolved {
          row := row.(params := resolved);
          changed := changed + ["litellm_params"];
        }
      }
      models := models[spec.modelId := row];
    }

    method UpsertCatalogModel(spec: ModelSpec) returns (r: Result<bool, ApplyError>)
      modifies `models, `changes
      ensures r.Ok? <==>
        && (spec.modelId in old(models) ==> old(models)[spec.modelId].isAlias == spec.isAlias)
        && (spec.modelId !in old(models) ==> !ContainsSentinel(Given(spec.params)))
      ensures r.Ok? ==>
        var prior := Get(old(models), spec.modelId);
        && models == old(models)[spec.modelId := UpsertedRow(prior, spec)]
        && Elements(changes) == old(Elements(changes)) + UpsertChanges(prior, spec)
        && r.value == (UpsertChanges(prior, spec) != {})
    {
      var id := spec.modelId;
      if id in models && models[id].isAlias != spec.isAlias {
        return Err(CannotConvert(id));
      }
      if id !in models {
        var redacted := FindSentinel(Given(spec.params));
        if redacted {
          return Err(SentinelInNewParams(id));
        }
        models := models[id :=
          ModelRow(spec.fields, spec.isAlias, true, if spec.isAlias then None else spec.params, {}, map[], map[])];
        Report(ModelCreated(id));
        return Ok(true);
      }
      ghost var row := models[id];
      var changed := UpdateCatalogModel(spec);
      assert UpsertChanges(Some(row), spec) == if changed == [] then {} else {ModelUpdated(id, changed)};
      if changed != [] {
        Report(ModelUpdated(id, changed));
      }
      return Ok(changed != []);
    }

    method ApplyAliasTargets(spec: ModelSpec, managed: set<RegionName>) returns (r: Result<bool, ApplyError>)
      requires spec.modelId in models && spec.isAlias
      modifies `models, `changes
      ensures r.Ok? <==>
        forall t :: t in spec.aliasTargets && t.region in managed ==>
          t.target in old(models) && !old(models)[t.target].isAlias
      ensures r.Ok? ==>
        var row := old(models)[spec.modelId];
        && models == old(models)[spec.modelId := row.(targets := NewTargets(Some(row), spec, managed))]
        && Elements(changes) == old(Elements(changes)) +
           (if Retargeted(Some(row), spec, managed) then {AliasRetargeted(spec.modelId)} else {})
        && r.value == Retargeted(Some(row), spec, managed)
    {
      var id := spec.modelId;
      var desired := map[];
      for i := 0 to |spec.aliasTargets|
        invariant models == old(models) && changes == old(changes)
        invariant forall j :: 0 <= j < i && spec.aliasTargets[j].region in managed ==>
          spec.aliasTargets[j].target in models && !models[spec.aliasTargets[j].target].isAlias
        invariant desired == TargetMap(spec.aliasTargets[..i], managed)
      {
        var t := spec.aliasTargets[i];
        assert spec.aliasTargets[..i + 1][..i] == spec.aliasTargets[..i];
        if t.region in managed {
          if t.target !in models {
            return Err(UnknownTarget(id, t.target));
          }
          if models[t.target].isAlias {
            return Err(AliasChain(id, t.target));
          }
          desired := desired[t.region := t.target];
        }
      }
      assert spec.aliasTargets[..|spec.aliasTargets|] == spec.aliasTargets;
      var existing := Within(models[id].targets, managed);
      if desired != existing {
        models := models[id := models[id].(targets := Outside(models[id].targets, managed) + desired)];
        Report(AliasRetargeted(id));
      } else {
        assert Outside(models[id].targets, managed) + desired == models[id].targets;
      }
      return Ok(desired != existing);
    }

    // ----- The deployments of one model -----

    method ReconcileDeployment(id: ModelId, region: RegionName, prior: Option<Deployment>, override: Option<Params>, now: int)
      returns (r: Result<(Deployment, bool), ApplyError>)
      modifies `changes
      ensures r.Err? <==> prior.None? && ContainsSentinel(Given(override))
      ensures r.Ok? ==>
        && r.value == (NewDeployment(prior, override, now), DeploymentWritten(prior, Some(override), true))
        && Elements(changes) ==
           if r.value.1 then old(Elements(changes)) + {DeploymentChange(id, region, prior, Some(override))}
           else old(Elements(changes))
    {
      var stored := if prior.Some? then prior.value.override else None;
      var merged := MergeCredentialSentinels(Given(override), if stored.Some? then Some(Obj(stored.value)) else None);
      var resolved := NonEmpty(merged);
      if prior.None? {
        var redacted := FindSentinel(Given(override));
        if redacted {
          return Err(SentinelInNewOverride(id, region));
        }
        Report(DeploymentCreated(id, region));
        return Ok((Deployment(true, resolved, Pending, None, now), true));
      }
      var d := prior.value;
      var details := [];
      if !d.active {
        d := d.(active := true);
        details := details + ["activated"];
      }
      if d.override != resolved {
        d := d.(override := resolved);
        details := details + ["override"];
      }
      assert details == DeploymentDetails(prior.value, override);
      if details != [] {
        d := d.(status := Pending, error := None, updatedAt := now);
        Report(DeploymentUpdated(id, region, details));
      }
      return Ok((d, details != []));
    }

    method ReconcileDesired(
      id: ModelId, existing: map<RegionName, Deployment>, desired: map<RegionName, Option<Params>>,
      managed: set<RegionName>, now: int)
      returns (r: Result<(map<RegionName, Deployment>, set<RegionName>), ApplyError>)
      modifies `changes
      ensures r.Ok? <==> NewOverridesClean(existing, desired, desired.Keys)
      ensures r.Ok? ==>
        var reached := Reached(id, existing, desired, managed, now, desired.Keys);
        && r.value == (reached.0, reached.1)
        && Elements(changes) == old(Elements(changes)) + reached.2
    {
      var rows, toSync := existing, {};
      ghost var done := {};
      ReachedEnds(id, existing, desired, managed, now);
      hide Reached, NewDeployment, DeploymentWritten, DeploymentChange, ContainsSentinel, Elements;
      var todo := desired.Keys;
      while todo != {}
        invariant done !! todo && desired.Keys == done + todo
        invariant (rows, toSync) == (Reached(id, existing, desired, managed, now, done).0,
                                     Reached(id, existing, desired, managed, now, done).1)
        invariant Elements(changes) ==
          old(Elements(changes)) + Reached(id, existing, desired, managed, now, done).2
        invariant NewOverridesClean(existing, desired, done)
        decreases todo
      {
        var region :| region in todo;
        ReachedTurn(id, existing, desired, managed, now, done, region);
        var outcome := ReconcileDeployment(id, region, Get(existing, region), desired[region], now);
        if outcome.Err? {
          return Err(outcome.error);
        }
        rows := rows[region := outcome.value.0];
        if outcome.value.1 {
          toSync := toSync + {region};
        }
        todo, done := todo - {region}, done + {region};
      }
      assert done == desired.Keys;
      return Ok((rows, toSync));
    }

    method DeactivateOthers(
      id: ModelId, existing: map<RegionName, Deployment>, desired: map<RegionName, Option<Params>>,
      managed: set<RegionName>, now: int, reconciled: map<RegionName, Deployment>, written: set<RegionName>,
      ghost base: set<Change>)
      returns (rows: map<RegionName, Deployment>, toSync: set<RegionName>)
      requires
        var reached := Reached(id, existing, desired, managed, now, desired.Keys);
        && (reconciled, written) == (reached.0, reached.1)
        && Elements(changes) == base + reached.2
      modifies `changes
      ensures rows == ReconciledDeployments(existing, desired, managed, now)
      ensures toSync == WrittenRegions(existing, desired, managed)
      ensures Elements(changes) == base + DeploymentChanges(id, existing, desired, managed)
    {
      rows, toSync := reconciled, written;
      ghost var done := desired.Keys;
      ReachedEnds(id, existing, desired, managed, now);
      hide Reached, ReconciledDeployments, WrittenRegions, DeploymentChanges, Elements;
      var others := existing.Keys - desired.Keys;
      while others != {}
        invariant done !! others && existing.Keys + desired.Keys == done + others
        invariant others <= existing.Keys - desired.Keys
        invariant (rows, toSync) == (Reached(id, existing, desired, managed, now, done).0,
                                     Reached(id, existing, desired, managed, now, done).1)
        invariant Elements(changes) == base + Reached(id, existing, desired, managed, now, done).2
        decreases others
      {
        var region :| region in others;
        ReachedTurn(id, existing, desired, managed, now, done, region);
        if region in managed && existing[region].active {
          rows := rows[region :=
            existing[region].(active := false, status := Pending, error := None, updatedAt := now)];
          Report(DeploymentDeactivated(id, region));
          toSync := toSync + {region};
        }
        others, done := others - {region}, done + {region};
      }
      assert done == existing.Keys + desired.Keys;
    }

    method ApplyDeployments(id: ModelId, desired: map<RegionName, Option<Params>>, managed: set<RegionName>, now: int)
      returns (r: Result<set<RegionName>, ApplyError>)
      requires id in models
      modifies `models, `changes
      ensures r.Ok? <==> NewOverridesClean(old(models[id]).deployments, desired, desired.Keys)
      ensures r.Ok? ==>
        var row := old(models[id]);
        && models ==
           old(models)[id := row.(deployments := ReconciledDeployments(row.deployments, desired, managed, now))]
        && r.value == WrittenRegions(row.deployments, desired, managed)
        && Elements(changes) == old(Elements(changes)) + DeploymentChanges(id, row.deployments, desired, managed)
    {
      var existing := models[id].deployments;
      ghost var base := Elements(changes);
      hide *;
      var wanted := ReconcileDesired(id, existing, desired, managed, now);
      if wanted.Err? {
        return Err(wanted.error);
      }
      var rows, toSync :=
        DeactivateOthers(id, existing, desired, managed, now, wanted.value.0, wanted.value.1, base);
      models := models[id := models[id].(deployments := rows)];
      return Ok(toSync);
    }

    method ReplaceGroupMemberships(id: ModelId, groupSlugs: set<Slug>) returns (changed: bool)
      requires id in models
      modifies `models, `changes
      ensures models == old(models)[id := old(models[id]).(groups := groupSlugs)]
      ensures changed == (old(models[id]).groups != groupSlugs)
      ensures Elements(changes) ==
        old(Elements(changes)) + (if changed then {ModelUpdated(id, ["access_groups"])} else {})
    {
      if models[id].groups == groupSlugs {
        return false;
      }
      models := models[id := models[id].(groups := groupSlugs)];
      Report(ModelUpdated(id, ["access_groups"]));
      return true;
    }

    method ApplyTargets(spec: ModelSpec, managed: set<RegionName>) returns (r: Result<bool, ApplyError>)
      requires ValidShape(spec) && spec.modelId in models && models[spec.modelId].isAlias == spec.isAlias
      modifies `models, `changes
      ensures r.Ok? <==> TargetsFound(old(models), spec, managed)
      ensures r.Ok? ==>
        var row := Some(old(models)[spec.modelId]);
        && models == old(models)[spec.modelId := row.value.(targets := NewTargets(row, spec, managed))]
        && Elements(changes) == old(Elements(changes)) +
           (if Retargeted(row, spec, managed) then {AliasRetargeted(spec.modelId)} else {})
        && r.value == Retargeted(row, spec, managed)
    {
      if !spec.isAlias {
        return Ok(false);
      }
      r := ApplyAliasTargets(spec, managed);
    }

    /** The rows a model owns: alias targets, deployments, group memberships. */
    method ApplyOwnedRows(spec: ModelSpec, managed: set<RegionName>, now: int) returns (r: Result<bool, ApplyError>)
      requires ValidShape(spec) && spec.modelId in models && models[spec.modelId].isAlias == spec.isAlias
      modifies `models, `changes, `syncs
      ensures r.Ok? <==>
        var desired := DesiredDeployments(spec, managed);
        && TargetsFound(old(models), spec, managed)
        && NewOverridesClean(old(models)[spec.modelId].deployments, desired, desired.Keys)
      ensures r.Ok? ==>
        var row := old(models)[spec.modelId];
        && models == old(models)[spec.modelId := WithOwnedRows(row, spec, managed, now)]
        && Elements(changes) == old(Elements(changes)) + OwnedChanges(row, spec, managed)
        && syncs == old(syncs) + PairsFor(
             spec.modelId, WrittenRegions(row.deployments, DesiredDeployments(spec, managed), managed))
        && r.value == (Retargeted(Some(row), spec, managed) || row.groups != Elements(spec.accessGroups))
    {
      hide NewTargets, Retargeted, ReconciledDeployments, TargetMap, DeploymentMap, DeploymentChanges, WrittenRegions,
           Elements, TargetsFound, NewOverridesClean, ValidShape, DesiredDeployments;
      var id := spec.modelId;
      ghost var before, base, row := models, Elements(changes), models[spec.modelId];
      var retargeted := ApplyTargets(spec, managed);
      if retargeted.Err? {
        return Err(retargeted.error);
      }
      var desired := DesiredDeployments(spec, managed);
      var toSync := ApplyDeployments(id, desired, managed, now);
      if toSync.Err? {
        return Err(toSync.error);
      }
      var regrouped := ReplaceGroupMemberships(id, Elements(spec.accessGroups));
      assert models == before[id := WithOwnedRows(row, spec, managed, now)];
      syncs := syncs + PairsFor(id, toSync.value);
      return Ok(retargeted.value || regrouped);
    }

    /** The body of the loop over the models of a request. */
    method ApplyModel(spec: ModelSpec, managed: set<RegionName>, now: int) returns (r: Result<bool, ApplyError>)
      requires ValidShape(spec)
      modifies `models, `changes, `syncs
      ensures r.Ok? <==>
        && RowAccepts(Get(old(models), spec.modelId), spec, managed)
        && TargetsFound(old(models), spec, managed)
      ensures r.Ok? ==>
        var prior := Get(old(models), spec.modelId);
        && models == old(models)[spec.modelId := NewRow(prior, spec, managed, now)]
        && Elements(changes) == old(Elements(changes)) + RowChanges(prior, spec, managed)
        && syncs == old(syncs) + PairsFor(spec.modelId, RowToSync(prior, spec, managed))
        && r.value == CatalogChanged(prior, spec, managed)
    {
      ghost var before, base := models, Elements(changes);
      ghost var prior := Get(models, spec.modelId);
      RowParts(prior, spec, managed, now);
      TargetsFoundFrame(models, spec, managed, UpsertedRow(prior, spec));
      hide UpsertedRow, UpsertChanges, Retargeted, NewRow, RowChanges, OldTargets, OldDeployments, OldGroups, Elements,
           ContainsSentinel, NewOverridesClean, ValidShape, DesiredDeployments, WithOwnedRows, OwnedChanges,
           TargetsFound, WrittenRegions, PairsFor;
      var upserted := UpsertCatalogModel(spec);
      if upserted.Err? {
        return Err(upserted.error);
      }
      var owned := ApplyOwnedRows(spec, managed, now);
      if owned.Err? {
        return Err(owned.error);
      }
      return Ok(upserted.value || owned.value);
    }

    method ApplyModels(specs: seq<ModelSpec>, managed: set<RegionName>, now: int)
      returns (r: Result<set<ModelId>, ApplyError>)
      requires Distinct(ModelIds(specs)) && forall spec :: spec in specs ==> ValidShape(spec)
      modifies `models, `changes, `syncs
      ensures r.Ok? <==> PlanAccepted(old(models), Plan(specs), managed)
      ensures r.Ok? ==>
        (models, Elements(changes), syncs, r.value) ==
        ModelsReached(Base(old(models), old(Elements(changes)), old(syncs)), Plan(specs), managed, now)
    {
      hide ModelsReached, Elements, RowAccepts, TargetsFound, RowToSync, RowChanges, NewRow, CatalogChanged, PairsFor,
           Ordered, ValidShape, SpecAccepted, Plan, ModelIds, Distinct;
      var ordered := Ordered(specs);
      var changedModels := {};
      ghost var base := Base(models, Elements(changes), syncs);
      OrderedFacts(specs);
      PlanFacts(specs);
      NothingApplied(base, managed, now);
      for i := 0 to |ordered|
        invariant (models, Elements(changes), syncs, changedModels) ==
                  ModelsReached(base, Plan(ordered[..i]), managed, now)
        invariant forall j :: 0 <= j < i ==>
          && SpecAccepted(base.models, Plan(specs), ordered[j], managed)
          && RowAccepts(Get(base.models, ordered[j].modelId), ordered[j], managed)
      {
        var spec := ordered[i];
        assert spec in specs && Plan(specs)[spec.modelId] == spec;
        ModelsTurn(base, ordered, i, managed, now);
        var changed := ApplyModel(spec, managed, now);
        if RowAccepts(Get(base.models, spec.modelId), spec, managed) {
          TargetLookup(base, specs, i, managed, now);
        } else {
          NotAccepted(base.models, Plan(specs), spec, managed);
        }
        if changed.Err? {
          return Err(changed.error);
        }
        if changed.value {
          changedModels := changedModels + {spec.modelId};
        }
      }
      assert ordered[..|ordered|] == ordered;
      forall m | m in Plan(specs)
        ensures SpecAccepted(base.models, Plan(specs), Plan(specs)[m], managed)
      {
        assert Plan(specs)[m] in ordered;
      }
      return Ok(changedModels);
    }

    // ----- Pushes owed beyond the rows written -----

    method QueueCatalogPushes(changedModels: set<ModelId>, managed: set<RegionName>)
      requires changedModels <= models.Keys
      modifies `syncs
      ensures syncs == old(syncs) + ActivePairs(models, changedModels, managed)
    {
      ghost var base := syncs;
      var todo := changedModels;
      ghost var done := {};
      assert syncs == PushesReached(models, {}, managed, base) by {
        assert ActivePairs(models, {}, managed) == {};
      }
      while todo != {}
        invariant todo !! done && done + todo == changedModels
        invariant syncs == PushesReached(models, done, managed, base)
        decreases todo
      {
        var m :| m in todo;
        PushesTurn(models, done, managed, base, m);
        syncs := syncs + PairsFor(m, ActiveRegions(models[m].deployments, managed));
        todo, done := todo - {m}, done + {m};
      }
      assert done == changedModels;
    }

    method QueueRetaggedModels(flipped: map<Slug, set<RegionName>>)
      modifies `syncs
      ensures syncs == old(syncs) + RetaggedPairs(models, flipped)
    {
      ghost var base := syncs;
      ghost var done: map<Slug, set<RegionName>> := map[];
      hide MemberPairs;
      assert RetaggedPairs(models, done) == {};
      var todo := flipped.Keys;
      while todo != {}
        invariant todo <= flipped.Keys
        invariant done == map g | g in flipped && g !in todo :: flipped[g]
        invariant syncs == base + RetaggedPairs(models, done)
        decreases todo
      {
        var g :| g in todo;
        RetaggedTurn(models, done, g, flipped[g]);
        syncs := syncs + MemberPairs(models, g, flipped[g]);
        todo, done := todo - {g}, done[g := flipped[g]];
      }
      assert done == flipped;
    }

    // ----- Pruning -----

    method PruneModel(id: ModelId, managed: set<RegionName>, now: int) returns (blocked: bool)
      requires id in models
      modifies `models, `changes, `syncs
      ensures
        var row := old(models)[id];
        && models == old(models)[id := PrunedRow(row, managed, now)]
        && Elements(changes) == old(Elements(changes)) + PruneChanges(id, row, managed, now)
        && syncs == old(syncs) + PairsFor(id, PrunedRegions(row, managed, now))
        && blocked == PruneIsBlocked(row, now)
    {
      var row := models[id];
      ghost var prior := row;
      var eol := EolOf(row);
      if row.active && (eol.None? || eol.value > now) {
        Report(PruneBlocked(id, eol));
        return true;
      }
      var wasActive := row.active;
      if wasActive {
        row := row.(active := false);
        Report(ModelPruned(id));
      }
      var off := ActiveRegions(row.deployments, managed);
      var rows := SwitchOff(id, row.deployments, off, now);
      SwitchedIsPruned(row.deployments, managed, now);
      models := models[id := row.(deployments := rows)];
      syncs := syncs + PairsFor(id, off);
      return false;
    }

    /** The deployments of a pruned model, one after the other. */
    method SwitchOff(id: ModelId, deployments: map<RegionName, Deployment>, off: set<RegionName>, now: int)
      returns (rows: map<RegionName, Deployment>)
      requires off <= deployments.Keys
      modifies `changes
      ensures rows == SwitchedOff(deployments, off, now)
      ensures Elements(changes) == old(Elements(changes)) + Deactivations(id, off)
    {
      rows := deployments;
      var todo := off;
      ghost var base, done := Elements(changes), {};
      assert SwitchedOff(deployments, {}, now) == deployments && Deactivations(id, {}) == {};
      while todo != {}
        invariant todo !! done && done + todo == off
        invariant rows.Keys == deployments.Keys
        invariant rows == SwitchedOff(deployments, done, now)
        invariant Elements(changes) == base + Deactivations(id, done)
        decreases todo
      {
        var r :| r in todo;
        SwitchTurn(id, deployments, done, now, r);
        rows := rows[r := rows[r].(active := false, status := Pending, updatedAt := now)];
        Report(DeploymentDeactivated(id, r));
        todo, done := todo - {r}, done + {r};
      }
      assert done == off;
    }

    method PruneModels(ids: set<ModelId>, managed: set<RegionName>, now: int) returns (blocked: set<ModelId>)
      requires ids <= models.Keys
      modifies `models, `changes, `syncs
      ensures (models, Elements(changes), syncs, blocked) ==
        PruneReached(Base(old(models), old(Elements(changes)), old(syncs)), ids, managed, now)
    {
      ghost var base := Base(models, Elements(changes), syncs);
      ghost var done := {};
      blocked := {};
      PruneStart(base, managed, now);
      hide PruneReached, PrunedRow, PruneChanges, PrunedRegions, PairsFor, PruneIsBlocked, Elements;
      var todo := ids;
      while todo != {}
        invariant todo !! done && done + todo == ids
        invariant models.Keys == base.models.Keys
        invariant (models, Elements(changes), syncs, blocked) == PruneReached(base, done, managed, now)
        decreases todo
      {
        var m :| m in todo;
        PruneTurn(base, done, managed, now, m);
        var kept := PruneModel(m, managed, now);
        if kept {
          blocked := blocked + {m};
        }
        todo, done := todo - {m}, done + {m};
      }
      assert done == ids;
    }

    // ----- The endpoint -----

    method Respond(req: Request, unmanaged: set<ModelId>, skipped: map<RegionName, SkipReason>)
      returns (r: Response)
      ensures r == Response(
        req.dryRun, Elements(changes), unmanaged, groups.Keys - Elements(Slugs(req.groups)), skipped, |syncs|)
    {
      r := Response(
        req.dryRun, Elements(changes), unmanaged, groups.Keys - Elements(Slugs(req.groups)), skipped, |syncs|);
    }

    /** Everything between validation and the commit. */
    method Reconcile(req: Request, managed: set<RegionName>, now: int) returns (r: Result<set<ModelId>, ApplyError>)
      requires Fresh() && ValidRequest(req) && managed == ManagedRegions(regions, cfg)
      modifies `groups, `models, `changes, `syncs
      ensures r.Ok? <==> PlanAccepted(committed.models, Plan(req.models), managed)
      ensures r.Ok? ==>
        Outcome(Store(regions, groups, models), Elements(changes), syncs, r.value) == Apply(committed, cfg, now, req)
    {
      hide ValidRequest, Apply, ValidShape, Distinct, ModelsReached, PruneReached, AllGroupChanges, ActivePairs, RetaggedPairs, ChangedGroupRegions,
           AppliedGroups, GroupPlan, Plan, ModelIds, Elements, ManagedRegions, PlanAccepted;
      Stages(committed, cfg, now, req);
      ValidRequestFacts(req);
      var flipped := ApplyAccessGroups(req.groups, managed);
      var changedModels := ApplyModels(req.models, managed, now);
      if changedModels.Err? {
        return Err(changedModels.error);
      }
      QueueCatalogPushes(changedModels.value, managed);
      QueueRetaggedModels(flipped);
      var absent := models.Keys - Elements(ModelIds(req.models));
      var unmanaged := absent;
      if req.prune {
        unmanaged := PruneModels(absent, managed, now);
      }
      return Ok(unmanaged);
    }

    /** Apply a full desired state, or report what applying it would change. */
    method ApplyModelConfig(req: Request, now: int) returns (r: Result<Response, ApplyError>)
      requires Fresh()
      modifies this
      ensures r.Ok? <==> Accepts(old(committed), cfg, req)
      ensures r.Err? || req.dryRun ==> committed == old(committed) && queued == old(queued)
      ensures
        var outcome := Apply(old(committed), cfg, now, req);
        && (r.Ok? && !req.dryRun ==> committed == outcome.store && queued == old(queued) + outcome.syncs)
        && (r.Ok? ==>
              && r.value.dryRun == req.dryRun
              && r.value.changes == outcome.changes
              && r.value.syncsScheduled == |outcome.syncs|
              && r.value.unmanagedModels == outcome.unmanagedModels
              && r.value.unmanagedGroups == outcome.store.groups.Keys - Elements(Slugs(req.groups))
              && r.value.skipped == Skipped(old(committed), cfg, req))
      ensures groups == committed.groups && models == committed.models
    {
      hide Apply, PlanAccepted, Elements, Mentioned;
      var error := ValidateSpecs(req);
      if error.Some? {
        return Err(error.value);
      }
      var managed, skipped := ResolveRegions(req);
      var unmanaged := Reconcile(req, managed, now);
      if unmanaged.Err? {
        Rollback();
        return Err(unmanaged.error);
      }
      var response := Respond(req, unmanaged.value, skipped);
      if req.dryRun {
        Rollback();
        return Ok(response);
      }
      Commit();
      queued := queued + syncs;
      return Ok(response);
    }
  }
}
