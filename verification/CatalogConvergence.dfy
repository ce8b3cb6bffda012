/** Applying the same request again: when one application is enough, and when it is not. */
module CatalogConvergence {
  import opened Common
  import opened Credentials
  import opened Catalog
  import opened CatalogPlans
  import opened CatalogTheorems

  // ----- One row -----

  lemma ResolvedIdempotent(submitted: Option<Params>, stored: Option<Params>)
    ensures Resolved(submitted, Resolved(submitted, stored)) == Resolved(submitted, stored)
  {
    MergeIdempotent(Given(submitted), Given(stored));
  }

  /** A stored document that came in as it is, is resolved to itself exactly when it is not
      the empty object. */
  lemma ResolvedSelf(params: Option<Params>)
    requires !ContainsSentinel(Given(params))
    ensures Resolved(params, params) == params <==> params != Some(map[])
  {
    MergeWithoutSentinel(Given(params), Given(params));
  }

  lemma {:induction false} UpdatedFieldsSettle(prior: CatalogFields, desired: CatalogFields, n: nat)
    requires n <= 8
    ensures ChangedFields(UpdatedFields(prior, desired), desired, n) == []
    ensures UpdatedFields(UpdatedFields(prior, desired), desired) == UpdatedFields(prior, desired)
  {
    if n > 0 {
      UpdatedFieldsSettle(prior, desired, n - 1);
    }
  }

  lemma DeploymentSettles(prior: Option<Deployment>, override: Option<Params>, now: int)
    ensures
      var d := NewDeployment(prior, override, now);
      && DeploymentDetails(d, override) == []
      && NewDeployment(Some(d), override, now) == d
  {
    ResolvedIdempotent(override, if prior.Some? then prior.value.override else None);
  }

  lemma DeploymentsSettle(
    prior: map<RegionName, Deployment>, desired: map<RegionName, Option<Params>>, managed: set<RegionName>, now: int)
    requires desired.Keys <= managed
    ensures
      var after := ReconciledDeployments(prior, desired, managed, now);
      && desired.Keys <= after.Keys
      && ReconciledDeployments(after, desired, managed, now) == after
      && WrittenRegions(after, desired, managed) == {}
  {
    hide NewDeployment, DeploymentDetails;
    var after := ReconciledDeployments(prior, desired, managed, now);
    forall r | r in desired
      ensures after[r] == NewDeployment(Get(prior, r), desired[r], now)
      ensures DeploymentDetails(after[r], desired[r]) == [] && NewDeployment(Some(after[r]), desired[r], now) == after[r]
    {
      DeploymentSettles(Get(prior, r), desired[r], now);
    }
    assert forall r :: r in after && r !in desired && r in managed ==> !after[r].active;
  }

  /** The one row that does not settle: a new model whose parameters are the empty object. */
  predicate CreatesEmptyParams(prior: Option<ModelRow>, spec: ModelSpec) {
    prior.None? && !spec.isAlias && spec.params == Some(map[])
  }

  lemma UpsertSettles(prior: Option<ModelRow>, spec: ModelSpec, managed: set<RegionName>)
    requires RowAccepts(prior, spec, managed)
    ensures
      var row := UpsertedRow(prior, spec);
      && row.isAlias == spec.isAlias && row.active
      && (!CreatesEmptyParams(prior, spec) ==>
            forall later: ModelRow ::
              later.fields == row.fields && later.isAlias == row.isAlias && later.active && later.params == row.params
              ==> UpsertedRow(Some(later), spec) == later && UpsertChanges(Some(later), spec) == {})
      && (CreatesEmptyParams(prior, spec) ==> row.params == Some(map[]) && Resolved(spec.params, row.params) == None)
  {
    var row := UpsertedRow(prior, spec);
    if prior.Some? {
      UpdatedFieldsSettle(prior.value.fields, spec.fields, 8);
      ResolvedIdempotent(spec.params, prior.value.params);
    } else {
      SameFieldsSettle(spec.fields, 8);
      if !spec.isAlias {
        ResolvedSelf(spec.params);
      }
    }
    hide DesiredDeployments, ContainsSentinel, Resolved, UpdatedFields, ChangedFields;
  }

  lemma {:induction false} SameFieldsSettle(fields: CatalogFields, n: nat)
    requires n <= 8
    ensures ChangedFields(fields, fields, n) == []
    ensures UpdatedFields(fields, fields) == fields
  {
    if n > 0 {
      SameFieldsSettle(fields, n - 1);
    }
  }

  lemma TargetsSettle(prior: Option<ModelRow>, spec: ModelSpec, managed: set<RegionName>, later: ModelRow)
    requires later.targets == NewTargets(prior, spec, managed)
    ensures NewTargets(Some(later), spec, managed) == later.targets
    ensures !Retargeted(Some(later), spec, managed)
  {
    if spec.isAlias {
      var desired := TargetMap(spec.aliasTargets, managed);
      forall r
        ensures r in desired ==> r in managed
      {
        TargetMapRegions(spec.aliasTargets, managed, r);
      }
      hide TargetMap;
      assert Within(later.targets, managed) == desired;
      assert Outside(later.targets, managed) == Outside(OldTargets(prior), managed);
    }
  }

  /** A row that was just applied is applied again without a trace. */
  lemma RowSettles(prior: Option<ModelRow>, spec: ModelSpec, managed: set<RegionName>, now: int)
    requires RowAccepts(prior, spec, managed) && !CreatesEmptyParams(prior, spec)
    ensures
      var row := NewRow(prior, spec, managed, now);
      && NewRow(Some(row), spec, managed, now) == row
      && RowChanges(Some(row), spec, managed) == {}
      && RowToSync(Some(row), spec, managed) == {}
      && !CatalogChanged(Some(row), spec, managed)
  {
    var row := NewRow(prior, spec, managed, now);
    UpsertSettles(prior, spec, managed);
    TargetsSettle(prior, spec, managed, row);
    DesiredIsManaged(spec, managed);
    DeploymentsSettle(OldDeployments(prior), DesiredDeployments(spec, managed), managed, now);
    hide RowAccepts, UpsertedRow, UpsertChanges, NewTargets, Retargeted, ReconciledDeployments, DesiredDeployments,
         WrittenRegions, DeploymentChange;
  }

  /** An applied row is accepted again. */
  lemma RowStaysAccepted(prior: Option<ModelRow>, spec: ModelSpec, managed: set<RegionName>, now: int)
    requires RowAccepts(prior, spec, managed)
    ensures RowAccepts(Some(NewRow(prior, spec, managed, now)), spec, managed)
    ensures NewRow(prior, spec, managed, now).isAlias == spec.isAlias
  {
    UpsertSettles(prior, spec, managed);
    hide ContainsSentinel, DesiredDeployments, UpsertedRow, NewTargets, NewDeployment;
  }

  lemma GroupSettles(prior: Option<GroupRow>, spec: GroupSpec, managed: set<RegionName>)
    ensures
      var row := NewGroup(prior, spec, managed);
      && NewGroup(Some(row), spec, managed) == row
      && GroupChanges(Some(row), spec, managed) == {}
      && FlippedRegions(Some(row), spec, managed) == {}
  {
    var row := NewGroup(prior, spec, managed);
    assert row.regions * managed == Elements(spec.regions) * managed;
    assert row.regions - managed + Elements(spec.regions) * managed == row.regions;
  }

  lemma PruneSettles(id: ModelId, row: ModelRow, managed: set<RegionName>, now: int)
    ensures
      var after := PrunedRow(row, managed, now);
      && PrunedRow(after, managed, now) == after
      && PrunedRegions(after, managed, now) == {}
      && (forall c :: c in PruneChanges(id, after, managed, now) ==> c.PruneBlocked?)
      && after.isAlias == row.isAlias
  {
    var after := PrunedRow(row, managed, now);
    if !PruneIsBlocked(row, now) {
      assert PrunedDeployments(after.deployments, managed, now) == after.deployments;
      assert PrunedRegions(after, managed, now) == {};
    }
  }

  // ----- The whole store -----

  /** Applying the request a second time is accepted, writes nothing, owes no push, and reports
      nothing but models whose pruning is still blocked. */
  ghost predicate Converges(s: Store, cfg: Config, now: int, req: Request) {
    var once := Apply(s, cfg, now, req).store;
    var twice := Apply(once, cfg, now, req);
    && Accepts(once, cfg, req)
    && twice.store == once
    && twice.syncs == {}
    && forall c :: c in twice.changes ==> c.PruneBlocked?
  }

  /** A request that creates a model with the empty object for parameters. */
  ghost predicate CreatesEmpty(s: Store, req: Request) {
    exists spec :: spec in req.models && CreatesEmptyParams(Get(s.models, spec.modelId), spec)
  }

  lemma SecondModels(s: Store, cfg: Config, now: int, req: Request, m: ModelId)
    requires Accepts(s, cfg, req) && !CreatesEmpty(s, req) && m in Plan(req.models)
    ensures
      var managed := ManagedRegions(s.regions, cfg);
      var row := ModelAfter(s, cfg, now, req, m);
      var spec := Plan(req.models)[m];
      && row.Some?
      && NewRow(row, spec, managed, now) == row.value
      && RowChanges(row, spec, managed) == {}
      && RowToSync(row, spec, managed) == {}
      && !CatalogChanged(row, spec, managed)
  {
    hide Plan, NewRow, RowChanges, RowToSync, CatalogChanged, ModelAfter, ManagedRegions, RowAccepts;
    PlanFacts(req.models);
    ModelOutcome(s, cfg, now, req, m);
    RowSettles(Get(s.models, m), Plan(req.models)[m], ManagedRegions(s.regions, cfg), now);
  }

  lemma AcceptedAgain(s: Store, cfg: Config, now: int, req: Request)
    requires Accepts(s, cfg, req)
    ensures Accepts(Apply(s, cfg, now, req).store, cfg, req)
  {
    hide Plan, NewRow, ManagedRegions, RowAccepts, PrunedRow, Apply, ValidRequest;
    var managed, plan := ManagedRegions(s.regions, cfg), Plan(req.models);
    var once := Apply(s, cfg, now, req).store;
    ApplyKeepsRegions(s, cfg, now, req);
    ValidPlan(req);
    forall m | m in plan
      ensures SpecAccepted(once.models, plan, plan[m], managed)
    {
      ModelOutcome(s, cfg, now, req, m);
      RowStaysAccepted(Get(s.models, m), plan[m], managed, now);
      forall t | t in plan[m].aliasTargets && t.region in managed
        ensures TargetAccepted(once.models, plan, t.target)
      {
        ModelOutcome(s, cfg, now, req, t.target);
        if t.target in plan {
          RowKind(Get(s.models, t.target), plan[t.target], managed);
        } else {
          PruneSettles(t.target, s.models[t.target], managed, now);
        }
      }
    }
  }

  lemma ValidPlan(req: Request)
    requires ValidRequest(req)
    ensures forall m :: m in Plan(req.models) ==> Plan(req.models)[m].modelId == m
    ensures forall m :: m in Plan(req.models) ==> Plan(req.models)[m] in req.models
    ensures forall spec :: spec in req.models ==> spec.modelId in Plan(req.models) && Plan(req.models)[spec.modelId] == spec
  {
    PlanFacts(req.models);
  }

  lemma RowKind(prior: Option<ModelRow>, spec: ModelSpec, managed: set<RegionName>)
    requires RowAccepts(prior, spec, managed)
    ensures prior.Some? ==> prior.value.isAlias == spec.isAlias
  {
  }

  /** One application is enough unless the request creates a model with empty parameters. */
  lemma ConvergesOnce(s: Store, cfg: Config, now: int, req: Request)
    requires Accepts(s, cfg, req) && !CreatesEmpty(s, req)
    ensures Converges(s, cfg, now, req)
  {
    hide Plan, GroupPlan, NewRow, NewGroup, ManagedRegions, RowAccepts, PrunedRow, Accepts, RowChanges, RowToSync,
         CatalogChanged, GroupChanges, FlippedRegions, PruneChanges, PrunedRegions, PruneIsBlocked, Apply;
    var managed, plan, groupPlan := ManagedRegions(s.regions, cfg), Plan(req.models), GroupPlan(req.groups);
    var once := Apply(s, cfg, now, req).store;
    AcceptedAgain(s, cfg, now, req);
    ApplyKeepsRegions(s, cfg, now, req);
    forall m
      ensures m in plan ==>
        && m in once.models && NewRow(Some(once.models[m]), plan[m], managed, now) == once.models[m]
        && RowChanges(Some(once.models[m]), plan[m], managed) == {}
        && RowToSync(Some(once.models[m]), plan[m], managed) == {}
        && !CatalogChanged(Some(once.models[m]), plan[m], managed)
      ensures m in once.models && m !in plan && req.prune ==>
        && PrunedRow(once.models[m], managed, now) == once.models[m]
        && PrunedRegions(once.models[m], managed, now) == {}
        && forall c :: c in PruneChanges(m, once.models[m], managed, now) ==> c.PruneBlocked?
    {
      ModelOutcome(s, cfg, now, req, m);
      if m in plan {
        SecondModels(s, cfg, now, req, m);
      } else if m in s.models {
        PruneSettles(m, s.models[m], managed, now);
      }
    }
    forall g | g in groupPlan
      ensures
        && g in once.groups && NewGroup(Some(once.groups[g]), groupPlan[g], managed) == once.groups[g]
        && GroupChanges(Some(once.groups[g]), groupPlan[g], managed) == {}
        && FlippedRegions(Some(once.groups[g]), groupPlan[g], managed) == {}
    {
      GroupOutcome(s, cfg, now, req, g);
      GroupSettles(Get(s.groups, g), groupPlan[g], managed);
    }
    SettledStore(once, cfg, now, req);
  }

  /** A store whose rows are all settled is left alone. */
  lemma SettledStore(s: Store, cfg: Config, now: int, req: Request)
    requires
      var managed, plan, groupPlan := ManagedRegions(s.regions, cfg), Plan(req.models), GroupPlan(req.groups);
      && (forall m :: m in plan ==>
            && m in s.models && NewRow(Some(s.models[m]), plan[m], managed, now) == s.models[m]
            && RowChanges(Some(s.models[m]), plan[m], managed) == {}
            && RowToSync(Some(s.models[m]), plan[m], managed) == {}
            && !CatalogChanged(Some(s.models[m]), plan[m], managed))
      && (forall m :: m in s.models && m !in plan && req.prune ==>
            && PrunedRow(s.models[m], managed, now) == s.models[m]
            && PrunedRegions(s.models[m], managed, now) == {}
            && forall c :: c in PruneChanges(m, s.models[m], managed, now) ==> c.PruneBlocked?)
      && (forall g :: g in groupPlan ==>
            && g in s.groups && NewGroup(Some(s.groups[g]), groupPlan[g], managed) == s.groups[g]
            && GroupChanges(Some(s.groups[g]), groupPlan[g], managed) == {}
            && FlippedRegions(Some(s.groups[g]), groupPlan[g], managed) == {})
    ensures Apply(s, cfg, now, req).store == s
    ensures Apply(s, cfg, now, req).syncs == {}
    ensures forall c :: c in Apply(s, cfg, now, req).changes ==> c.PruneBlocked?
  {
    hide Plan, GroupPlan, ManagedRegions, AppliedModels, AppliedGroups, PrunedModels, WrittenPairs, RetaggedPairs,
         CatalogChangedModels, ActivePairs, ChangedGroupRegions, PrunedPairs, AllGroupChanges, AllRowChanges,
         AllPruneChanges, BlockedModels;
    var managed, plan, groupPlan := ManagedRegions(s.regions, cfg), Plan(req.models), GroupPlan(req.groups);
    SettledRows(s, groupPlan, plan, managed, now);
    SettledPrune(s.models, if req.prune then s.models.Keys - plan.Keys else {}, managed, now);
  }

  lemma SettledRows(
    s: Store, groupPlan: map<Slug, GroupSpec>, plan: map<ModelId, ModelSpec>, managed: set<RegionName>, now: int)
    requires forall m :: m in plan ==>
      && m in s.models && NewRow(Some(s.models[m]), plan[m], managed, now) == s.models[m]
      && RowChanges(Some(s.models[m]), plan[m], managed) == {}
      && RowToSync(Some(s.models[m]), plan[m], managed) == {}
      && !CatalogChanged(Some(s.models[m]), plan[m], managed)
    requires forall g :: g in groupPlan ==>
      && g in s.groups && NewGroup(Some(s.groups[g]), groupPlan[g], managed) == s.groups[g]
      && GroupChanges(Some(s.groups[g]), groupPlan[g], managed) == {}
      && FlippedRegions(Some(s.groups[g]), groupPlan[g], managed) == {}
    ensures AppliedModels(s.models, plan, managed, now) == s.models
    ensures AppliedGroups(s.groups, groupPlan, managed) == s.groups
    ensures WrittenPairs(s.models, plan, managed) == {}
    ensures ActivePairs(s.models, CatalogChangedModels(s.models, plan, managed), managed) == {}
    ensures RetaggedPairs(s.models, ChangedGroupRegions(s.groups, groupPlan, managed)) == {}
    ensures AllGroupChanges(s.groups, groupPlan, managed) == {}
    ensures AllRowChanges(s.models, plan, managed) == {}
  {
    hide NewRow, NewGroup, RowChanges, RowToSync, CatalogChanged, GroupChanges, FlippedRegions, MemberPairs,
         ActiveRegions;
    assert CatalogChangedModels(s.models, plan, managed) == {};
    assert ChangedGroupRegions(s.groups, groupPlan, managed) == map[];
  }

  lemma SettledPrune(models: map<ModelId, ModelRow>, ids: set<ModelId>, managed: set<RegionName>, now: int)
    requires forall m :: m in models && m in ids ==>
      && PrunedRow(models[m], managed, now) == models[m]
      && PrunedRegions(models[m], managed, now) == {}
      && forall c :: c in PruneChanges(m, models[m], managed, now) ==> c.PruneBlocked?
    ensures PrunedModels(models, ids, managed, now) == models
    ensures PrunedPairs(models, ids, managed, now) == {}
    ensures forall c :: c in AllPruneChanges(models, ids, managed, now) ==> c.PruneBlocked?
  {
    hide PrunedRow, PrunedRegions, PruneChanges;
  }

  /** Exactly when one application is enough. */
  lemma Convergence(s: Store, cfg: Config, now: int, req: Request)
    requires Accepts(s, cfg, req)
    ensures Converges(s, cfg, now, req) <==> !CreatesEmpty(s, req)
  {
    hide Plan, NewRow, ManagedRegions, RowAccepts, Apply, ValidRequest, Converges;
    if CreatesEmpty(s, req) {
      var spec :| spec in req.models && CreatesEmptyParams(Get(s.models, spec.modelId), spec);
      ValidPlan(req);
      EmptyParamsMove(s, cfg, now, req, spec);
    } else {
      ConvergesOnce(s, cfg, now, req);
    }
  }

  lemma EmptyParamsMove(s: Store, cfg: Config, now: int, req: Request, spec: ModelSpec)
    requires CreatesEmptyParams(Get(s.models, spec.modelId), spec)
    requires spec.modelId in Plan(req.models) && Plan(req.models)[spec.modelId] == spec
    requires RowAccepts(Get(s.models, spec.modelId), spec, ManagedRegions(s.regions, cfg))
    ensures !Converges(s, cfg, now, req)
  {
    hide Plan, ManagedRegions, RowAccepts, Apply, Accepts, ModelAfter, DesiredDeployments, NewTargets,
         ReconciledDeployments, Resolved, UpdatedFields;
    var managed := ManagedRegions(s.regions, cfg);
    var once := Apply(s, cfg, now, req).store;
    var prior := Get(s.models, spec.modelId);
    UpsertSettles(prior, spec, managed);
    ModelOutcome(s, cfg, now, req, spec.modelId);
    ModelOutcome(once, cfg, now, req, spec.modelId);
    ApplyKeepsRegions(s, cfg, now, req);
    StoredRow(s, cfg, now, req, spec.modelId);
    StoredRow(once, cfg, now, req, spec.modelId);
    var row := NewRow(prior, spec, managed, now);
    assert row.params == Some(map[]);
    assert NewRow(Some(row), spec, managed, now).params == None;
  }
}
