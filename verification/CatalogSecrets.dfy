/** Credentials through the apply endpoint: what an administrator sees may be posted back, and
    the placeholder they see never reaches the store, unless it was posted inside a list. */
module CatalogSecrets {
  import opened Common
  import opened Credentials
  import opened Catalog
  import opened CatalogPlans
  import opened CatalogTheorems

  // ----- The placeholder is never stored -----

  ghost predicate CleanRow(row: ModelRow) {
    && !ContainsSentinel(Given(row.params))
    && forall r :: r in row.deployments ==> !ContainsSentinel(Given(row.deployments[r].override))
  }

  ghost predicate Clean(s: Store) {
    forall m :: m in s.models ==> CleanRow(s.models[m])
  }

  lemma ResolvedIsClean(submitted: Option<Params>, stored: Option<Params>)
    requires !ContainsSentinel(Given(stored))
    ensures !ContainsSentinel(Given(Resolved(submitted, stored)))
  {
    MergeNeverStoresSentinel(Given(submitted), Given(stored));
  }

  lemma NewRowIsClean(prior: Option<ModelRow>, spec: ModelSpec, managed: set<RegionName>, now: int)
    requires RowAccepts(prior, spec, managed)
    requires prior.Some? ==> CleanRow(prior.value)
    ensures CleanRow(NewRow(prior, spec, managed, now))
  {
    hide ContainsSentinel, DesiredDeployments, Resolved, UpdatedFields, NewTargets;
    assert !ContainsSentinel(Given(None)) by {
      NoParamsIsClean();
    }
    if prior.Some? {
      ResolvedIsClean(spec.params, prior.value.params);
    }
    var desired := DesiredDeployments(spec, managed);
    forall r | r in desired
      ensures !ContainsSentinel(Given(NewDeployment(Get(OldDeployments(prior), r), desired[r], now).override))
    {
      var stored := Get(OldDeployments(prior), r);
      ResolvedIsClean(desired[r], if stored.Some? then stored.value.override else None);
    }
    hide NewDeployment;
  }

  lemma NoParamsIsClean()
    ensures !ContainsSentinel(Given(None))
  {
  }

  /** One call of the endpoint, against whatever the regions are at that time. */
  datatype Call = Call(regions: map<RegionName, bool>, cfg: Config, now: int, req: Request)

  /** The committed store after one call. */
  function AfterCall(s: Store, call: Call): Store {
    var current := s.(regions := call.regions);
    if Accepts(current, call.cfg, call.req) && !call.req.dryRun
    then Apply(current, call.cfg, call.now, call.req).store else s
  }

  function AfterCalls(s: Store, calls: seq<Call>): Store {
    if calls == [] then s else AfterCall(AfterCalls(s, calls[..|calls| - 1]), calls[|calls| - 1])
  }

  lemma CallKeepsClean(s: Store, call: Call)
    requires Clean(s)
    ensures Clean(AfterCall(s, call))
  {
    hide Apply, ManagedRegions, CleanRow, Plan, NewRow, PrunedRow, RowAccepts, ValidRequest, ModelAfter;
    var current := s.(regions := call.regions);
    if Accepts(current, call.cfg, call.req) && !call.req.dryRun {
      PlanMatches(call.req);
      forall m | m in Apply(current, call.cfg, call.now, call.req).store.models
        ensures CleanRow(Apply(current, call.cfg, call.now, call.req).store.models[m])
      {
        var managed, plan := ManagedRegions(current.regions, call.cfg), Plan(call.req.models);
        StoredRow(current, call.cfg, call.now, call.req, m);
        ModelOutcome(current, call.cfg, call.now, call.req, m);
        if m in plan {
          NewRowIsClean(Get(current.models, m), plan[m], managed, call.now);
        } else {
          PrunedRowIsClean(current.models[m], managed, call.now);
        }
      }
    }
  }

  lemma PrunedRowIsClean(row: ModelRow, managed: set<RegionName>, now: int)
    requires CleanRow(row)
    ensures CleanRow(PrunedRow(row, managed, now))
  {
    hide ContainsSentinel;
  }

  /** Whatever is posted, in whatever order, no placeholder is ever stored where the endpoint
      looks for one: reached through objects. */
  lemma {:induction false} SentinelNeverStored(s: Store, calls: seq<Call>)
    requires Clean(s)
    ensures Clean(AfterCalls(s, calls))
  {
    if calls != [] {
      SentinelNeverStored(s, calls[..|calls| - 1]);
      CallKeepsClean(AfterCalls(s, calls[..|calls| - 1]), calls[|calls| - 1]);
    }
  }

  // ----- The placeholder inside lists -----

  ghost predicate DeepCleanRow(row: ModelRow) {
    && !DeepSentinel(Obj(Given(row.params)))
    && forall r :: r in row.deployments ==> !DeepSentinel(Obj(Given(row.deployments[r].override)))
  }

  /** No placeholder anywhere, lists included. */
  ghost predicate DeepClean(s: Store) {
    forall m :: m in s.models ==> DeepCleanRow(s.models[m])
  }

  /** The specification posts a placeholder inside a list, in parameters or in the override of a managed region. */
  ghost predicate PostsListed(spec: ModelSpec, managed: set<RegionName>) {
    || ListSentinel(Given(spec.params))
    || exists d :: d in spec.deployments && d.region in managed && ListSentinel(Given(d.override))
  }

  lemma ResolvedStores(submitted: Option<Params>, stored: Option<Params>)
    requires !DeepSentinel(Obj(Given(stored)))
    ensures DeepSentinel(Obj(Given(Resolved(submitted, stored)))) <==> ListSentinel(Given(submitted))
  {
    MergeStoresExactly(Given(submitted), Given(stored));
  }

  /** A clean document is free of the placeholder exactly if its lists are. */
  lemma CleanStores(submitted: Option<Params>)
    requires !ContainsSentinel(Given(submitted))
    ensures DeepSentinel(Obj(Given(submitted))) <==> ListSentinel(Given(submitted))
  {
    MergeWithoutSentinel(Given(submitted), map[]);
    MergeStoresExactly(Given(submitted), map[]);
  }

  lemma NothingStored()
    ensures !DeepSentinel(Obj(Given(None))) && !ListSentinel(Given(None))
  {
  }

  lemma NewOverrideStores(prior: Option<Deployment>, override: Option<Params>, now: int)
    requires prior.Some? ==> !DeepSentinel(Obj(Given(prior.value.override)))
    ensures DeepSentinel(Obj(Given(NewDeployment(prior, override, now).override))) <==> ListSentinel(Given(override))
  {
    hide DeepSentinel, ListSentinel, Resolved;
    NothingStored();
    ResolvedStores(override, if prior.Some? then prior.value.override else None);
  }

  lemma NewParamsStore(prior: Option<ModelRow>, spec: ModelSpec, managed: set<RegionName>)
    requires RowAccepts(prior, spec, managed) && ValidShape(spec)
    requires prior.Some? ==> DeepCleanRow(prior.value)
    ensures DeepSentinel(Obj(Given(UpsertedRow(prior, spec).params))) <==> ListSentinel(Given(spec.params))
  {
    hide DeepSentinel, ListSentinel, ContainsSentinel, Resolved, UpdatedFields, DesiredDeployments;
    NothingStored();
    if prior.Some? {
      ResolvedStores(spec.params, prior.value.params);
    } else {
      CleanStores(spec.params);
    }
  }

  /** Of the overrides that a specification asks for, one has a placeholder in a list. */
  lemma ListedOverrides(spec: ModelSpec, managed: set<RegionName>)
    requires ValidShape(spec)
    ensures
      (exists r :: r in DesiredDeployments(spec, managed) && ListSentinel(Given(DesiredDeployments(spec, managed)[r]))) <==>
      (exists d :: d in spec.deployments && d.region in managed && ListSentinel(Given(d.override)))
  {
    hide DeploymentMap, TargetMap, ListSentinel, Distinct;
    NothingStored();
    if spec.isAlias {
      forall r | r in DesiredDeployments(spec, managed)
        ensures !ListSentinel(Given(DesiredDeployments(spec, managed)[r]))
      {
        assert DesiredDeployments(spec, managed)[r] == None;
      }
    } else {
      assert DesiredDeployments(spec, managed) == DeploymentMap(spec.deployments, managed);
      hide DesiredDeployments;
      ListedInMap(spec.deployments, managed);
    }
  }

  lemma ListedInMap(ds: seq<DeploymentSpec>, managed: set<RegionName>)
    requires Distinct(DeploymentRegions(ds))
    ensures
      (exists r :: r in DeploymentMap(ds, managed) && ListSentinel(Given(DeploymentMap(ds, managed)[r]))) <==>
      (exists d :: d in ds && d.region in managed && ListSentinel(Given(d.override)))
  {
    hide DeploymentMap, ListSentinel, Distinct, DeploymentRegions, Given;
    var desired := DeploymentMap(ds, managed);
    if r :| r in desired && ListSentinel(Given(desired[r])) {
      MappedDeployment(ds, managed, r);
    }
    if d :| d in ds && d.region in managed && ListSentinel(Given(d.override)) {
      ListedDeployment(ds, managed, d);
      assert d.region in desired && ListSentinel(Given(desired[d.region]));
    }
  }

  lemma NewRowStores(prior: Option<ModelRow>, spec: ModelSpec, managed: set<RegionName>, now: int)
    requires RowAccepts(prior, spec, managed) && ValidShape(spec)
    requires prior.Some? ==> DeepCleanRow(prior.value)
    ensures DeepCleanRow(NewRow(prior, spec, managed, now)) <==> !PostsListed(spec, managed)
  {
    NewParamsStore(prior, spec, managed);
    ListedOverrides(spec, managed);
    hide DeepSentinel, ListSentinel, ContainsSentinel, DesiredDeployments, UpsertedRow, NewTargets, NewDeployment, RowAccepts;
    var row, desired := NewRow(prior, spec, managed, now), DesiredDeployments(spec, managed);
    forall r | r in desired
      ensures r in row.deployments
      ensures DeepSentinel(Obj(Given(row.deployments[r].override))) <==> ListSentinel(Given(desired[r]))
    {
      NewOverrideStores(Get(OldDeployments(prior), r), desired[r], now);
    }
    forall r | r in row.deployments && r !in desired
      ensures !DeepSentinel(Obj(Given(row.deployments[r].override)))
    {
      assert r in prior.value.deployments;
    }
  }

  lemma PrunedRowStores(row: ModelRow, managed: set<RegionName>, now: int)
    ensures DeepCleanRow(PrunedRow(row, managed, now)) <==> DeepCleanRow(row)
  {
    hide DeepSentinel;
    var after := PrunedRow(row, managed, now);
    assert after.deployments.Keys == row.deployments.Keys;
    assert forall r :: r in row.deployments ==> after.deployments[r].override == row.deployments[r].override;
  }

  /** An accepted request stores a placeholder exactly if one of its models posts it inside a list. */
  lemma ListedSentinelsAreStored(s: Store, cfg: Config, now: int, req: Request)
    requires DeepClean(s) && Accepts(s, cfg, req)
    ensures
      DeepClean(Apply(s, cfg, now, req).store) <==>
      forall spec :: spec in req.models ==> !PostsListed(spec, ManagedRegions(s.regions, cfg))
  {
    hide Apply, ManagedRegions, DeepCleanRow, Plan, NewRow, PrunedRow, RowAccepts, ModelAfter, PostsListed, ValidShape;
    var managed, plan, after := ManagedRegions(s.regions, cfg), Plan(req.models), Apply(s, cfg, now, req).store;
    PlanFacts(req.models);
    forall m | m in after.models
      ensures DeepCleanRow(after.models[m]) <==> (m in plan ==> !PostsListed(plan[m], managed))
    {
      StoredRow(s, cfg, now, req, m);
      ModelOutcome(s, cfg, now, req, m);
      if m in plan {
        NewRowStores(Get(s.models, m), plan[m], managed, now);
      } else {
        PrunedRowStores(s.models[m], managed, now);
      }
    }
    forall m | m in plan
      ensures m in after.models
    {
      StoredRow(s, cfg, now, req, m);
      ModelOutcome(s, cfg, now, req, m);
    }
  }

  /** If no accepted call posts one inside a list, no placeholder is ever stored at all. */
  lemma {:induction false} DeepSentinelNeverStored(s: Store, calls: seq<Call>)
    requires DeepClean(s)
    requires forall call, spec :: call in calls && spec in call.req.models ==>
      !PostsListed(spec, ManagedRegions(call.regions, call.cfg))
    ensures DeepClean(AfterCalls(s, calls))
  {
    hide Apply, Accepts, DeepCleanRow, PostsListed, ManagedRegions;
    if calls != [] {
      var before, call := calls[..|calls| - 1], calls[|calls| - 1];
      DeepSentinelNeverStored(s, before);
      var current := AfterCalls(s, before).(regions := call.regions);
      assert DeepClean(current) && call in calls;
      if Accepts(current, call.cfg, call.req) {
        ListedSentinelsAreStored(current, call.cfg, call.now, call.req);
      }
    }
  }

  // ----- Posting back what was shown -----

  /** The redacted view of stored parameters. */
  function Shown(params: Option<Params>): Option<Params> {
    if params.Some? then Some(Redact(params.value)) else None
  }

  /** What was shown resolves to what is stored, unless the stored value is the empty object. */
  lemma ShownResolves(stored: Option<Params>)
    ensures Resolved(Shown(stored), stored) == stored <==> stored != Some(map[])
  {
    if stored.Some? {
      RedactRoundTrip(stored.value);
    }
  }

  /** Re-posting the shown parameters of a model keeps the stored ones and reports no change of
      them. */
  lemma RepostedParams(s: Store, cfg: Config, now: int, req: Request, spec: ModelSpec)
    requires Accepts(s, cfg, req) && spec in req.models && spec.modelId in s.models
    requires spec.params == Shown(s.models[spec.modelId].params) && s.models[spec.modelId].params != Some(map[])
    ensures
      var after := ModelAfter(s, cfg, now, req, spec.modelId);
      after.Some? && after.value.params == s.models[spec.modelId].params
    ensures "litellm_params" !in UpdateDetails(s.models[spec.modelId], spec)
  {
    hide Plan, ManagedRegions, ModelAfter, DesiredDeployments, ReconciledDeployments, NewTargets, Resolved, RowAccepts;
    PlanFacts(req.models);
    ModelOutcome(s, cfg, now, req, spec.modelId);
    ShownResolves(s.models[spec.modelId].params);
    FieldNamesAreNotParams(s.models[spec.modelId].fields, spec.fields, 8);
  }

  lemma {:induction false} FieldNamesAreNotParams(prior: CatalogFields, desired: CatalogFields, n: nat)
    requires n <= 8
    ensures "litellm_params" !in ChangedFields(prior, desired, n)
  {
    if n > 0 {
      FieldNamesAreNotParams(prior, desired, n - 1);
    }
  }

  /** Re-posting the shown override of a deployment keeps the stored one and reports no change
      of it. */
  lemma RepostedOverride(s: Store, cfg: Config, now: int, req: Request, spec: ModelSpec, i: nat)
    requires Accepts(s, cfg, req) && spec in req.models && spec.modelId in s.models && i < |spec.deployments|
    requires spec.deployments[i].region in ManagedRegions(s.regions, cfg)
    requires
      var stored := s.models[spec.modelId].deployments;
      var d := spec.deployments[i];
      && d.region in stored
      && d.override == Shown(stored[d.region].override) && stored[d.region].override != Some(map[])
    ensures
      var r := spec.deployments[i].region;
      var stored := s.models[spec.modelId].deployments[r];
      var after := ModelAfter(s, cfg, now, req, spec.modelId);
      && after.Some? && r in after.value.deployments
      && after.value.deployments[r].override == stored.override
      && "override" !in DeploymentDetails(stored, spec.deployments[i].override)
  {
    hide Plan, ManagedRegions, ModelAfter, DeploymentMap, NewTargets, Resolved, RowAccepts, UpsertedRow, DeploymentRegions,
         Distinct;
    var managed := ManagedRegions(s.regions, cfg);
    PlanFacts(req.models);
    ModelOutcome(s, cfg, now, req, spec.modelId);
    assert ValidSpec(spec, Elements(Slugs(req.groups)));
    assert !spec.isAlias;
    ListedDeployment(spec.deployments, managed, spec.deployments[i]);
    ShownResolves(s.models[spec.modelId].deployments[spec.deployments[i].region].override);
  }
}
