/** Concrete requests that show where a promise one might expect of the apply endpoint fails. */
module CatalogExamples {
  import opened Common
  import opened Credentials
  import opened Catalog
  import opened CatalogPlans
  import opened CatalogTheorems
  import opened CatalogConvergence

  const NO_FIELDS: CatalogFields := seq(8, _ => Text(None))
  const EU: RegionName := "eu"
  const MODEL: ModelId := "gpt"
  const ALIAS: ModelId := "fast"
  const LOCAL := Config(true, {})
  const LIVE := Deployment(true, None, Synced, None, 0)
  const BACKEND_A: Params := map["model" := Str("a")]
  const BACKEND_B: Params := map["model" := Str("b")]

  const MODEL_ROW := ModelRow(NO_FIELDS, false, true, Some(BACKEND_A), {}, map[], map[EU := LIVE])
  const ALIAS_ROW := ModelRow(NO_FIELDS, true, true, None, {}, map[EU := MODEL], map[EU := LIVE])
  const MODEL_SPEC := ModelSpec(MODEL, NO_FIELDS, Some(BACKEND_B), [], false, [DeploymentSpec(EU, None)], [])
  const ALIAS_SPEC := ModelSpec(ALIAS, NO_FIELDS, None, [], true, [], [TargetSpec(EU, MODEL)])

  /** One model, one alias to it, both deployed in the one region. */
  const STORE := Store(map[EU := true], map[], map[MODEL := MODEL_ROW, ALIAS := ALIAS_ROW])

  /** The same again, except for the backend of the model. */
  const REBACKED := Request(false, false, [], [MODEL_SPEC, ALIAS_SPEC])

  lemma ExampleRegions()
    ensures ManagedRegions(STORE.regions, LOCAL) == {EU}
    ensures DesiredDeployments(MODEL_SPEC, {EU}) == map[EU := None]
    ensures TargetMap(ALIAS_SPEC.aliasTargets, {EU}) == map[EU := MODEL]
    ensures DesiredDeployments(ALIAS_SPEC, {EU}) == map[EU := None]
  {
    assert MODEL_SPEC.deployments[..0] == [] && ALIAS_SPEC.aliasTargets[..0] == [];
    assert DeploymentMap([], {EU}) == map[] && TargetMap([], {EU}) == map[];
  }

  lemma ExamplePlan()
    ensures Plan(REBACKED.models) == map[MODEL := MODEL_SPEC, ALIAS := ALIAS_SPEC]
  {
    var models := REBACKED.models;
    assert models[..1] == [MODEL_SPEC] && models[..1][..0] == [];
    assert Plan([]) == map[] && Plan(models[..1]) == map[MODEL := MODEL_SPEC];
  }

  lemma AliasUntouched()
    ensures !CatalogChanged(Some(ALIAS_ROW), ALIAS_SPEC, {EU})
    ensures RowToSync(Some(ALIAS_ROW), ALIAS_SPEC, {EU}) == {}
  {
    ExampleRegions();
    hide DesiredDeployments, TargetMap;
    SameFieldsSettle(NO_FIELDS, 8);
    assert Within(ALIAS_ROW.targets, {EU}) == ALIAS_ROW.targets;
    assert Resolved(None, None) == None;
  }

  lemma TargetMoves()
    ensures
      var after := NewRow(Some(MODEL_ROW), MODEL_SPEC, {EU}, 0);
      TargetParams(Some(MODEL_ROW), MODEL, EU) != TargetParams(Some(after), MODEL, EU)
  {
    var after := NewRow(Some(MODEL_ROW), MODEL_SPEC, {EU}, 0);
    assert Merge(BACKEND_B, BACKEND_A) == BACKEND_B && "model" in BACKEND_B;
    assert Resolved(MODEL_SPEC.params, MODEL_ROW.params) == Some(BACKEND_B);
    assert after.params == Some(BACKEND_B) && after.active && !after.isAlias;
    ExampleRegions();
    hide DesiredDeployments, UpsertedRow;
    assert Resolved(None, None) == None;
    assert after.deployments[EU] == LIVE;
    assert OwnParams(MODEL_ROW, EU)["model"] == Str("a");
    assert OwnParams(after, EU)["model"] == Str("b");
  }

  lemma ExampleAccepted()
    ensures Accepts(STORE, LOCAL, REBACKED)
  {
    ExampleRegions();
    ExamplePlan();
    hide ManagedRegions, Plan, DesiredDeployments;
    assert ModelIds(REBACKED.models) == [MODEL, ALIAS];
    assert TargetRegions(ALIAS_SPEC.aliasTargets) == [EU] && DeploymentRegions(MODEL_SPEC.deployments) == [EU];
    assert Elements(MODEL_SPEC.accessGroups) == {};
  }

  lemma AliasLeftAlone()
    ensures LeftAlone(STORE, LOCAL, 0, REBACKED, ALIAS, EU)
  {
    ExampleRegions();
    ExamplePlan();
    AliasUntouched();
    assert GroupPlan(REBACKED.groups) == map[];
    hide ManagedRegions, Plan, GroupPlan, CatalogChanged, RowToSync, FlippedRegions;
  }

  lemma ModelChanges()
    ensures TargetChanges(STORE, LOCAL, 0, REBACKED, MODEL, EU)
  {
    ExampleAccepted();
    ExampleRegions();
    ExamplePlan();
    TargetMoves();
    TargetChangesExactly(STORE, LOCAL, 0, REBACKED, MODEL, EU);
    hide Accepts, ManagedRegions, Plan, NewRow, TargetParams, TargetChanges;
  }

  /** A request that changes nothing but a model's backend is accepted, and the alias that
      points at the model is served by the new backend in the catalog, yet is never pushed. */
  lemma AliasMissesItsPush()
    ensures Accepts(STORE, LOCAL, REBACKED) && MissedPush(STORE, LOCAL, 0, REBACKED, ALIAS, EU)
  {
    ExampleAccepted();
    ExampleRegions();
    AliasLeftAlone();
    ModelChanges();
    hide Accepts, ManagedRegions, LeftAlone, TargetChanges, MissedPush, Tags;
    MissedPushExactly(STORE, LOCAL, 0, REBACKED, ALIAS, EU);
  }

  /** A first model, posted with the empty object for parameters and no deployment. */
  const EMPTY_SPEC := ModelSpec(MODEL, NO_FIELDS, Some(map[]), [], false, [], [])
  const EMPTY_STORE := Store(map[EU := true], map[], map[])
  const CREATES_EMPTY := Request(false, false, [], [EMPTY_SPEC])

  /** It is accepted, and posting it again is not silent: the stored `{}` becomes null. */
  lemma EmptyParamsMoveAgain()
    ensures Accepts(EMPTY_STORE, LOCAL, CREATES_EMPTY) && !Converges(EMPTY_STORE, LOCAL, 0, CREATES_EMPTY)
  {
    assert EMPTY_SPEC.deployments == [] && CREATES_EMPTY.models[..0] == [];
    assert DesiredDeployments(EMPTY_SPEC, {EU}) == map[] && ManagedRegions(EMPTY_STORE.regions, LOCAL) == {EU};
    assert Plan([]) == map[] && Plan(CREATES_EMPTY.models) == map[MODEL := EMPTY_SPEC];
    assert ModelIds(CREATES_EMPTY.models) == [MODEL] && Elements(EMPTY_SPEC.accessGroups) == {};
    assert EMPTY_SPEC in CREATES_EMPTY.models && CreatesEmptyParams(None, EMPTY_SPEC);
    hide Plan, ManagedRegions, DesiredDeployments, Converges, CreatesEmptyParams;
    assert Accepts(EMPTY_STORE, LOCAL, CREATES_EMPTY);
    hide Accepts;
    Convergence(EMPTY_STORE, LOCAL, 0, CREATES_EMPTY);
  }
}
