/** Facts about requests indexed by key: a request that names every key once is fully
    described by its index, and the index does not depend on the order of the request. */
module CatalogPlans {
  import opened Common
  import opened Catalog

  lemma {:induction false} PlanFacts(specs: seq<ModelSpec>)
    requires Distinct(ModelIds(specs))
    ensures forall spec :: spec in specs ==> spec.modelId in Plan(specs) && Plan(specs)[spec.modelId] == spec
    ensures forall m :: m in Plan(specs) ==> Plan(specs)[m] in specs && Plan(specs)[m].modelId == m
  {
    if specs != [] {
      var n := |specs| - 1;
      var front := specs[..n];
      assert specs == front + [specs[n]];
      assert forall i :: 0 <= i < n ==> ModelIds(front)[i] == ModelIds(specs)[i];
      PlanFacts(front);
      assert ModelIds(specs)[n] == specs[n].modelId;
      forall spec | spec in front
        ensures spec.modelId != specs[n].modelId
      {
        var i :| 0 <= i < n && front[i] == spec;
        assert ModelIds(specs)[i] == spec.modelId;
      }
    }
  }

  lemma {:induction false} GroupPlanFacts(specs: seq<GroupSpec>)
    requires Distinct(Slugs(specs))
    ensures forall spec :: spec in specs ==> spec.slug in GroupPlan(specs) && GroupPlan(specs)[spec.slug] == spec
    ensures forall g :: g in GroupPlan(specs) ==> GroupPlan(specs)[g] in specs && GroupPlan(specs)[g].slug == g
  {
    if specs != [] {
      var n := |specs| - 1;
      var front := specs[..n];
      assert specs == front + [specs[n]];
      assert forall i :: 0 <= i < n ==> Slugs(front)[i] == Slugs(specs)[i];
      GroupPlanFacts(front);
      assert Slugs(specs)[n] == specs[n].slug;
      forall spec | spec in front
        ensures spec.slug != specs[n].slug
      {
        var i :| 0 <= i < n && front[i] == spec;
        assert Slugs(specs)[i] == spec.slug;
      }
    }
  }

  lemma PlanKeys(specs: seq<ModelSpec>)
    requires Distinct(ModelIds(specs))
    ensures Plan(specs).Keys == Elements(ModelIds(specs))
  {
    PlanFacts(specs);
    forall m | m in Elements(ModelIds(specs))
      ensures m in Plan(specs)
    {
      var i :| 0 <= i < |specs| && ModelIds(specs)[i] == m;
      assert specs[i] in specs;
    }
    forall m | m in Plan(specs)
      ensures m in Elements(ModelIds(specs))
    {
      var i :| 0 <= i < |specs| && specs[i] == Plan(specs)[m];
      assert ModelIds(specs)[i] == m;
    }
  }

  /** One more specification with a new key extends the index by that key alone. */
  lemma PlanPrefix(specs: seq<ModelSpec>, i: nat)
    requires Distinct(ModelIds(specs)) && i < |specs|
    ensures specs[i].modelId !in Plan(specs[..i])
    ensures Plan(specs[..i + 1]) == Plan(specs[..i])[specs[i].modelId := specs[i]]
  {
    var next := specs[..i + 1];
    assert next[..i] == specs[..i] && next[i] == specs[i];
    assert forall k :: 0 <= k < i ==> ModelIds(specs[..i])[k] == ModelIds(specs)[k];
    PlanFacts(specs[..i]);
    forall spec | spec in specs[..i]
      ensures spec.modelId != specs[i].modelId
    {
      var k :| 0 <= k < i && specs[..i][k] == spec;
      assert ModelIds(specs)[k] == spec.modelId && ModelIds(specs)[i] == specs[i].modelId;
    }
  }

  lemma GroupPlanPrefix(specs: seq<GroupSpec>, i: nat)
    requires Distinct(Slugs(specs)) && i < |specs|
    ensures specs[i].slug !in GroupPlan(specs[..i])
    ensures GroupPlan(specs[..i + 1]) == GroupPlan(specs[..i])[specs[i].slug := specs[i]]
  {
    var next := specs[..i + 1];
    assert next[..i] == specs[..i] && next[i] == specs[i];
    assert forall k :: 0 <= k < i ==> Slugs(specs[..i])[k] == Slugs(specs)[k];
    GroupPlanFacts(specs[..i]);
    forall spec | spec in specs[..i]
      ensures spec.slug != specs[i].slug
    {
      var k :| 0 <= k < i && specs[..i][k] == spec;
      assert Slugs(specs)[k] == spec.slug && Slugs(specs)[i] == specs[i].slug;
    }
  }

  /** Two requests with the same specifications have the same index. */
  lemma SamePlan(a: seq<ModelSpec>, b: seq<ModelSpec>)
    requires Distinct(ModelIds(a)) && Distinct(ModelIds(b))
    requires forall spec :: spec in a <==> spec in b
    ensures Plan(a) == Plan(b)
  {
    PlanFacts(a);
    PlanFacts(b);
    forall m | m in Plan(a)
      ensures m in Plan(b) && Plan(a)[m] == Plan(b)[m]
    {
      assert Plan(a)[m] in b;
    }
    forall m | m in Plan(b)
      ensures m in Plan(a)
    {
      assert Plan(b)[m] in a;
    }
  }

  lemma SameGroupPlan(a: seq<GroupSpec>, b: seq<GroupSpec>)
    requires Distinct(Slugs(a)) && Distinct(Slugs(b))
    requires forall spec :: spec in a <==> spec in b
    ensures GroupPlan(a) == GroupPlan(b)
  {
    GroupPlanFacts(a);
    GroupPlanFacts(b);
    forall g | g in GroupPlan(a)
      ensures g in GroupPlan(b) && GroupPlan(a)[g] == GroupPlan(b)[g]
    {
      assert GroupPlan(a)[g] in b;
    }
    forall g | g in GroupPlan(b)
      ensures g in GroupPlan(a)
    {
      assert GroupPlan(b)[g] in a;
    }
  }

  // ----- Non-aliases first -----

  function OfKind(specs: seq<ModelSpec>, alias: bool): seq<ModelSpec> {
    if specs == [] then [] else
      var last := specs[|specs| - 1];
      OfKind(specs[..|specs| - 1], alias) + (if last.isAlias == alias then [last] else [])
  }

  /** The order of processing: an alias can then find any target of the same request. */
  function Ordered(specs: seq<ModelSpec>): seq<ModelSpec> {
    OfKind(specs, false) + OfKind(specs, true)
  }

  lemma {:induction false} OfKindFacts(specs: seq<ModelSpec>, alias: bool)
    ensures forall spec :: spec in OfKind(specs, alias) <==> spec in specs && spec.isAlias == alias
    ensures Distinct(ModelIds(specs)) ==> Distinct(ModelIds(OfKind(specs, alias)))
  {
    if specs != [] {
      var n := |specs| - 1;
      var front, last := specs[..n], specs[n];
      assert specs == front + [last];
      OfKindFacts(front, alias);
      if Distinct(ModelIds(specs)) {
        assert forall i :: 0 <= i < n ==> ModelIds(front)[i] == ModelIds(specs)[i];
        var kept, all := OfKind(front, alias), OfKind(specs, alias);
        forall i, j | 0 <= i < j < |all|
          ensures ModelIds(all)[i] != ModelIds(all)[j]
        {
          if j < |kept| {
            assert ModelIds(kept)[i] == ModelIds(all)[i] && ModelIds(kept)[j] == ModelIds(all)[j];
          } else {
            assert all[j] == last && all[i] == kept[i] && kept[i] in front;
            var k :| 0 <= k < n && front[k] == kept[i];
            assert ModelIds(specs)[k] == all[i].modelId && ModelIds(specs)[n] == last.modelId;
          }
        }
      }
    }
  }

  /** One list behind the other, of specs that differ in kind and so in model id. */
  lemma OrderedDistinct(specs: seq<ModelSpec>)
    requires Distinct(ModelIds(specs))
    ensures Distinct(ModelIds(Ordered(specs)))
  {
    OfKindFacts(specs, false);
    OfKindFacts(specs, true);
    PlanFacts(specs);
    var models, aliases, all := OfKind(specs, false), OfKind(specs, true), Ordered(specs);
    hide OfKind, Ordered;
    assert all == models + aliases;
    forall i, j | 0 <= i < j < |all|
      ensures ModelIds(all)[i] != ModelIds(all)[j]
    {
      if j < |models| {
        assert ModelIds(models)[i] == all[i].modelId && ModelIds(models)[j] == all[j].modelId;
      } else if |models| <= i {
        assert ModelIds(aliases)[i - |models|] == all[i].modelId && ModelIds(aliases)[j - |models|] == all[j].modelId;
      } else {
        assert all[i] in models && all[j] in aliases;
        assert Plan(specs)[all[i].modelId] == all[i] && Plan(specs)[all[j].modelId] == all[j];
      }
    }
  }

  lemma OrderedFacts(specs: seq<ModelSpec>)
    requires Distinct(ModelIds(specs))
    ensures forall spec :: spec in Ordered(specs) <==> spec in specs
    ensures Distinct(ModelIds(Ordered(specs)))
    ensures Plan(Ordered(specs)) == Plan(specs)
    ensures forall i, j :: 0 <= i < j < |Ordered(specs)| && Ordered(specs)[i].isAlias ==> Ordered(specs)[j].isAlias
  {
    OfKindFacts(specs, false);
    OfKindFacts(specs, true);
    OrderedDistinct(specs);
    hide ModelIds, Plan, Distinct;
    var models, aliases := OfKind(specs, false), OfKind(specs, true);
    var all := Ordered(specs);
    assert forall i :: 0 <= i < |models| ==> all[i] == models[i] && all[i] in models;
    assert forall i :: |models| <= i < |all| ==> all[i] == aliases[i - |models|] && all[i] in aliases;
    SamePlan(all, specs);
  }

  // ----- Permuted requests -----

  lemma {:induction false} DistinctCount<T>(xs: seq<T>)
    ensures Distinct(xs) <==> forall x :: multiset(xs)[x] <= 1
  {
    if xs != [] {
      var n := |xs| - 1;
      var front, last := xs[..n], xs[n];
      assert xs == front + [last];
      assert multiset(xs) == multiset(front) + multiset{last};
      DistinctCount(front);
      if Distinct(xs) {
        assert last !in front;
        assert multiset(front)[last] == 0;
      } else {
        var i, j :| 0 <= i < j < |xs| && xs[i] == xs[j];
        if j < n {
          assert front[i] == front[j];
          var x :| multiset(front)[x] > 1;
          assert multiset(xs)[x] > 1;
        } else {
          assert last == front[i] && front[i] in front;
          assert multiset(front)[last] >= 1;
          assert multiset(xs)[last] > 1;
        }
      }
    }
  }

  lemma PermutedModelIds(a: seq<ModelSpec>, b: seq<ModelSpec>)
    requires multiset(a) == multiset(b)
    requires Distinct(ModelIds(a))
    ensures forall spec :: spec in a <==> spec in b
    ensures Distinct(ModelIds(b))
  {
    assert forall spec :: spec in a <==> spec in multiset(a);
    assert forall spec :: spec in b <==> spec in multiset(b);
    PlanFacts(a);
    forall i, j | 0 <= i < j < |a|
      ensures a[i] != a[j]
    {
      assert ModelIds(a)[i] == a[i].modelId && ModelIds(a)[j] == a[j].modelId;
    }
    DistinctCount(a);
    DistinctCount(b);
    forall i, j | 0 <= i < j < |b|
      ensures ModelIds(b)[i] != ModelIds(b)[j]
    {
      assert b[i] in a && b[j] in a && b[i] != b[j];
      assert Plan(a)[b[i].modelId] == b[i] && Plan(a)[b[j].modelId] == b[j];
    }
  }

  lemma PermutedSlugs(a: seq<GroupSpec>, b: seq<GroupSpec>)
    requires multiset(a) == multiset(b)
    requires Distinct(Slugs(a))
    ensures forall spec :: spec in a <==> spec in b
    ensures Distinct(Slugs(b))
  {
    assert forall spec :: spec in a <==> spec in multiset(a);
    assert forall spec :: spec in b <==> spec in multiset(b);
    GroupPlanFacts(a);
    forall i, j | 0 <= i < j < |a|
      ensures a[i] != a[j]
    {
      assert Slugs(a)[i] == a[i].slug && Slugs(a)[j] == a[j].slug;
    }
    DistinctCount(a);
    DistinctCount(b);
    forall i, j | 0 <= i < j < |b|
      ensures Slugs(b)[i] != Slugs(b)[j]
    {
      assert b[i] in a && b[j] in a && b[i] != b[j];
      assert GroupPlan(a)[b[i].slug] == b[i] && GroupPlan(a)[b[j].slug] == b[j];
    }
  }
}
