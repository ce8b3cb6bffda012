/**
 * The public model listing's filters. Access filtering is batched: whatever the number of regions, it looks
 * up the enforced regions, the caller's opt-ins and the members of the groups involved once each, and builds
 * dictionaries from them. It is proved here against the plain per-region definition, and that definition
 * against what the proxies enforce.
 */
module PublicFilter {
  import opened Common
  import opened AccessGroups

  datatype Summary = Summary(id: string, aliases: seq<string>)

  datatype Listing = Listing(region: string, status: string, models: seq<Summary>)

  /** `team` is the caller's team id; the source takes a missing id and the id 0 alike. */
  datatype Caller = Anonymous | User(admin: bool, team: Option<Id>)

  /** The access tables with the names the listing goes by. */
  datatype Catalog = Catalog(store: Store, regionNames: map<Id, string>, modelNames: map<Id, string>)

  /** Every region and model has a name, and no two regions share one. */
  ghost predicate Named(c: Catalog) {
    && c.regionNames.Keys == c.store.regions.Keys
    && c.modelNames.Keys == c.store.models.Keys
    && (forall a, b | a in c.regionNames && b in c.regionNames && c.regionNames[a] == c.regionNames[b] :: a == b)
    && References(c.store)
  }

  function Keep(models: seq<Summary>, allowed: set<string>): (kept: seq<Summary>)
    ensures forall m :: m in kept <==> m in models && m.id in allowed
  {
    if models == [] then []
    else (if models[0].id in allowed then [models[0]] else []) + Keep(models[1..], allowed)
  }

  // ------------------------------------------------------------ the plain definition

  predicate IsAdmin(caller: Caller) {
    caller.User? && caller.admin
  }

  function TeamOf(caller: Caller): Option<Id> {
    if caller.User? && caller.team != Some(0) then caller.team else None
  }

  predicate Restricted(c: Catalog, region: Id) {
    Enforced(c.store, region) && c.store.regions[region].managed
  }

  /** The region's default group and the caller team's opt-ins deployed there. */
  ghost predicate Allows(s: Store, team: Option<Id>, region: Id, g: Id)
    requires region in s.regions
  {
    || s.regions[region].default == Some(g)
    || (g in s.groups && team.Some? && team.value in s.groups[g].teams && region in s.groups[g].regions)
  }

  /** The names of the models that are in some allowed group and not deleted. */
  ghost function AllowedNames(c: Catalog, team: Option<Id>, region: Id): set<string>
    requires Named(c) && region in c.store.regions
  {
    set g, m | g in c.store.groups && Allows(c.store, team, region, g) && m in c.store.groups[g].models
               && m in c.store.models && !c.store.models[m].deleted :: c.modelNames[m]
  }

  ghost predicate IsRegion(c: Catalog, name: string, region: Id) {
    region in c.regionNames && c.regionNames[region] == name
  }

  /** What the caller sees of one region's listing. */
  ghost function Visible(c: Catalog, caller: Caller, l: Listing): Listing
    requires Named(c)
  {
    if !IsAdmin(caller) && (exists r :: IsRegion(c, l.region, r) && Restricted(c, r)) then
      var region :| IsRegion(c, l.region, region) && Restricted(c, region);
      l.(models := Keep(l.models, AllowedNames(c, TeamOf(caller), region)))
    else
      l
  }

  lemma VisibleIn(c: Catalog, caller: Caller, l: Listing, region: Id)
    requires Named(c) && IsRegion(c, l.region, region)
    ensures
      Visible(c, caller, l) ==
      if IsAdmin(caller) || !Restricted(c, region) then l
      else l.(models := Keep(l.models, AllowedNames(c, TeamOf(caller), region)))
  {
    forall r | IsRegion(c, l.region, r)
      ensures r == region
    {
      assert c.regionNames[r] == c.regionNames[region];
    }
  }

  // ------------------------------------------------------------ the batched filter

  /** The dictionary after these rows: to each region's own set, the groups its rows name. */
  function Grown(base: map<Id, set<Id>>, rows: set<(Id, Id)>): map<Id, set<Id>> {
    map r | r in base :: base[r] + Of(rows, r)
  }

  function Of(rows: set<(Id, Id)>, r: Id): set<Id> {
    set row | row in rows && row.0 == r :: row.1
  }

  lemma GrownTurn(base: map<Id, set<Id>>, rows: set<(Id, Id)>, row: (Id, Id))
    requires row.0 in base
    ensures
      var now := Grown(base, rows);
      Grown(base, rows + {row}) == now[row.0 := now[row.0] + {row.1}]
  {
    assert Of(rows + {row}, row.0) == Of(rows, row.0) + {row.1};
    forall r | r != row.0
      ensures Of(rows + {row}, r) == Of(rows, r)
    {
    }
    assert base[row.0] + (Of(rows, row.0) + {row.1}) == base[row.0] + Of(rows, row.0) + {row.1};
  }

  lemma GrownStart(base: map<Id, set<Id>>)
    ensures Grown(base, {}) == base
  {
    forall r | r in base
      ensures base[r] + Of({}, r) == base[r]
    {
      assert Of({}, r) == {};
    }
  }

  lemma GrownEnd(c: Catalog, base: map<Id, set<Id>>, rows: set<(Id, Id)>, team: Id, r: Id)
    requires r in base && r in c.store.regions && Enforced(c.store, r)
    requires base[r] == {c.store.regions[r].default.value}
    requires forall g :: (r, g) in rows <==>
        g in c.store.groups && team in c.store.groups[g].teams && r in c.store.groups[g].regions
    ensures forall g :: g in Grown(base, rows)[r] <==> Allows(c.store, Some(team), r, g)
  {
    forall g
      ensures g in Grown(base, rows)[r] <==> g in base[r] || (r, g) in rows
    {
    }
  }

  /** One dictionary entry per region, grown by one set insertion per opt-in row. */
  method AllowedGroups(c: Catalog, relevant: set<Id>, team: Option<Id>) returns (allowed: map<Id, set<Id>>)
    requires forall r | r in relevant :: r in c.store.regions && Enforced(c.store, r)
    ensures allowed.Keys == relevant
    ensures forall r, g | r in relevant && r in c.store.regions :: g in allowed[r] <==> Allows(c.store, team, r, g)
  {
    hide Grown;
    allowed := map r | r in relevant :: {c.store.regions[r].default.value};
    if team.None? {
      return;
    }
    var optIns := set g, r | g in c.store.groups && team.value in c.store.groups[g].teams
                             && r in c.store.groups[g].regions && r in relevant :: (r, g);
    ghost var base := allowed;
    var todo := optIns;
    GrownStart(base);
    assert optIns - todo == {};
    while todo != {}
      invariant todo <= optIns
      invariant allowed.Keys == relevant
      invariant allowed == Grown(base, optIns - todo)
    {
      var row :| row in todo;
      GrownTurn(base, optIns - todo, row);
      assert optIns - (todo - {row}) == optIns - todo + {row};
      allowed := allowed[row.0 := allowed[row.0] + {row.1}];
      todo := todo - {row};
    }
    assert optIns - todo == optIns;
    forall r | r in relevant
      ensures forall g :: g in allowed[r] <==> Allows(c.store, team, r, g)
    {
      GrownEnd(c, base, optIns, team.value, r);
    }
  }

  /** The dictionary holds the live members of these groups, by group, and nothing else. */
  ghost predicate IsMemberIndex(c: Catalog, ids: set<Id>, names: map<Id, set<string>>)
    requires Named(c)
  {
    && (forall g, name | g in names && name in names[g] ::
         && g in ids && g in c.store.groups
         && exists m | m in c.store.groups[g].models :: !c.store.models[m].deleted && c.modelNames[m] == name)
    && (forall g, m | g in ids && g in c.store.groups && m in c.store.groups[g].models && !c.store.models[m].deleted ::
         g in names && c.modelNames[m] in names[g])
  }

  method NamesByGroup(c: Catalog, ids: set<Id>) returns (names: map<Id, set<string>>)
    requires Named(c)
    ensures IsMemberIndex(c, ids, names)
  {
    var rows := set g, m | g in ids && g in c.store.groups && m in c.store.groups[g].models
                           && !c.store.models[m].deleted :: (g, c.modelNames[m]);
    names := map[];
    var todo := rows;
    while todo != {}
      invariant todo <= rows
      invariant forall g, name | g in names && name in names[g] :: (g, name) in rows
      invariant forall row | row in rows - todo :: row.0 in names && row.1 in names[row.0]
    {
      var row :| row in todo;
      names := names[row.0 := Get(names, row.0).GetOr({}) + {row.1}];
      todo := todo - {row};
    }
    forall g, m | g in ids && g in c.store.groups && m in c.store.groups[g].models && !c.store.models[m].deleted
      ensures g in names && c.modelNames[m] in names[g]
    {
      assert (g, c.modelNames[m]) in rows - todo;
    }
  }

  function Shown(ids: set<Id>, names: map<Id, set<string>>): set<string> {
    set g, name | g in ids && g in names && name in names[g] :: name
  }

  /** The union of the dictionaries' entries is the plain definition's set. */
  lemma ShownIsAllowed(c: Catalog, team: Option<Id>, region: Id, ids: set<Id>, all: set<Id>, names: map<Id, set<string>>)
    requires Named(c) && region in c.store.regions
    requires ids <= all && IsMemberIndex(c, all, names)
    requires forall g :: g in ids <==> Allows(c.store, team, region, g)
    ensures Shown(ids, names) == AllowedNames(c, team, region)
  {
    hide Allows;
    var shown := Shown(ids, names);
    forall name | name in shown
      ensures name in AllowedNames(c, team, region)
    {
      var g :| g in ids && g in names && name in names[g];
      assert Allows(c.store, team, region, g);
    }
    forall name | name in AllowedNames(c, team, region)
      ensures name in shown
    {
      var g, m :| g in c.store.groups && Allows(c.store, team, region, g) && m in c.store.groups[g].models
                  && m in c.store.models && !c.store.models[m].deleted && c.modelNames[m] == name;
      assert g in ids;
      assert name in names[g];
    }
  }

  lemma InUnion(index: map<Id, set<Id>>, k: Id)
    requires k in index
    ensures index[k] <= Union(index)
  {
  }

  lemma Unlisted(c: Catalog, caller: Caller, l: Listing)
    requires Named(c)
    requires forall r | IsRegion(c, l.region, r) :: !Restricted(c, r)
    ensures Visible(c, caller, l) == l
  {
  }

  /** The three dictionaries answer for these listings. */
  ghost predicate Indexed(c: Catalog, team: Option<Id>, listings: seq<Listing>, enforced: map<string, Id>,
                          allowed: map<Id, set<Id>>, names: map<Id, set<string>>)
    requires Named(c)
  {
    && EnforcedByName(c, enforced)
    && (forall l | l in listings && l.region in enforced :: enforced[l.region] in allowed)
    && (forall r, g | r in allowed && r in c.store.regions :: g in allowed[r] <==> Allows(c.store, team, r, g))
    && IsMemberIndex(c, Union(allowed), names)
  }

  ghost predicate EnforcedByName(c: Catalog, enforced: map<string, Id>) {
    && (forall name | name in enforced :: IsRegion(c, name, enforced[name]) && Restricted(c, enforced[name]))
    && (forall r | r in c.regionNames && Restricted(c, r) :: c.regionNames[r] in enforced)
  }

  lemma UnlistedIsVisible(c: Catalog, caller: Caller, l: Listing, enforced: map<string, Id>)
    requires Named(c) && EnforcedByName(c, enforced) && l.region !in enforced
    ensures Visible(c, caller, l) == l
  {
    forall r | IsRegion(c, l.region, r)
      ensures !Restricted(c, r)
    {
    }
    Unlisted(c, caller, l);
  }

  method FilterListing(c: Catalog, caller: Caller, l: Listing, ghost listings: seq<Listing>, enforced: map<string, Id>,
                       allowed: map<Id, set<Id>>, names: map<Id, set<string>>)
    returns (shown: Listing)
    requires Named(c) && !IsAdmin(caller) && l in listings && Indexed(c, TeamOf(caller), listings, enforced, allowed, names)
    ensures shown == Visible(c, caller, l)
  {
    hide Visible, AllowedNames, Allows, IsMemberIndex, Union, Shown;
    if l.region !in enforced {
      UnlistedIsVisible(c, caller, l, enforced);
      return l;
    }
    var region := enforced[l.region];
    InUnion(allowed, region);
    ShownIsAllowed(c, TeamOf(caller), region, allowed[region], Union(allowed), names);
    VisibleIn(c, caller, l, region);
    return l.(models := Keep(l.models, Shown(allowed[region], names)));
  }

  method FilterEach(c: Catalog, caller: Caller, listings: seq<Listing>, enforced: map<string, Id>,
                    allowed: map<Id, set<Id>>, names: map<Id, set<string>>)
    returns (filtered: seq<Listing>)
    requires Named(c) && !IsAdmin(caller) && Indexed(c, TeamOf(caller), listings, enforced, allowed, names)
    ensures |filtered| == |listings|
    ensures forall i | 0 <= i < |listings| :: filtered[i] == Visible(c, caller, listings[i])
  {
    hide Visible, Indexed, Named;
    filtered := [];
    for i := 0 to |listings|
      invariant |filtered| == i
      invariant forall j | 0 <= j < i :: filtered[j] == Visible(c, caller, listings[j])
    {
      var shown := FilterListing(c, caller, listings[i], listings, enforced, allowed, names);
      filtered := filtered + [shown];
    }
  }

  lemma IndexedFrom(c: Catalog, team: Option<Id>, listings: seq<Listing>, enforced: map<string, Id>, relevant: set<Id>,
                    allowed: map<Id, set<Id>>, names: map<Id, set<string>>)
    requires Named(c) && EnforcedByName(c, enforced)
    requires relevant == set l | l in listings && l.region in enforced :: enforced[l.region]
    requires allowed.Keys == relevant
    requires forall r, g | r in relevant && r in c.store.regions :: g in allowed[r] <==> Allows(c.store, team, r, g)
    requires IsMemberIndex(c, Union(allowed), names)
    ensures Indexed(c, team, listings, enforced, allowed, names)
  {
    hide Named, EnforcedByName, IsMemberIndex, Allows, Union;
  }

  /** The regions with a default group that the catalog manages, by name. */
  method EnforcedRegionsByName(c: Catalog) returns (enforced: map<string, Id>)
    requires Named(c)
    ensures EnforcedByName(c, enforced)
  {
    enforced := map r | r in c.store.regions && Restricted(c, r) :: c.regionNames[r] := r;
  }

  /** However many regions are listed, each caller is shown exactly what the plain definition says. */
  method FilterByAccess(c: Catalog, listings: seq<Listing>, caller: Caller) returns (filtered: seq<Listing>)
    requires Named(c)
    ensures |filtered| == |listings|
    ensures forall i | 0 <= i < |listings| :: filtered[i] == Visible(c, caller, listings[i])
  {
    if caller.User? && caller.admin {
      return listings;
    }
    hide Visible, Allows, IsMemberIndex, Union;
    var enforced := EnforcedRegionsByName(c);
    forall l: Listing | l.region !in enforced
      ensures Visible(c, caller, l) == l
    {
      UnlistedIsVisible(c, caller, l, enforced);
    }
    if enforced == map[] {
      return listings;
    }
    var relevant := set l | l in listings && l.region in enforced :: enforced[l.region];
    assert forall l | l in listings && l.region in enforced :: enforced[l.region] in relevant;
    if relevant == {} {
      return listings;
    }
    var team := if caller.User? && caller.team != Some(0) then caller.team else None;
    var allowed := AllowedGroups(c, relevant, team);
    var names := NamesByGroup(c, Union(allowed));
    IndexedFrom(c, team, listings, enforced, relevant, allowed, names);
    filtered := FilterEach(c, caller, listings, enforced, allowed, names);
  }

  // ------------------------------------------------------------ what the listing means

  /** What one filter keeps of what another kept is what both keep, in order. */
  lemma {:induction false} KeepTwice(models: seq<Summary>, a: set<string>, b: set<string>)
    ensures Keep(Keep(models, a), b) == Keep(models, a * b)
  {
    if models != [] {
      KeepTwice(models[1..], a, b);
      var kept := Keep(models[1..], a);
      if models[0].id in a {
        assert Keep(models, a) == [models[0]] + kept;
        assert ([models[0]] + kept)[1..] == kept;
      } else {
        assert Keep(models, a) == [] + kept == kept;
        assert Keep(models, a * b) == [] + Keep(models[1..], a * b) == Keep(models[1..], a * b);
      }
    }
  }

  /** Whatever an anonymous caller is shown, every caller is: filtering it again changes nothing. */
  lemma AnonymousSeesLeast(c: Catalog, caller: Caller, l: Listing)
    requires Named(c)
    ensures
      var shown, least := Visible(c, caller, l), Visible(c, Anonymous, l);
      && Visible(c, Anonymous, shown) == least
      && forall m | m in least.models :: m in shown.models
  {
    if r :| IsRegion(c, l.region, r) && Restricted(c, r) {
      VisibleIn(c, caller, l, r);
      VisibleIn(c, Anonymous, l, r);
      VisibleIn(c, Anonymous, Visible(c, caller, l), r);
      var mine, least := AllowedNames(c, TeamOf(caller), r), AllowedNames(c, None, r);
      assert least <= mine;
      KeepTwice(l.models, mine, least);
      assert mine * least == least;
    }
  }

  /** A model is shown under an alias filter when it has one of the aliases; no filter shows all. */
  function ByAlias(models: seq<Summary>, aliases: set<string>): (kept: seq<Summary>)
    ensures forall m :: m in kept <==> m in models && Elements(m.aliases) * aliases != {}
  {
    if models == [] then []
    else (if Elements(models[0].aliases) * aliases != {} then [models[0]] else []) + ByAlias(models[1..], aliases)
  }

  function AliasFiltered(l: Listing, aliases: set<string>): Listing {
    if aliases == {} then l else l.(models := ByAlias(l.models, aliases))
  }

  method FilterByAlias(listings: seq<Listing>, aliases: set<string>) returns (filtered: seq<Listing>)
    ensures |filtered| == |listings|
    ensures forall i | 0 <= i < |listings| :: filtered[i] == AliasFiltered(listings[i], aliases)
  {
    if aliases == {} {
      return listings;
    }
    filtered := [];
    for i := 0 to |listings|
      invariant |filtered| == i
      invariant forall j | 0 <= j < i :: filtered[j] == AliasFiltered(listings[j], aliases)
    {
      filtered := filtered + [listings[i].(models := ByAlias(listings[i].models, aliases))];
    }
  }

  lemma {:induction false} KeepAliasCommute(models: seq<Summary>, allowed: set<string>, aliases: set<string>)
    ensures ByAlias(Keep(models, allowed), aliases) == Keep(ByAlias(models, aliases), allowed)
  {
    if models != [] {
      KeepAliasCommute(models[1..], allowed, aliases);
      var kept, named := Keep(models[1..], allowed), ByAlias(models[1..], aliases);
      if models[0].id in allowed {
        assert ([models[0]] + kept)[1..] == kept;
      } else {
        assert [] + kept == kept;
      }
      if Elements(models[0].aliases) * aliases != {} {
        assert ([models[0]] + named)[1..] == named;
      } else {
        assert [] + named == named;
      }
    }
  }

  /** The two filters may be applied in either order. */
  lemma FiltersCommute(c: Catalog, caller: Caller, l: Listing, aliases: set<string>)
    requires Named(c)
    ensures AliasFiltered(Visible(c, caller, l), aliases) == Visible(c, caller, AliasFiltered(l, aliases))
  {
    if !IsAdmin(caller) && aliases != {} {
      if r :| IsRegion(c, l.region, r) && Restricted(c, r) {
        VisibleIn(c, caller, l, r);
        VisibleIn(c, caller, AliasFiltered(l, aliases), r);
        KeepAliasCommute(l.models, AllowedNames(c, TeamOf(caller), r), aliases);
      }
    }
  }

  /** A model the team's own proxy list would let it call: one of its tags is on the list. */
  ghost predicate Callable(s: Store, team: Id, region: Id, m: Id)
    requires region in s.regions
  {
    EffectiveSlugs(s, team, region).Some? ==> Tags(s, m, region) * EffectiveSlugs(s, team, region).value != {}
  }

  /**
   * The listing agrees with the proxies: for a team, in a region the access filter restricts, a name is
   * shown exactly if some live model of that name carries a tag on the team's list there.
   */
  lemma ListingAgreesWithProxy(c: Catalog, team: Id, region: Id, name: string)
    requires Named(c) && DefaultsDeployed(c.store) && region in c.store.regions && Restricted(c, region)
    ensures
      name in AllowedNames(c, Some(team), region) <==>
      exists m | m in c.store.models ::
        !c.store.models[m].deleted && c.modelNames[m] == name && Callable(c.store, team, region, m)
  {
    hide AllowedNames;
    var s := c.store;
    assert name in AllowedNames(c, Some(team), region) <==>
      exists m | m in s.models :: !s.models[m].deleted && c.modelNames[m] == name && InAllowedGroup(s, team, region, m) by {
      NamesAreMembers(c, team, region, name);
    }
    forall m
      ensures InAllowedGroup(s, team, region, m) <==> Callable(s, team, region, m)
    {
      AllowedIsCallable(s, team, region, m);
    }
  }

  ghost predicate InAllowedGroup(s: Store, team: Id, region: Id, m: Id)
    requires region in s.regions
  {
    exists g | g in s.groups :: Allows(s, Some(team), region, g) && m in s.groups[g].models
  }

  lemma NamesAreMembers(c: Catalog, team: Id, region: Id, name: string)
    requires Named(c) && region in c.store.regions
    ensures
      name in AllowedNames(c, Some(team), region) <==>
      exists m | m in c.store.models ::
        !c.store.models[m].deleted && c.modelNames[m] == name && InAllowedGroup(c.store, team, region, m)
  {
    hide Allows;
  }

  lemma AllowedIsCallable(s: Store, team: Id, region: Id, m: Id)
    requires References(s) && DefaultsDeployed(s) && Enforced(s, region) && s.regions[region].managed
    ensures InAllowedGroup(s, team, region, m) <==> Callable(s, team, region, m)
  {
    var list := EffectiveSlugs(s, team, region).value;
    if InAllowedGroup(s, team, region, m) {
      var g :| g in s.groups && Allows(s, Some(team), region, g) && m in s.groups[g].models;
      assert s.groups[g].slug in Tags(s, m, region) * list;
    }
    if Callable(s, team, region, m) {
      var slug :| slug in Tags(s, m, region) * list;
      var g :| g in s.groups && m in s.groups[g].models && region in s.groups[g].regions && s.groups[g].slug == slug;
      assert Allows(s, Some(team), region, g);
    }
  }

  // ------------------------------------------------------------ in the tables' own terms

  lemma KeepFirst(m: Summary, rest: seq<Summary>, allowed: set<string>)
    ensures Keep([m] + rest, allowed) == Keep([m], allowed) + Keep(rest, allowed)
    ensures Keep([m], allowed) == if m.id in allowed then [m] else []
    ensures Keep([], allowed) == []
  {
    assert ([m] + rest)[1..] == rest && [m][1..] == [];
  }

  /** Filtering works model by model and keeps the order. */
  lemma {:induction false} KeepPieces(a: seq<Summary>, b: seq<Summary>, m: Summary, allowed: set<string>)
    ensures Keep(a + b, allowed) == Keep(a, allowed) + Keep(b, allowed)
    ensures Keep([m], allowed) == if m.id in allowed then [m] else []
  {
    hide Keep;
    KeepFirst(m, b, allowed);
    if a == [] {
      assert a + b == b;
    } else {
      KeepPieces(a[1..], b, m, allowed);
      KeepFirst(a[0], a[1..] + b, allowed);
      KeepFirst(a[0], a[1..], allowed);
      assert [a[0]] + (a[1..] + b) == a + b && [a[0]] + a[1..] == a;
      var x, y, z := Keep([a[0]], allowed), Keep(a[1..], allowed), Keep(b, allowed);
      assert x + (y + z) == x + y + z;
    }
  }

  lemma ByAliasFirst(m: Summary, rest: seq<Summary>, aliases: set<string>)
    ensures ByAlias([m] + rest, aliases) == ByAlias([m], aliases) + ByAlias(rest, aliases)
  {
    assert ([m] + rest)[1..] == rest && [m][1..] == [];
    hide Elements;
  }

  lemma {:induction false} ByAliasPieces(a: seq<Summary>, b: seq<Summary>, aliases: set<string>)
    ensures ByAlias(a + b, aliases) == ByAlias(a, aliases) + ByAlias(b, aliases)
  {
    hide ByAlias;
    if a == [] {
      assert a + b == b;
      assert ByAlias([], aliases) == [] by {
        NoneByAlias(aliases);
      }
    } else {
      ByAliasPieces(a[1..], b, aliases);
      ByAliasFirst(a[0], a[1..] + b, aliases);
      ByAliasFirst(a[0], a[1..], aliases);
      assert [a[0]] + (a[1..] + b) == a + b && [a[0]] + a[1..] == a;
      var x, y, z := ByAlias([a[0]], aliases), ByAlias(a[1..], aliases), ByAlias(b, aliases);
      assert x + (y + z) == x + y + z;
    }
  }

  lemma NoneByAlias(aliases: set<string>)
    ensures ByAlias([], aliases) == []
  {
  }

  lemma OneByAlias(m: Summary, aliases: set<string>)
    ensures ByAlias([m], aliases) == if exists x | x in m.aliases :: x in aliases then [m] else []
  {
    assert [m][1..] == [];
    if x :| x in m.aliases && x in aliases {
      assert x in Elements(m.aliases) * aliases;
    }
  }

  /** The caller may see this model there: an administrator always, and anyone where the region has no default
      or is not the catalog's; or else through the default or an opt-in of the caller's team that is deployed there. */
  ghost predicate MaySee(c: Catalog, caller: Caller, region: Id, m: Summary)
    requires Named(c) && region in c.store.regions
  {
    || (caller.User? && caller.admin)
    || c.store.regions[region].default == None || !c.store.regions[region].managed
    || exists g, k | g in c.store.groups && k in c.store.groups[g].models && k in c.modelNames ::
         && c.modelNames[k] == m.id && !c.store.models[k].deleted
         && (c.store.regions[region].default == Some(g) ||
             (&& caller.User? && caller.team.Some? && caller.team.value != 0
              && caller.team.value in c.store.groups[g].teams && region in c.store.groups[g].regions))
  }

  /** Exactly which models of a known region's listing each caller sees; that of an unknown region is shown as it is. */
  lemma ShownExactly(c: Catalog, caller: Caller, l: Listing, m: Summary)
    requires Named(c)
    ensures
      var shown := Visible(c, caller, l);
      && shown.region == l.region && shown.status == l.status
      && (forall region | region in c.regionNames && c.regionNames[region] == l.region ::
           m in shown.models <==> m in l.models && MaySee(c, caller, region, m))
      && (l.region !in c.regionNames.Values ==> shown == l)
  {
    forall region | region in c.regionNames && c.regionNames[region] == l.region
      ensures m in Visible(c, caller, l).models <==> m in l.models && MaySee(c, caller, region, m)
    {
      VisibleIn(c, caller, l, region);
      AllowedIsSeen(c, caller, region, m);
      hide AllowedNames, MaySee;
    }
    hide AllowedNames;
  }

  lemma AllowedIsSeen(c: Catalog, caller: Caller, region: Id, m: Summary)
    requires Named(c) && region in c.store.regions
    ensures MaySee(c, caller, region, m) <==>
      IsAdmin(caller) || !Restricted(c, region) || m.id in AllowedNames(c, TeamOf(caller), region)
  {
    if m.id in AllowedNames(c, TeamOf(caller), region) {
      var g, k :| g in c.store.groups && Allows(c.store, TeamOf(caller), region, g) && k in c.store.groups[g].models
                  && k in c.store.models && !c.store.models[k].deleted && c.modelNames[k] == m.id;
      assert k in c.modelNames;
    }
  }
}
