/** What holds of the association requests, one by one and over every run. */
module AssociationTheorems {
  import opened Common
  import opened Association

  datatype Request = Associate(region: Id, team: Id, luck: Luck) | Disassociate(region: Id, team: Id, luck: Luck)

  function Handled(g: Setting, t: Tables, w: Proxies, q: Request): Outcome {
    match q
    case Associate(region, team, luck) => Associated(g, t, w, region, team, luck)
    case Disassociate(region, team, luck) => Disassociated(g, t, w, region, team, luck)
  }

  function Run(g: Setting, t: Tables, w: Proxies, requests: seq<Request>): Tables
    decreases |requests|
  {
    if requests == [] then t
    else
      var o := Handled(g, t, w, requests[0]);
      Run(g, o.tables, o.proxies, requests[1..])
  }

  /** A team's primary region, if it has one, is on its allowlist. */
  ghost predicate PrimaryListed(t: Tables) {
    forall team | team in t.primary && t.primary[team].Some? :: (team, t.primary[team].value) in t.rows
  }

  /** Whatever fails in whichever requests, every primary region stays on its team's allowlist. */
  lemma {:induction false} PrimaryStaysListed(g: Setting, t: Tables, w: Proxies, requests: seq<Request>)
    requires PrimaryListed(t)
    ensures PrimaryListed(Run(g, t, w, requests))
    decreases |requests|
  {
    if requests != [] {
      OneKeepsPrimary(g, t, w, requests[0]);
      var o := Handled(g, t, w, requests[0]);
      PrimaryStaysListed(g, o.tables, o.proxies, requests[1..]);
    }
  }

  lemma OneKeepsPrimary(g: Setting, t: Tables, w: Proxies, q: Request)
    requires PrimaryListed(t)
    ensures PrimaryListed(Handled(g, t, w, q).tables)
  {
    hide Joined, Left, Served, AllServed, UsersOf;
  }

  /** No request touches another team's rows, primary region or rosters. */
  lemma OtherTeamsUntouched(g: Setting, t: Tables, w: Proxies, q: Request, team: Id, region: Id)
    requires team != q.team
    ensures
      var o := Handled(g, t, w, q);
      && ((team, region) in o.tables.rows <==> (team, region) in t.rows)
      && Get(o.tables.primary, team) == Get(t.primary, team)
      && Get(o.proxies, (team, region)) == Get(w, (team, region))
  {
    hide Served, AllServed, UsersOf;
  }

  /**
   * A refused request changes no table. After a proxy failure the tables are exactly the old ones if and
   * only if the compensating commit worked; otherwise the change the answer denies is still there.
   */
  lemma FailureRestores(g: Setting, t: Tables, w: Proxies, q: Request)
    requires Handled(g, t, w, q).answer != Done
    ensures
      var o := Handled(g, t, w, q);
      o.tables == t <==> o.answer != ProxyFailed || q.luck.compensation
  {
    hide Joined, Left, Served, AllServed, UsersOf;
    match q
    case Associate(region, team, luck) =>
      if region in g.active && team in t.primary && (team, region) !in t.rows {
        assert (team, region) in Moved(t, team, region).rows;
      }
    case Disassociate(region, team, luck) =>
  }

  /**
   * A successful association leaves the region as the team's primary and on its allowlist, drops the
   * previous primary's row unless the clean-up fails, and keeps every other row; the proxy's roster has
   * gained the team's users, trial users apart, if the region is active.
   */
  lemma AssociationLands(g: Setting, t: Tables, w: Proxies, region: Id, team: Id, luck: Luck)
    requires Associated(g, t, w, region, team, luck).answer == Done
    ensures
      var o := Associated(g, t, w, region, team, luck);
      && o.tables.primary == t.primary[team := Some(region)]
      && (forall r :: (team, r) in o.tables.rows <==>
           r == region || ((team, r) in t.rows && !(luck.cleanup && t.primary[team] == Some(r))))
      && Get(o.proxies, (team, region)).Some?
      && (forall u | u in UsersOf(g, team) && !u.trial && g.active[region] :: u.id in o.proxies[(team, region)])
  {
    if g.active[region] {
      ServedAll(UsersOf(g, team), luck.users);
    }
  }

  /** A successful disassociation removes the row and every user it put on the proxy, and nothing else. */
  lemma DisassociationLands(g: Setting, t: Tables, w: Proxies, region: Id, team: Id, luck: Luck)
    requires Disassociated(g, t, w, region, team, luck).answer == Done
    ensures
      var o := Disassociated(g, t, w, region, team, luck);
      && o.tables == t.(rows := t.rows - {(team, region)})
      && t.primary.Keys == o.tables.primary.Keys && PrimaryOf(t, team) != Some(region)
      && (forall u | u in UsersOf(g, team) && !u.trial && (team, region) in o.proxies ::
           u.id !in o.proxies[(team, region)])
  {
    ServedAll(UsersOf(g, team), luck.users);
  }

  /** Everything works. */
  function Smooth(): Luck {
    Luck(true, true, {}, true, true)
  }

  lemma SmoothServes(users: seq<Member>)
    ensures AllServed(users, {})
  {
  }

  /**
   * After switching a team from one primary region to another, switching back is refused as already
   * associated exactly if the clean-up of the first region's row failed.
   */
  lemma SwitchingBack(g: Setting, t: Tables, w: Proxies, first: Id, second: Id, team: Id, luck: Luck, back: Luck)
    requires PrimaryListed(t) && team in t.primary && t.primary[team] == Some(first) && first in g.active
    requires Associated(g, t, w, second, team, luck).answer == Done
    ensures
      var o := Associated(g, t, w, second, team, luck);
      Associated(g, o.tables, o.proxies, first, team, back).answer == AlreadyAssociated <==> !luck.cleanup
  {
    AssociationLands(g, t, w, second, team, luck);
    hide Joined, Served, AllServed, UsersOf;
    assert (team, first) in t.rows && first != second;
  }

  /** Even then the team is not stuck: taking the stale row away first makes the switch possible. */
  lemma NeverBlockedForGood(g: Setting, t: Tables, w: Proxies, region: Id, team: Id)
    requires region in g.active && team in t.primary && t.primary[team] != Some(region)
    ensures
      var o := Disassociated(g, t, w, region, team, Smooth());
      Associated(g, o.tables, o.proxies, region, team, Smooth()).answer == Done
  {
    SmoothServes(UsersOf(g, team));
    SmoothServes([]);
    hide Joined, Left, Served, AllServed, UsersOf;
  }

  // ------------------------------------------------------------ answers and rosters, in plain terms

  function TeamUsers(g: Setting, team: Id): seq<Member> {
    if team in g.users then g.users[team] else []
  }

  function Roster(w: Proxies, team: Id, region: Id): set<Id> {
    if (team, region) in w then w[(team, region)] else {}
  }

  /** A user who is on no trial, whose call and all calls before it work. */
  ghost predicate CallWorks(users: seq<Member>, failing: set<Id>, id: Id) {
    exists i | 0 <= i < |users| ::
      users[i].id == id && !users[i].trial && forall j | 0 <= j <= i :: users[j].trial || users[j].id !in failing
  }

  lemma {:induction false} ServedExactly(users: seq<Member>, failing: set<Id>, id: Id)
    ensures id in RealIds(Served(users, failing)) <==> CallWorks(users, failing, id)
  {
    if users != [] {
      var first, rest := users[0], users[1..];
      ServedExactly(rest, failing, id);
      if CallWorks(users, failing, id) {
        var i :| 0 <= i < |users| && users[i].id == id && !users[i].trial
                 && forall j | 0 <= j <= i :: users[j].trial || users[j].id !in failing;
        if i > 0 {
          assert rest[i - 1] == users[i];
          assert forall j | 0 <= j <= i - 1 :: rest[j] == users[j + 1];
        }
      }
      if first.trial || first.id !in failing {
        assert forall u :: u in Served(users, failing) <==> u == first || u in Served(rest, failing);
        if CallWorks(rest, failing, id) {
          var i :| 0 <= i < |rest| && rest[i].id == id && !rest[i].trial
                   && forall j | 0 <= j <= i :: rest[j].trial || rest[j].id !in failing;
          assert users[i + 1] == rest[i];
          assert forall j | 0 < j <= i + 1 :: users[j] == rest[j - 1];
        }
      }
    }
  }

  /** Exactly when an association is answered how; the change it commits, which a proxy failure only leaves in
      place if its undoing fails as well; and the users it has put on the roster, whatever the answer. */
  lemma AssociationAnswer(g: Setting, t: Tables, w: Proxies, region: Id, team: Id, luck: Luck)
    ensures
      var o, users := Associated(g, t, w, region, team, luck), TeamUsers(g, team);
      var known, listed := region in g.active && team in t.primary, (team, region) in t.rows;
      var callFails := !luck.createTeam || (region in g.active && g.active[region] &&
                                            exists u | u in users :: !u.trial && u.id in luck.users);
      && (o.answer == NotFound <==> !known)
      && (o.answer == AlreadyAssociated <==> known && listed)
      && (o.answer == CommitFailed <==> known && !listed && !luck.commit)
      && (o.answer == ProxyFailed <==> known && !listed && luck.commit && callFails)
      && (o.answer == Done <==> known && !listed && luck.commit && !callFails)
      && (o.answer == ProxyFailed && !luck.compensation ==>
           && o.tables.primary == t.primary[team := Some(region)]
           && (forall p :: p in o.tables.rows <==> p in t.rows || p == (team, region)))
      && (forall id :: id in Roster(o.proxies, team, region) <==>
           || id in Roster(w, team, region)
           || (known && !listed && luck.commit && luck.createTeam && g.active[region] && CallWorks(users, luck.users, id)))
      && (forall p | p != (team, region) :: Get(o.proxies, p) == Get(w, p))
  {
    forall id
      ensures id in RealIds(Served(TeamUsers(g, team), luck.users)) <==> CallWorks(TeamUsers(g, team), luck.users, id)
    {
      ServedExactly(TeamUsers(g, team), luck.users, id);
    }
    hide Served, CallWorks, Cleaned;
    assert Served([], luck.users) == [];
  }

  /** The same for a removal. */
  lemma DisassociationAnswer(g: Setting, t: Tables, w: Proxies, region: Id, team: Id, luck: Luck)
    ensures
      var o, users := Disassociated(g, t, w, region, team, luck), TeamUsers(g, team);
      var primary, listed := team in t.primary && t.primary[team] == Some(region), (team, region) in t.rows;
      var callFails := exists u | u in users :: !u.trial && u.id in luck.users;
      && (o.answer == IsPrimary <==> primary)
      && (o.answer == NotFound <==> !primary && !listed)
      && (o.answer == CommitFailed <==> !primary && listed && !luck.commit)
      && (o.answer == ProxyFailed <==> !primary && listed && luck.commit && callFails)
      && (o.answer == Done <==> !primary && listed && luck.commit && !callFails)
      && (o.answer == ProxyFailed && !luck.compensation ==>
           && o.tables.primary == t.primary
           && (forall p :: p in o.tables.rows <==> p in t.rows && p != (team, region)))
      && (forall id :: id in Roster(o.proxies, team, region) <==>
           && id in Roster(w, team, region)
           && !(!primary && listed && luck.commit && CallWorks(users, luck.users, id)))
      && (forall p | p != (team, region) :: Get(o.proxies, p) == Get(w, p))
  {
    forall id
      ensures id in RealIds(Served(TeamUsers(g, team), luck.users)) <==> CallWorks(TeamUsers(g, team), luck.users, id)
    {
      ServedExactly(TeamUsers(g, team), luck.users, id);
    }
    hide Served, CallWorks;
  }
}
