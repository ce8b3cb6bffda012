/**
 * Associating a team with a region: a database change, a proxy set up after it, and a compensating database
 * change when the proxy fails. Any commit and any proxy call may fail, a compensating commit included.
 */
module Association {
  import opened Common

  type Id = nat

  /** The session's tables. `rows` is the allowlist, as (team, region); `primary` is `teams.region_id`. */
  datatype Tables = Tables(primary: map<Id, Option<Id>>, rows: set<(Id, Id)>)

  /** A region may be inactive; trial users are never put on a proxy. */
  datatype Setting = Setting(active: map<Id, bool>, users: map<Id, seq<Member>>)

  datatype Member = Member(id: Id, trial: bool)

  /** The roster of each team that exists on a region's proxy, by (team, region). */
  type Proxies = map<(Id, Id), set<Id>>

  /** What fails during one request: `users` are those whose proxy call fails. */
  datatype Luck = Luck(commit: bool, createTeam: bool, users: set<Id>, compensation: bool, cleanup: bool)

  datatype Answer = Done | NotFound | AlreadyAssociated | IsPrimary | CommitFailed | ProxyFailed

  function UsersOf(g: Setting, team: Id): seq<Member> {
    Get(g.users, team).GetOr([])
  }

  function PrimaryOf(t: Tables, team: Id): Option<Id> {
    Get(t.primary, team).GetOr(None)
  }

  /** The users whose calls are made before the first failure, one after the other. */
  function Served(users: seq<Member>, failing: set<Id>): seq<Member> {
    if users == [] then []
    else if !users[0].trial && users[0].id in failing then []
    else [users[0]] + Served(users[1..], failing)
  }

  predicate AllServed(users: seq<Member>, failing: set<Id>) {
    forall u | u in users && !u.trial :: u.id !in failing
  }

  function RealIds(users: seq<Member>): set<Id> {
    set u | u in users && !u.trial :: u.id
  }

  /** The proxies once these users have been added to a team, creating it if need be, or removed from it. */
  function Joined(w: Proxies, key: (Id, Id), users: seq<Member>): Proxies {
    w[key := Get(w, key).GetOr({}) + RealIds(users)]
  }

  function Left(w: Proxies, key: (Id, Id), users: seq<Member>): Proxies {
    if key in w then w[key := w[key] - RealIds(users)] else w
  }

  // ------------------------------------------------------------ outcomes

  datatype Outcome = Outcome(tables: Tables, proxies: Proxies, answer: Answer)

  /** The tables an association commits, and those it leaves when all goes well. */
  function Moved(t: Tables, team: Id, region: Id): Tables {
    Tables(t.primary[team := Some(region)], t.rows + {(team, region)})
  }

  function Cleaned(t: Tables, team: Id, region: Id, previous: Option<Id>): Tables {
    if previous.Some? && previous.value != region then t.(rows := t.rows - {(team, previous.value)}) else t
  }

  function Associated(g: Setting, t: Tables, w: Proxies, region: Id, team: Id, luck: Luck): Outcome {
    if region !in g.active || team !in t.primary then Outcome(t, w, NotFound)
    else if (team, region) in t.rows then Outcome(t, w, AlreadyAssociated)
    else if !luck.commit then Outcome(t, w, CommitFailed)
    else
      var moved, undone := Moved(t, team, region), if luck.compensation then t else Moved(t, team, region);
      if !luck.createTeam then Outcome(undone, w, ProxyFailed)
      else
        var users := if g.active[region] then UsersOf(g, team) else [];
        var joined := Joined(w, (team, region), Served(users, luck.users));
        if !AllServed(users, luck.users) then Outcome(undone, joined, ProxyFailed)
        else Outcome(if luck.cleanup then Cleaned(moved, team, region, t.primary[team]) else moved, joined, Done)
  }

  function Disassociated(g: Setting, t: Tables, w: Proxies, region: Id, team: Id, luck: Luck): Outcome {
    if PrimaryOf(t, team) == Some(region) then Outcome(t, w, IsPrimary)
    else if (team, region) !in t.rows then Outcome(t, w, NotFound)
    else if !luck.commit then Outcome(t, w, CommitFailed)
    else
      var users := UsersOf(g, team);
      var left := t.(rows := t.rows - {(team, region)});
      var rosters := Left(w, (team, region), Served(users, luck.users));
      if AllServed(users, luck.users) then Outcome(left, rosters, Done)
      else Outcome(if luck.compensation then t else left, rosters, ProxyFailed)
  }

  // ------------------------------------------------------------ the requests

  lemma {:induction false} ServedAll(users: seq<Member>, failing: set<Id>)
    ensures AllServed(users, failing) <==> Served(users, failing) == users
  {
    if users != [] {
      ServedAll(users[1..], failing);
      assert users == [users[0]] + users[1..];
      assert forall u :: u in users <==> u == users[0] || u in users[1..];
    }
  }

  lemma ServedTurn(users: seq<Member>, failing: set<Id>, i: nat)
    requires i < |users|
    ensures Served(users[i..], failing) ==
            if !users[i].trial && users[i].id in failing then [] else [users[i]] + Served(users[i + 1..], failing)
  {
    assert users[i..][1..] == users[i + 1..];
  }

  /** The session: `committed` is what other requests see, `staged` what this one has changed so far. */
  class Session {
    const setting: Setting
    var committed: Tables
    var staged: Tables
    var proxies: Proxies

    constructor (setting: Setting, tables: Tables, proxies: Proxies)
      ensures this.setting == setting && committed == staged == tables && this.proxies == proxies
    {
      this.setting, committed, staged, this.proxies := setting, tables, tables, proxies;
    }

    /** A failed commit is rolled back. */
    method Commit(works: bool)
      modifies this`committed, this`staged
      ensures committed == staged == if works then old(staged) else old(committed)
    {
      if works {
        committed := staged;
      } else {
        staged := committed;
      }
    }

    method AddMembers(team: Id, region: Id, failing: set<Id>) returns (ok: bool)
      requires region in setting.active && (team, region) in proxies
      modifies this`proxies
      ensures
        var users := UsersOf(setting, team);
        && ok == (!setting.active[region] || AllServed(users, failing))
        && proxies == if setting.active[region] then Joined(old(proxies), (team, region), Served(users, failing)) else old(proxies)
    {
      hide Joined, Served, AllServed;
      var users := UsersOf(setting, team);
      if !setting.active[region] {
        return true;
      }
      ServedAll(users, failing);
      JoinedNone(proxies, (team, region));
      assert users[0..] == users && users[..0] == [];
      for i := 0 to |users|
        invariant proxies == Joined(old(proxies), (team, region), users[..i])
        invariant users[..i] + Served(users[i..], failing) == Served(users, failing)
      {
        var user := users[i];
        ServedTurn(users, failing, i);
        JoinedTurn(old(proxies), (team, region), users, i);
        if !user.trial {
          if user.id in failing {
            assert users[..i] + [] == users[..i] != users;
            return false;
          }
          proxies := proxies[(team, region) := Get(proxies, (team, region)).GetOr({}) + {user.id}];
        }
        assert users[..i + 1] == users[..i] + [users[i]];
      }
      ServedEnd(users, failing);
      return true;
    }

    method RemoveMembers(team: Id, region: Id, failing: set<Id>) returns (ok: bool)
      modifies this`proxies
      ensures
        var users := UsersOf(setting, team);
        ok == AllServed(users, failing) && proxies == Left(old(proxies), (team, region), Served(users, failing))
    {
      hide Left, Served, AllServed;
      var users := UsersOf(setting, team);
      ServedAll(users, failing);
      LeftNone(proxies, (team, region));
      assert users[0..] == users && users[..0] == [];
      for i := 0 to |users|
        invariant proxies == Left(old(proxies), (team, region), users[..i])
        invariant users[..i] + Served(users[i..], failing) == Served(users, failing)
      {
        var user := users[i];
        ServedTurn(users, failing, i);
        LeftTurn(old(proxies), (team, region), users, i);
        if !user.trial {
          if user.id in failing {
            assert users[..i] + [] == users[..i] != users;
            return false;
          }
          if (team, region) in proxies {
            proxies := proxies[(team, region) := proxies[(team, region)] - {user.id}];
          }
        }
        assert users[..i + 1] == users[..i] + [users[i]];
      }
      ServedEnd(users, failing);
      return true;
    }

    /** The compensation after a proxy failure: drop the new row, put the previous primary back. */
    method Undo(team: Id, region: Id, previous: Option<Id>, works: bool)
      modifies this`committed, this`staged
      requires committed == staged
      ensures committed == staged ==
        if works then Tables(old(committed).primary[team := previous], old(committed).rows - {(team, region)})
        else old(committed)
    {
      if (team, region) in committed.rows {
        staged := staged.(rows := staged.rows - {(team, region)});
      }
      staged := staged.(primary := staged.primary[team := previous]);
      Commit(works);
    }

    method Associate(region: Id, team: Id, luck: Luck) returns (answer: Answer)
      requires committed == staged
      modifies this
      ensures committed == staged
      ensures Outcome(committed, proxies, answer) == Associated(setting, old(committed), old(proxies), region, team, luck)
    {
      if region !in setting.active || team !in committed.primary {
        return NotFound;
      }
      if (team, region) in committed.rows {
        return AlreadyAssociated;
      }
      var previous := committed.primary[team];
      staged := staged.(rows := staged.rows + {(team, region)}, primary := staged.primary[team := Some(region)]);
      Commit(luck.commit);
      if !luck.commit {
        return CommitFailed;
      }
      Restored(old(committed), team, region);
      if !luck.createTeam {
        Undo(team, region, previous, luck.compensation);
        return ProxyFailed;
      }
      if (team, region) !in proxies {
        proxies := proxies[(team, region) := {}];
      }
      JoinedFirst(old(proxies), (team, region), UsersOf(setting, team), luck.users);
      var synced := AddMembers(team, region, luck.users);
      if !synced {
        Undo(team, region, previous, luck.compensation);
        return ProxyFailed;
      }
      ghost var moved := committed;
      if previous.Some? && previous.value != region {
        assert (team, previous.value) !in moved.rows ==> moved.rows - {(team, previous.value)} == moved.rows;
        if (team, previous.value) in committed.rows {
          staged := staged.(rows := staged.rows - {(team, previous.value)});
          Commit(luck.cleanup);
        }
      }
      return Done;
    }

    method Disassociate(region: Id, team: Id, luck: Luck) returns (answer: Answer)
      requires committed == staged
      modifies this
      ensures committed == staged
      ensures Outcome(committed, proxies, answer) == Disassociated(setting, old(committed), old(proxies), region, team, luck)
    {
      if team in committed.primary && committed.primary[team] == Some(region) {
        return IsPrimary;
      }
      if (team, region) !in committed.rows {
        return NotFound;
      }
      staged := staged.(rows := staged.rows - {(team, region)});
      Commit(luck.commit);
      if !luck.commit {
        return CommitFailed;
      }
      var synced := RemoveMembers(team, region, luck.users);
      if synced {
        return Done;
      }
      staged := staged.(rows := staged.rows + {(team, region)});
      Commit(luck.compensation);
      assert old(committed).rows - {(team, region)} + {(team, region)} == old(committed).rows;
      return ProxyFailed;
    }
  }

  lemma Restored(t: Tables, team: Id, region: Id)
    requires team in t.primary && (team, region) !in t.rows
    ensures
      var m := Moved(t, team, region);
      Tables(m.primary[team := t.primary[team]], m.rows - {(team, region)}) == t
  {
    assert t.rows + {(team, region)} - {(team, region)} == t.rows;
    assert t.primary[team := Some(region)][team := t.primary[team]] == t.primary;
  }

  /** Creating an empty team first makes no difference to what is joined. */
  lemma JoinedFirst(w: Proxies, key: (Id, Id), users: seq<Member>, failing: set<Id>)
    ensures
      var created := if key in w then w else w[key := {}];
      && Joined(created, key, Served(users, failing)) == Joined(w, key, Served(users, failing))
      && created == Joined(w, key, Served([], failing))
      && AllServed([], failing)
  {
    JoinedNone(if key in w then w else w[key := {}], key);
    assert {} + RealIds([]) == {};
  }

  lemma JoinedNone(w: Proxies, key: (Id, Id))
    requires key in w
    ensures Joined(w, key, []) == w
  {
    assert w[key] + RealIds([]) == w[key];
  }

  lemma JoinedTurn(w: Proxies, key: (Id, Id), users: seq<Member>, i: nat)
    requires i < |users|
    ensures
      var now := Joined(w, key, users[..i]);
      Joined(w, key, users[..i + 1]) ==
      if users[i].trial then now else now[key := Get(now, key).GetOr({}) + {users[i].id}]
  {
    RealIdsTurn(users, i);
    var base := Get(w, key).GetOr({});
    assert base + (RealIds(users[..i]) + {users[i].id}) == base + RealIds(users[..i]) + {users[i].id};
  }

  lemma LeftNone(w: Proxies, key: (Id, Id))
    ensures Left(w, key, []) == w
  {
    if key in w {
      assert w[key] - RealIds([]) == w[key];
    }
  }

  lemma LeftTurn(w: Proxies, key: (Id, Id), users: seq<Member>, i: nat)
    requires i < |users|
    ensures
      var now := Left(w, key, users[..i]);
      Left(w, key, users[..i + 1]) ==
      if users[i].trial || key !in now then now else now[key := now[key] - {users[i].id}]
  {
    RealIdsTurn(users, i);
    if key in w && !users[i].trial {
      assert w[key] - (RealIds(users[..i]) + {users[i].id}) == w[key] - RealIds(users[..i]) - {users[i].id};
    }
  }

  lemma RealIdsTurn(users: seq<Member>, i: nat)
    requires i < |users|
    ensures RealIds(users[..i + 1]) ==
            if users[i].trial then RealIds(users[..i]) else RealIds(users[..i]) + {users[i].id}
  {
    assert users[..i + 1] == users[..i] + [users[i]];
    assert forall u :: u in users[..i + 1] <==> u in users[..i] || u == users[i];
  }

  lemma ServedEnd(users: seq<Member>, failing: set<Id>)
    ensures users[..|users|] + Served(users[|users|..], failing) == users == users[..|users|]
  {
  }
}
