/**
 * The two purchase endpoints as they are carried out: rows are deleted and staged one after the other in the
 * session, the proxy is called in between, and the session is committed or the damage undone at the end.
 * Nothing interleaves here; that the outcome is the transition system's is the last lemma.
 */
module PurchaseRequests {
  import opened Common
  import opened Purchases
  import opened PurchaseAlone

  /** How the proxy calls of one purchase end. */
  datatype Luck = Luck(informed: bool, raised: CallResult, failed: set<Id>, landed: set<Id>, restored: bool)

  datatype Outcome = Outcome(db: Tables, proxy: Proxies, credits: seq<Credit>, answer: Answer)

  /** The proxies after every key call of a team's purchase. */
  function AfterKeys(g: Ground, d: Tables, p: Proxies, job: Job, luck: Luck): Proxies {
    var keys := KeysOf(g, job.team, job.region);
    p.(keys := p.keys + Opened(d.caps, (keys - luck.failed) + (keys * luck.landed)))
  }

  /** What a purchase that has its lock and its rows does, with the proxy's answers. */
  ghost function Paying(g: Ground, d: Tables, p: Proxies, credits: seq<Credit>, job: Job, luck: Luck): Outcome
    requires job.Buy?
  {
    var spend, remaining := SpendOf(p, job.team, job.region), Remaining(d, job);
    var raised := WithLimit(p, job.team, job.region, Target(spend, remaining));
    var bought := credits + [CreditFor(job, spend, remaining)];
    if !luck.informed || luck.raised == Fails then Outcome(NotBought(d, job), p, credits, ProxyFailed)
    else if luck.raised == Unheard then Outcome(NotBought(d, job), raised, credits, ProxyFailed)
    else if job.team !in g.gated then Outcome(Bought(d, job), raised, bought, Created)
    else
      var synced := AfterKeys(g, d, raised, job, luck);
      if KeysOf(g, job.team, job.region) * luck.failed == {} then Outcome(Bought(d, job), synced, bought, Created)
      else
        Outcome(NotBought(d, job),
                if luck.restored then WithLimit(synced, job.team, job.region, LimitOf(p, job.team, job.region)) else synced,
                credits, ProxyFailed)
  }

  /** Why a purchase ends before it has recorded anything, if it does. */
  function TurnedAway(g: Ground, active: map<Id, bool>, d: Tables, job: Job): Option<Answer>
    requires job.Buy?
  {
    var retry := job.pool && job.stripe in d.purchases;
    if job.amount == 0 || (job.pool && job.team !in g.gated) then Some(Refused)
    else if Get(active, job.region) != Some(true) then Some(NotFound)
    else if retry && Get(d.payments, job.stripe) != Some(SyncFailed) then Some(Duplicate)
    else if !job.belongs then Some(Refused)
    else if TopupKey(job) in d.topups && !retry then Some(Duplicate)
    else None
  }

  ghost function Purchased(g: Ground, active: map<Id, bool>, d: Tables, p: Proxies, credits: seq<Credit>, job: Job,
                           luck: Luck): Outcome
    requires job.Buy?
  {
    match TurnedAway(g, active, d, job)
    case Some(answer) => Outcome(d, p, credits, answer)
    case None => Paying(g, d, p, credits, job, luck)
  }

  /**
   * Clearing a key's budget: a gated team that has never bought has its key put back at zero instead, and the
   * key's cap goes either way, unless a call fails.
   */
  function KeyCleared(g: Ground, active: map<Id, bool>, d: Tables, p: Proxies, credits: seq<Credit>, team: Id, region: Id,
                      key: Id, result: CallResult, informed: bool): Outcome {
    var gate := team in g.gated && !EverPurchased(d, team, region);
    var written := if result == Fails then p else p.(keys := p.keys[key := if gate then Gated else Inheriting]);
    if key !in KeysOf(g, team, region) then Outcome(d, p, credits, Refused)
    else if Get(active, region) != Some(true) then Outcome(d, p, credits, NotFound)
    else if result != Works || !informed then Outcome(d, written, credits, ProxyFailed)
    else Outcome(d.(caps := d.caps - {key}), written, credits, Cleared)
  }

  // ------------------------------------------------------------ sums over the ledger

  /** `compute_active_topup_remaining`, over the top-ups one by one and the rollovers as they are kept. */
  method ComputeTopupRemaining(d: Tables, team: Id, region: Id) returns (total: nat)
    ensures total == TopupRemaining(d, team, region)
  {
    var rows := TopupKeys(d, team, region);
    total := Get(d.rollovers, (team, region)).GetOr(0);
    var todo := rows;
    while todo != {}
      invariant todo <= rows
      invariant total + SumLeft(d.topups, todo) == TopupRemaining(d, team, region)
    {
      var k :| k in todo;
      SumLeftWithout(d.topups, todo, k);
      if d.topups[k].live && d.topups[k].consumed < d.topups[k].amount {
        total := total + (d.topups[k].amount - d.topups[k].consumed);
      }
      todo := todo - {k};
    }
  }

  class Billing {
    const ground: Ground
    const active: map<Id, bool>
    var db: Tables
    var session: Tables
    var proxy: Proxies
    ghost var credits: seq<Credit>

    constructor (ground: Ground, active: map<Id, bool>, db: Tables, proxy: Proxies, ghost credits: seq<Credit>)
      ensures this.ground == ground && this.active == active && this.db == session == db && this.proxy == proxy
      ensures this.credits == credits
    {
      this.ground, this.active, this.db, session, this.proxy, this.credits := ground, active, db, db, proxy, credits;
    }

    ghost predicate Ended(o: Outcome, answer: Answer)
      reads this
    {
      db == session && Outcome(db, proxy, credits, answer) == o
    }

    /** Every key is called, whatever the others' calls do; the keys whose calls failed are returned. */
    method SyncPoolKeyEffectiveBudgets(job: Job, luck: Luck) returns (errors: set<Id>)
      requires job.Buy?
      modifies this`proxy
      ensures errors == KeysOf(ground, job.team, job.region) * luck.failed
      ensures proxy == AfterKeys(ground, db, old(proxy), job, luck)
    {
      var keys := KeysOf(ground, job.team, job.region);
      errors := {};
      var todo := keys;
      hide Opened;
      NoneOpened(proxy, db.caps);
      assert ((keys - todo) - luck.failed) + ((keys - todo) * luck.landed) == {};
      while todo != {}
        invariant todo <= keys
        invariant errors == (keys - todo) * luck.failed
        invariant proxy ==
          old(proxy).(keys := old(proxy).keys + Opened(db.caps, ((keys - todo) - luck.failed) + ((keys - todo) * luck.landed)))
      {
        var key :| key in todo;
        ghost var before := ((keys - todo) - luck.failed) + ((keys - todo) * luck.landed);
        var done := keys - todo;
        var state := if key in db.caps then Capped(db.caps[key]) else Inheriting;
        todo := todo - {key};
        assert keys - todo == done + {key};
        ghost var now := ((keys - todo) - luck.failed) + ((keys - todo) * luck.landed);
        OneOpened(old(proxy), db.caps, before, key);
        if key in luck.failed {
          errors := errors + {key};
        }
        if key !in luck.failed || key in luck.landed {
          proxy := proxy.(keys := proxy.keys[key := state]);
          assert now == before + {key};
        } else {
          assert now == before;
        }
      }
      assert keys - todo == keys;
    }

    /** The payment and ledger rows, the proxy, and the end of the transaction. */
    method PurchasePeriodicTopup(job: Job, luck: Luck, retry: bool) returns (answer: Answer)
      requires job.Buy? && job.amount > 0 && Get(active, job.region) == Some(true)
      requires retry == (job.pool && job.stripe in db.purchases)
      requires SameOthers(db, session)
      requires session.purchases == NewPurchases(db, job)
      requires session.payments == if retry then db.payments - {job.stripe} else db.payments
      requires session.topups == if retry then db.topups - {TopupKey(job)} else db.topups
      requires job.pool ==> job.team in ground.gated
      requires retry ==> Get(db.payments, job.stripe) == Some(SyncFailed)
      modifies this
      ensures Ended(Purchased(ground, active, old(db), old(proxy), old(credits), job, luck), answer)
    {
      hide AfterKeys, Bought, NotBought, NewPurchases, TopupRemaining;
      if !job.belongs {
        session := db;
        return Refused;
      }
      if TopupKey(job) in session.topups {
        session := db;
        return Duplicate;
      }
      session := session.(payments := session.payments[job.stripe := SyncFailed],
                          topups := session.topups[TopupKey(job) := Topup(job.amount, 0, job.live)]);
      StagedRows(db, session, job, retry);
      hide Paying;
      answer := Pay(job, luck);
    }

    /** The proxy calls of a purchase whose rows are staged, and the end of its transaction. */
    method Pay(job: Job, luck: Luck) returns (answer: Answer)
      requires job.Buy? && Staged(db, session, job)
      modifies this
      ensures Ended(Paying(ground, old(db), old(proxy), old(credits), job, luck), answer)
    {
      hide AfterKeys, Bought, NotBought, NewPurchases, TopupRemaining;
      if !luck.informed {
        FailPurchase(job);
        return ProxyFailed;
      }
      var spend := SpendOf(proxy, job.team, job.region);
      var before := LimitOf(proxy, job.team, job.region);
      var subscriptions := Get(session.subscriptions, (job.team, job.region)).GetOr(0);
      var topups := ComputeTopupRemaining(session, job.team, job.region);
      StagedBalance(db, session, job);
      var target := Target(spend, subscriptions + topups);
      if luck.raised != Fails {
        proxy := WithLimit(proxy, job.team, job.region, target);
      }
      if luck.raised != Works {
        FailPurchase(job);
        return ProxyFailed;
      }
      if job.team in ground.gated {
        var errors := SyncPoolKeyEffectiveBudgets(job, luck);
        if errors != {} {
          if luck.restored {
            proxy := WithLimit(proxy, job.team, job.region, before);
          }
          FailPurchase(job);
          return ProxyFailed;
        }
      }
      session := session.(payments := session.payments[job.stripe := Success]);
      credits := credits + [CreditFor(job, spend, subscriptions + topups)];
      BoughtRows(db, session, job);
      db := session;
      return Created;
    }

    /** The failure path: the top-up goes, the payment is marked, and both are committed. */
    method FailPurchase(job: Job)
      requires job.Buy? && Staged(db, session, job)
      modifies this`db, this`session
      ensures db == session == NotBought(old(db), job)
    {
      session := session.(topups := session.topups - {TopupKey(job)},
                          payments := session.payments[job.stripe := SyncFailed]);
      assert session.topups == db.topups - {TopupKey(job)};
      db := session;
    }

    method PurchasePoolBudget(job: Job, luck: Luck) returns (answer: Answer)
      requires job.Buy? && job.pool && db == session
      modifies this
      ensures Ended(Purchased(ground, active, old(db), old(proxy), old(credits), job, luck), answer)
    {
      hide Paying;
      if job.amount == 0 || job.team !in ground.gated {
        return Refused;
      }
      if Get(active, job.region) != Some(true) {
        return NotFound;
      }
      var retry := job.stripe in session.purchases;
      var row := 0;
      if retry {
        if Get(session.payments, job.stripe) != Some(SyncFailed) {
          return Duplicate;
        }
        row := session.purchases[job.stripe].row + 1;
        session := session.(topups := session.topups - {TopupKey(job)}, payments := session.payments - {job.stripe},
                            purchases := session.purchases - {job.stripe});
      }
      session := session.(purchases := session.purchases[job.stripe := Purchase(row, job.team, job.region, job.amount)]);
      assert session.purchases == NewPurchases(db, job);
      answer := PurchasePeriodicTopup(job, luck, retry);
    }

    method ClearKeyBudget(team: Id, region: Id, key: Id, result: CallResult, informed: bool) returns (answer: Answer)
      requires db == session
      modifies this
      ensures Ended(KeyCleared(ground, active, old(db), old(proxy), old(credits), team, region, key, result, informed), answer)
    {
      if key !in KeysOf(ground, team, region) {
        return Refused;
      }
      if Get(active, region) != Some(true) {
        return NotFound;
      }
      var gateKey := false;
      if team in ground.gated {
        var hasLedgerEntry := (team, region) in db.subscriptions || (team, region) in db.rollovers ||
          exists k | k in db.topups.Keys :: k.0 == team && k.1 == region;
        var hasPoolPurchase := exists x | x in db.purchases.Keys ::
          db.purchases[x].team == team && db.purchases[x].region == region;
        gateKey := !(hasLedgerEntry || hasPoolPurchase);
      }
      if result != Fails {
        proxy := proxy.(keys := proxy.keys[key := if gateKey then Gated else Inheriting]);
      }
      if result != Works {
        return ProxyFailed;
      }
      session := session.(caps := session.caps - {key});
      if !informed {
        session := db;
        return ProxyFailed;
      }
      db := session;
      return Cleared;
    }

    method CreatePeriodicTopup(job: Job, luck: Luck) returns (answer: Answer)
      requires job.Buy? && !job.pool && db == session
      modifies this
      ensures Ended(Purchased(ground, active, old(db), old(proxy), old(credits), job, luck), answer)
    {
      hide Paying;
      if job.amount == 0 {
        return Refused;
      }
      if Get(active, job.region) != Some(true) {
        return NotFound;
      }
      answer := PurchasePeriodicTopup(job, luck, false);
    }
  }

  /** A purchase leaves the ledger's other entries and the caps alone. */
  predicate SameOthers(d: Tables, session: Tables) {
    session.subscriptions == d.subscriptions && session.rollovers == d.rollovers && session.caps == d.caps
  }

  /** The session once its rows are in: the committed tables with the purchase, a failed payment and the top-up. */
  ghost predicate Staged(d: Tables, session: Tables, job: Job)
    requires job.Buy?
  {
    && SameOthers(d, session)
    && session.purchases == NewPurchases(d, job)
    && session.payments == d.payments[job.stripe := SyncFailed]
    && session.topups == StagedTopups(d, job)
  }

  /** What the session's queries add up to is the balance the transaction sees. */
  lemma StagedBalance(d: Tables, session: Tables, job: Job)
    requires job.Buy? && Staged(d, session, job)
    ensures Balance(session, job.team, job.region) == Remaining(d, job)
  {
    assert TopupKeys(session, job.team, job.region) == TopupKeys(d.(topups := session.topups), job.team, job.region);
  }

  lemma StagedRows(d: Tables, session: Tables, job: Job, retry: bool)
    requires job.Buy? && SameOthers(d, session)
    requires session.purchases == NewPurchases(d, job)
    requires session.payments == (if retry then d.payments - {job.stripe} else d.payments)[job.stripe := SyncFailed]
    requires session.topups ==
      (if retry then d.topups - {TopupKey(job)} else d.topups)[TopupKey(job) := Topup(job.amount, 0, job.live)]
    ensures Staged(d, session, job)
  {
    assert session.payments == d.payments[job.stripe := SyncFailed];
    assert session.topups == StagedTopups(d, job);
  }

  lemma BoughtRows(d: Tables, session: Tables, job: Job)
    requires job.Buy? && Staged(d, session.(payments := d.payments[job.stripe := SyncFailed]), job)
    requires session.payments == d.payments[job.stripe := SyncFailed][job.stripe := Success]
    ensures session == Bought(d, job)
  {
    assert session.payments == d.payments[job.stripe := Success];
  }

  lemma NoneOpened(p: Proxies, caps: map<Id, nat>)
    ensures p == p.(keys := p.keys + Opened(caps, {}))
  {
    assert p.keys + Opened(caps, {}) == p.keys;
  }

  lemma OneOpened(p: Proxies, caps: map<Id, nat>, keys: set<Id>, key: Id)
    ensures p.keys + Opened(caps, keys + {key}) ==
            (p.keys + Opened(caps, keys))[key := if key in caps then Capped(caps[key]) else Inheriting]
  {
  }

  /** One failed pool purchase, which credits nothing, already lifts the gate: a clear right after it opens the key. */
  lemma FailedAttemptLiftsGate(g: Ground, active: map<Id, bool>, d: Tables, p: Proxies, credits: seq<Credit>, job: Job,
                               key: Id)
    requires job.Buy? && job.pool && job.team in g.gated && key in KeysOf(g, job.team, job.region)
    requires Get(active, job.region) == Some(true)
    ensures
      var o := KeyCleared(g, active, NotBought(d, job), p, credits, job.team, job.region, key, Works, true);
      Get(o.proxy.keys, key) == Some(Inheriting)
  {
    var e := NotBought(d, job);
    assert e.purchases[job.stripe].team == job.team && e.purchases[job.stripe].region == job.region;
    assert EverPurchased(e, job.team, job.region);
    hide NotBought;
  }

  /**
   * A successful pool purchase leaves every key of the team under the team's budget alone, as its endpoint
   * says it does, exactly if none of them has a configured cap: the other keys get theirs as their own budget.
   */
  lemma PoolPurchaseSetsCaps(g: Ground, active: map<Id, bool>, d: Tables, p: Proxies, credits: seq<Credit>, job: Job,
                             luck: Luck)
    requires job.Buy? && job.pool && Purchased(g, active, d, p, credits, job, luck).answer == Created
    ensures
      var after := Purchased(g, active, d, p, credits, job, luck).proxy.keys;
      var keys := KeysOf(g, job.team, job.region);
      && (forall k | k in keys :: k in after && after[k] == if k in d.caps then Capped(d.caps[k]) else Inheriting)
      && ((forall k | k in keys :: after[k] == Inheriting) <==> (forall k | k in keys :: k !in d.caps))
  {
    hide Remaining, KeysOf, Bought, NotBought;
    var keys := KeysOf(g, job.team, job.region);
    forall k | k in keys && keys * luck.failed == {}
      ensures k in keys - luck.failed
    {
      assert k !in keys * luck.failed;
    }
  }
}
