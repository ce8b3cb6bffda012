/**
 * The two purchase endpoints and the clearing of a key, in plain terms: which answer is given when, and what
 * each answer leaves in the tables and on the proxy. Everything here is about one uninterrupted call, for
 * every state and every way the proxy's calls can end, and is stated of the tables themselves.
 */
module PurchaseAnswers {
  import opened Common
  import opened Purchases
  import opened PurchaseBudgets
  import opened PurchaseRequests

  /** The keys of a team in a region that its purchase has to open, none if the team is not gated. */
  function KeysToOpen(g: Ground, job: Job): set<Id>
    requires job.Buy?
  {
    if job.team in g.gated && (job.team, job.region) in g.keys then g.keys[(job.team, job.region)] else {}
  }

  /** All that has to be so before a purchase records anything. */
  predicate MayBuy(g: Ground, active: map<Id, bool>, d: Tables, job: Job)
    requires job.Buy?
  {
    && job.amount > 0 && (job.pool ==> job.team in g.gated)
    && job.region in active && active[job.region] && job.belongs
    && if job.pool && job.stripe in d.purchases then
         job.stripe in d.payments && d.payments[job.stripe] == SyncFailed
       else
         (job.team, job.region, job.stripe) !in d.topups
  }

  /** Each call of the purchase was answered, and no key's failed. */
  predicate CallsWork(g: Ground, job: Job, luck: Luck)
    requires job.Buy?
  {
    luck.informed && luck.raised == Works && KeysToOpen(g, job) * luck.failed == {}
  }

  /**
   * Exactly when a purchase succeeds, and when the proxy fails it. Otherwise it is refused, and which of the
   * guards it fails first decides the answer.
   */
  lemma PurchaseAnswer(g: Ground, active: map<Id, bool>, d: Tables, p: Proxies, credits: seq<Credit>, job: Job, luck: Luck)
    requires job.Buy?
    ensures
      var o := Purchased(g, active, d, p, credits, job, luck);
      && (o.answer == Created <==> MayBuy(g, active, d, job) && CallsWork(g, job, luck))
      && (o.answer == ProxyFailed <==> MayBuy(g, active, d, job) && !CallsWork(g, job, luck))
      && (!MayBuy(g, active, d, job) ==>
           && o == Outcome(d, p, credits, o.answer)
           && o.answer ==
              if job.amount == 0 || (job.pool && job.team !in g.gated) then Refused
              else if job.region !in active || !active[job.region] then NotFound
              else if job.pool && job.stripe in d.purchases && Get(d.payments, job.stripe) != Some(SyncFailed) then Duplicate
              else if !job.belongs then Refused
              else Duplicate)
  {
    hide Remaining, Bought, NotBought, AfterKeys, WithLimit, Target;
    assert job.team in g.gated ==> KeysToOpen(g, job) == KeysOf(g, job.team, job.region);
  }

  /** The rows of every other payment, and the ledger's other entries, are as they were. */
  ghost predicate OtherRowsKept(d: Tables, e: Tables, job: Job)
    requires job.Buy?
  {
    && (forall x | x != job.stripe :: Get(e.purchases, x) == Get(d.purchases, x) && Get(e.payments, x) == Get(d.payments, x))
    && (forall k | k != (job.team, job.region, job.stripe) :: Get(e.topups, k) == Get(d.topups, k))
    && e.subscriptions == d.subscriptions && e.rollovers == d.rollovers && e.caps == d.caps
  }

  /** The payment's purchase row, if the attempt came through the pool endpoint, is this attempt's. */
  predicate PurchaseRowKept(d: Tables, e: Tables, job: Job)
    requires job.Buy?
  {
    if job.pool then
      && job.stripe in e.purchases
      && e.purchases[job.stripe].team == job.team && e.purchases[job.stripe].region == job.region
      && e.purchases[job.stripe].amount == job.amount
    else
      Get(e.purchases, job.stripe) == Get(d.purchases, job.stripe)
  }

  /** Limits of other teams or regions, other teams' keys and all spend are as they were. */
  ghost predicate OtherwiseAlike(g: Ground, p: Proxies, q: Proxies, job: Job)
    requires job.Buy?
  {
    && q.spends == p.spends
    && (forall pair: (Id, Id) | pair != (job.team, job.region) :: Get(q.limits, pair) == Get(p.limits, pair))
    && (forall k | k !in KeysToOpen(g, job) :: Get(q.keys, k) == Get(p.keys, k))
  }

  lemma KeysWritten(g: Ground, d: Tables, p: Proxies, job: Job, luck: Luck)
    requires job.Buy? && job.team in g.gated
    ensures
      var q := AfterKeys(g, d, p, job, luck);
      && q.spends == p.spends && q.limits == p.limits
      && (forall k | k !in KeysToOpen(g, job) :: Get(q.keys, k) == Get(p.keys, k))
  {
  }

  /**
   * A success leaves the payment successful, its purchase row if it came through the pool endpoint, its whole
   * amount in the ledger, and the budget at the team's spend and all that it then has left.
   */
  lemma SuccessRecords(g: Ground, active: map<Id, bool>, d: Tables, p: Proxies, credits: seq<Credit>, job: Job, luck: Luck)
    requires job.Buy? && Purchased(g, active, d, p, credits, job, luck).answer == Created
    ensures
      var o := Purchased(g, active, d, p, credits, job, luck);
      && Get(o.db.payments, job.stripe) == Some(Success) && PurchaseRowKept(d, o.db, job)
      && Get(o.db.topups, (job.team, job.region, job.stripe)) == Some(Topup(job.amount, 0, job.live))
      && OtherRowsKept(d, o.db, job) && OtherwiseAlike(g, p, o.proxy, job)
      && BudgetCovers(o.proxy, job.team, job.region, Get(p.spends, (job.team, job.region)).GetOr(0), o.db)
  {
    hide Remaining, NotBought, Target, Bought, BudgetCovers, WithLimit, AfterKeys, OtherRowsKept, OtherwiseAlike;
    var o := Purchased(g, active, d, p, credits, job, luck);
    RowsOfSuccess(d, job);
    BudgetWritten(g, d, p, job, luck, Target(SpendOf(p, job.team, job.region), Remaining(d, job)));
    BoughtBalance(d, job);
    TargetCovers(o.proxy, job.team, job.region, SpendOf(p, job.team, job.region), o.db);
  }

  lemma RowsOfSuccess(d: Tables, job: Job)
    requires job.Buy?
    ensures
      var e := Bought(d, job);
      && Get(e.payments, job.stripe) == Some(Success) && PurchaseRowKept(d, e, job)
      && Get(e.topups, (job.team, job.region, job.stripe)) == Some(Topup(job.amount, 0, job.live))
      && OtherRowsKept(d, e, job)
  {
  }

  lemma RowsOfFailure(d: Tables, job: Job)
    requires job.Buy?
    ensures
      var e := NotBought(d, job);
      && Get(e.payments, job.stripe) == Some(SyncFailed) && PurchaseRowKept(d, e, job)
      && (job.team, job.region, job.stripe) !in e.topups
      && OtherRowsKept(d, e, job)
  {
  }

  /** The team's limit, and perhaps its keys, are all that a purchase writes on the proxy. */
  lemma BudgetWritten(g: Ground, d: Tables, p: Proxies, job: Job, luck: Luck, limit: Limit)
    requires job.Buy?
    ensures
      var raised := WithLimit(p, job.team, job.region, limit);
      var synced := AfterKeys(g, d, raised, job, luck);
      && OtherwiseAlike(g, p, p, job)
      && OtherwiseAlike(g, p, raised, job) && Get(raised.limits, (job.team, job.region)) == Some(limit)
      && (job.team in g.gated ==>
           && OtherwiseAlike(g, p, synced, job) && Get(synced.limits, (job.team, job.region)) == Some(limit)
           && forall other :: OtherwiseAlike(g, p, WithLimit(synced, job.team, job.region, other), job))
  {
    if job.team in g.gated {
      KeysWritten(g, d, WithLimit(p, job.team, job.region, limit), job, luck);
    }
    hide AfterKeys, KeysToOpen;
  }

  lemma BoughtBalance(d: Tables, job: Job)
    requires job.Buy?
    ensures Balance(Bought(d, job), job.team, job.region) == Remaining(d, job)
  {
    var e := d.(topups := StagedTopups(d, job));
    assert TopupKeys(Bought(d, job), job.team, job.region) == TopupKeys(e, job.team, job.region);
  }

  /** A purchase that the proxy fails keeps its payment, marked, and its purchase row, and has no top-up. */
  lemma FailureRecords(g: Ground, active: map<Id, bool>, d: Tables, p: Proxies, credits: seq<Credit>, job: Job, luck: Luck)
    requires job.Buy? && Purchased(g, active, d, p, credits, job, luck).answer == ProxyFailed
    ensures
      var o := Purchased(g, active, d, p, credits, job, luck);
      && Get(o.db.payments, job.stripe) == Some(SyncFailed) && PurchaseRowKept(d, o.db, job)
      && (job.team, job.region, job.stripe) !in o.db.topups
      && OtherRowsKept(d, o.db, job) && OtherwiseAlike(g, p, o.proxy, job) && o.credits == credits
  {
    hide Remaining, NotBought, Target, Bought, WithLimit, AfterKeys, OtherRowsKept, OtherwiseAlike;
    RowsOfFailure(d, job);
    BudgetWritten(g, d, p, job, luck, Target(SpendOf(p, job.team, job.region), Remaining(d, job)));
  }

  /** Once the budget is raised each key to open is written whose call worked or landed: it gets its cap if it
      has one and else inherits the budget. A call that failed outright leaves its key alone. */
  lemma KeysAfterPurchase(g: Ground, active: map<Id, bool>, d: Tables, p: Proxies, credits: seq<Credit>, job: Job,
                          luck: Luck, key: Id)
    requires job.Buy? && MayBuy(g, active, d, job) && luck.informed && luck.raised == Works && key in KeysToOpen(g, job)
    ensures
      var o := Purchased(g, active, d, p, credits, job, luck);
      Get(o.proxy.keys, key) ==
      if key in luck.failed && key !in luck.landed then Get(p.keys, key)
      else Some(if key in d.caps then Capped(d.caps[key]) else Inheriting)
  {
    PurchaseAnswer(g, active, d, p, credits, job, luck);
    hide Remaining, Bought, NotBought, Target, MayBuy;
    var keys := KeysOf(g, job.team, job.region);
    assert KeysToOpen(g, job) == keys;
    assert key in (keys - luck.failed) + (keys * luck.landed) <==> !(key in luck.failed && key !in luck.landed);
  }

  // ------------------------------------------------------------ clearing a key

  /** The ledger or the purchases have a row of this team in this region, of whatever kind and worth. */
  ghost predicate HasRow(d: Tables, team: Id, region: Id) {
    || (team, region) in d.subscriptions || (team, region) in d.rollovers
    || (exists x :: (team, region, x) in d.topups)
    || (exists x, b | x in d.purchases && d.purchases[x] == b :: b.team == team && b.region == region)
  }

  /**
   * What a clear answers and does: the key of a gated team without a row is put at zero, any other inherits its
   * team's budget; it is not written at all if the call fails outright; its cap goes exactly with a success.
   */
  lemma ClearAnswer(g: Ground, active: map<Id, bool>, d: Tables, p: Proxies, credits: seq<Credit>, team: Id, region: Id,
                    key: Id, result: CallResult, informed: bool)
    ensures
      var o := KeyCleared(g, active, d, p, credits, team, region, key, result, informed);
      var known := (team, region) in g.keys && key in g.keys[(team, region)];
      var open := region in active && active[region];
      && (o.answer == Refused <==> !known) && (o.answer == NotFound <==> known && !open)
      && (o.answer == Cleared <==> known && open && result == Works && informed)
      && (o.answer == ProxyFailed <==> known && open && !(result == Works && informed))
      && (Get(o.proxy.keys, key) ==
          if known && open && result != Fails then
            Some(if team in g.gated && !HasRow(d, team, region) then Gated else Inheriting)
          else Get(p.keys, key))
      && (forall k | k != key :: Get(o.proxy.keys, k) == Get(p.keys, k))
      && o.proxy.limits == p.limits && o.proxy.spends == p.spends && o.credits == credits
      && o.db == d.(caps := o.db.caps)
      && (forall k :: Get(o.db.caps, k) == if k == key && o.answer == Cleared then None else Get(d.caps, k))
  {
    RowsFound(d, team, region);
    hide EverPurchased, HasRow;
  }

  lemma RowsFound(d: Tables, team: Id, region: Id)
    ensures EverPurchased(d, team, region) <==> HasRow(d, team, region)
  {
    if HasTopup(d, team, region) {
      var k :| k in d.topups && k.0 == team && k.1 == region;
      assert (team, region, k.2) in d.topups;
    }
    if x :| (team, region, x) in d.topups {
      assert HasTopup(d, team, region);
    }
  }
}
