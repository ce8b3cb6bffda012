/**
 * What a run leaves for the gate and for the duplicate guards to see: which attempts there have been, and
 * what their rows say about a team and region or about a payment afterwards.
 */
module PurchaseHistory {
  import opened Common
  import opened Purchases
  import opened PurchaseLocks
  import opened PurchaseCredits
  import opened PurchaseAlone
  import opened PurchaseRequests
  import opened PurchaseRefinement

  // ------------------------------------------------------------ the attempts of a run

  /** A purchase that has committed, credited or not. */
  datatype Attempt = Attempt(stripe: Stripe, team: Id, region: Id, pool: bool, bought: bool)

  function AttemptFor(job: Job, bought: bool): Attempt
    requires job.Buy?
  {
    Attempt(job.stripe, job.team, job.region, job.pool, bought)
  }

  /** The attempt that an event commits, if it commits one. */
  function AttemptOf(s: System, e: Event): seq<Attempt> {
    match e
    case Commit(id) =>
      if At(s, id) && s.requests[id].phase.Paid? && s.requests[id].job.Buy? then [AttemptFor(s.requests[id].job, true)]
      else []
    case CommitFailed(id) =>
      if At(s, id) && s.requests[id].phase.Failing? && !s.requests[id].phase.owed && s.requests[id].job.Buy? then
        [AttemptFor(s.requests[id].job, false)]
      else []
    case _ => []
  }

  ghost function History(g: Ground, s: System, events: seq<Event>): seq<Attempt>
    decreases |events|
  {
    if events == [] then [] else AttemptOf(s, events[0]) + History(g, Step(g, s, events[0]), events[1..])
  }

  function Place(a: Attempt): (Id, Id, Stripe) {
    (a.team, a.region, a.stripe)
  }

  /** The last attempt for this team, region and payment. */
  function LastAt(attempts: seq<Attempt>, k: (Id, Id, Stripe)): Option<Attempt> {
    if attempts == [] then None
    else
      var last := attempts[|attempts| - 1];
      if Place(last) == k then Some(last) else LastAt(attempts[..|attempts| - 1], k)
  }

  /** The last attempt with this payment through the pool endpoint, wherever it was. */
  function LastPool(attempts: seq<Attempt>, x: Stripe): Option<Attempt> {
    if attempts == [] then None
    else
      var last := attempts[|attempts| - 1];
      if last.pool && last.stripe == x then Some(last) else LastPool(attempts[..|attempts| - 1], x)
  }

  /** The top-ups are the last attempts that succeeded; the purchase rows are the last pool attempts. */
  ghost predicate Explains(attempts: seq<Attempt>, d: Tables) {
    && (forall k :: k in d.topups <==> LastAt(attempts, k).Some? && LastAt(attempts, k).value.bought)
    && (forall x :: x in d.purchases <==> LastPool(attempts, x).Some?)
    && (forall x | x in d.purchases ::
         && d.purchases[x].team == LastPool(attempts, x).value.team
         && d.purchases[x].region == LastPool(attempts, x).value.region)
  }

  lemma OneMore(attempts: seq<Attempt>, a: Attempt)
    ensures forall k :: LastAt(attempts + [a], k) == if Place(a) == k then Some(a) else LastAt(attempts, k)
    ensures forall x :: LastPool(attempts + [a], x) == if a.pool && a.stripe == x then Some(a) else LastPool(attempts, x)
  {
    assert (attempts + [a])[..|attempts|] == attempts;
  }

  lemma BoughtExplained(attempts: seq<Attempt>, d: Tables, job: Job)
    requires job.Buy? && Explains(attempts, d)
    ensures Explains(attempts + [AttemptFor(job, true)], Bought(d, job))
  {
    OneMore(attempts, AttemptFor(job, true));
    hide LastAt, LastPool;
  }

  lemma NotBoughtExplained(attempts: seq<Attempt>, d: Tables, job: Job)
    requires job.Buy? && Explains(attempts, d)
    ensures Explains(attempts + [AttemptFor(job, false)], NotBought(d, job))
  {
    OneMore(attempts, AttemptFor(job, false));
    hide LastAt, LastPool;
  }

  lemma SameTables(g: Ground, s: System, e: Event)
    requires AttemptOf(s, e) == []
    ensures Step(g, s, e).db.topups.Keys == s.db.topups.Keys && Step(g, s, e).db.purchases == s.db.purchases
  {
    hide Bought, NotBought, Spent, KeysOf;
    if OfRequest(e) && At(s, e.id) && !e.Commit? && !e.CommitFailed? {
      hide RequestStep;
      OnlyCommitsStore(g, s, e);
    }
  }

  lemma StepExplained(g: Ground, s: System, e: Event, past: seq<Attempt>)
    requires Explains(past, s.db)
    ensures Explains(past + AttemptOf(s, e), Step(g, s, e).db)
  {
    if AttemptOf(s, e) == [] {
      SameTables(g, s, e);
      hide Step, LastAt, LastPool;
      assert past + [] == past;
    } else {
      hide Bought, NotBought, LastAt, LastPool, Explains;
      BoughtExplained(past, s.db, s.requests[e.id].job);
      NotBoughtExplained(past, s.db, s.requests[e.id].job);
    }
  }

  lemma {:induction false} RunExplained(g: Ground, s: System, events: seq<Event>, past: seq<Attempt>)
    requires Explains(past, s.db)
    ensures Explains(past + History(g, s, events), Run(g, s, events).db)
    decreases |events|
  {
    hide Step, Explains, AttemptOf;
    if events == [] {
      assert past + [] == past;
    } else {
      var now, t := AttemptOf(s, events[0]), Step(g, s, events[0]);
      StepExplained(g, s, events[0], past);
      RunExplained(g, t, events[1..], past + now);
      assert past + (now + History(g, t, events[1..])) == past + now + History(g, t, events[1..]);
    }
  }

  // ------------------------------------------------------------ entries of the other kinds

  /** The event adds a subscription or rollover entry for this team and region. */
  predicate Feeds(e: Event, team: Id, region: Id) {
    match e
    case Subscribe(t, r, _) => (t, r) == (team, region)
    case RollOver(t, r, _) => (t, r) == (team, region)
    case _ => false
  }

  predicate Fed(d: Tables, team: Id, region: Id) {
    (team, region) in d.subscriptions || (team, region) in d.rollovers
  }

  lemma StepFeeds(g: Ground, s: System, e: Event, team: Id, region: Id)
    ensures Fed(Step(g, s, e).db, team, region) <==> Fed(s.db, team, region) || Feeds(e, team, region)
  {
    hide NewPurchases, Spent, Consumed, Expired, KeysOf;
    WorldFeeds(s.db);
    if OfRequest(e) && At(s, e.id) && !e.Commit? && !e.CommitFailed? {
      hide RequestStep;
      OnlyCommitsStore(g, s, e);
    }
  }

  lemma WorldFeeds(d: Tables)
    ensures forall k, amount :: Consumed(d, k, amount) == d.(topups := Consumed(d, k, amount).topups)
    ensures forall k :: Expired(d, k) == d.(topups := Expired(d, k).topups)
  {
  }

  lemma {:induction false} RunFeeds(g: Ground, s: System, events: seq<Event>, team: Id, region: Id)
    ensures Fed(Run(g, s, events).db, team, region) <==> Fed(s.db, team, region) || exists e | e in events :: Feeds(e, team, region)
    decreases |events|
  {
    hide Step, Feeds, Fed;
    if events != [] {
      StepFeeds(g, s, events[0], team, region);
      RunFeeds(g, Step(g, s, events[0]), events[1..], team, region);
      assert events == [events[0]] + events[1..];
    }
  }

  // ------------------------------------------------------------ the gate

  /** The attempt left a row that is still there: its top-up, or the payment's purchase row. */
  predicate Counts(attempts: seq<Attempt>, a: Attempt) {
    || (a.bought && LastAt(attempts, Place(a)) == Some(a))
    || (a.pool && LastPool(attempts, a.stripe) == Some(a))
  }

  /** What has happened for this team and region that the gate still sees. */
  ghost predicate Funded(g: Ground, s: System, events: seq<Event>, team: Id, region: Id) {
    || Fed(s.db, team, region) || (exists e | e in events :: Feeds(e, team, region))
    || (exists a: Attempt :: a.team == team && a.region == region && Counts(History(g, s, events), a))
  }

  lemma {:induction false} LastIsPlaced(attempts: seq<Attempt>, k: (Id, Id, Stripe))
    ensures LastAt(attempts, k).Some? ==> Place(LastAt(attempts, k).value) == k && LastAt(attempts, k).value in attempts
  {
    if attempts != [] {
      LastIsPlaced(attempts[..|attempts| - 1], k);
    }
  }

  lemma {:induction false} LastIsPool(attempts: seq<Attempt>, x: Stripe)
    ensures LastPool(attempts, x).Some? ==>
      LastPool(attempts, x).value.pool && LastPool(attempts, x).value.stripe == x && LastPool(attempts, x).value in attempts
  {
    if attempts != [] {
      LastIsPool(attempts[..|attempts| - 1], x);
    }
  }

  lemma RowsCount(attempts: seq<Attempt>, d: Tables, team: Id, region: Id)
    requires Explains(attempts, d)
    ensures
      HasTopup(d, team, region) || HasPurchase(d, team, region) <==>
      exists a: Attempt :: a.team == team && a.region == region && Counts(attempts, a)
  {
    hide LastAt, LastPool;
    if HasTopup(d, team, region) {
      var k :| k in d.topups && k.0 == team && k.1 == region;
      LastIsPlaced(attempts, k);
      assert Counts(attempts, LastAt(attempts, k).value);
    }
    if HasPurchase(d, team, region) {
      var x :| x in d.purchases && d.purchases[x].team == team && d.purchases[x].region == region;
      LastIsPool(attempts, x);
      assert Counts(attempts, LastPool(attempts, x).value);
    }
    if a: Attempt :| a.team == team && a.region == region && Counts(attempts, a) {
      if a.bought && LastAt(attempts, Place(a)) == Some(a) {
        assert Place(a) in d.topups;
      } else {
        assert a.stripe in d.purchases;
      }
    }
  }

  /**
   * In every run, the code's "has ever purchased" holds of a team and region exactly if there was a
   * subscription or rollover entry for them, or some payment's last attempt there succeeded, or some
   * payment's last attempt through the pool endpoint anywhere was there, failed or not.
   */
  lemma EverPurchasedExactly(g: Ground, s: System, events: seq<Event>, team: Id, region: Id)
    requires Idle(s)
    ensures EverPurchased(Run(g, s, events).db, team, region) <==> Funded(g, s, events, team, region)
  {
    var z := Run(g, s, events);
    assert Explains([], s.db);
    RunExplained(g, s, events, []);
    assert [] + History(g, s, events) == History(g, s, events);
    RunFeeds(g, s, events, team, region);
    hide Run, Explains, HasTopup, HasPurchase, Counts, Idle, Feeds;
    RowsCount(History(g, s, events), z.db, team, region);
  }

  /** So after any run, clearing a key of a gated team puts it back at zero exactly if nothing of that happened. */
  lemma GateNeedsNoAttempt(g: Ground, s: System, events: seq<Event>, team: Id, region: Id, key: Id)
    requires Idle(s) && team in g.gated && key in KeysOf(g, team, region)
    requires Get(Run(g, s, events).active, region) == Some(true)
    ensures
      var z := Run(g, s, events);
      var o := KeyCleared(g, z.active, z.db, z.proxy, z.credits, team, region, key, Works, true);
      && o.answer == Cleared
      && (Get(o.proxy.keys, key) == Some(Gated) <==> !Funded(g, s, events, team, region))
  {
    EverPurchasedExactly(g, s, events, team, region);
    hide EverPurchased, KeysOf, Run, Funded, Idle;
  }

  /** The payment retried through the pool endpoint, and then sent there for another region; both fail. */
  function RetryingSteps(id: Id, again: Id, job: Job, other: Id): seq<Event>
    requires job.Buy?
  {
    FailedPoolSteps(id, job) + FailedPoolSteps(again, Elsewhere(job, other, true))
  }

  /**
   * A success can be forgotten. One payment of a gated team: credited in a region; attempted through the
   * periodic endpoint for another, where the proxy fails; retried through the pool endpoint in the first,
   * which deletes the top-up before the proxy fails again; and attempted there for the other region, which
   * moves the purchase row. The team was answered with success, and a clear puts its key back at zero.
   */
  lemma SuccessForgotten(g: Ground, s: System, a: Id, b: Id, c: Id, d: Id, job: Job, other: Id, key: Id)
    requires job.Buy? && job.pool && job.team in g.gated && Startable(s, a, job) && key in KeysOf(g, job.team, job.region)
    requires !At(s, b) && !At(s, c) && !At(s, d) && |{a, b, c, d}| == 4
    requires other != job.region && Get(s.active, other) == Some(true)
    requires job.stripe !in s.db.purchases && forall k | k in s.db.topups :: k.2 != job.stripe
    requires !EverPurchased(s.db, job.team, job.region)
    ensures
      var z := Run(g, s, SpoilingSteps(a, b, job, other) + RetryingSteps(c, d, job, other));
      var o := KeyCleared(g, z.active, z.db, z.proxy, z.credits, job.team, job.region, key, Works, true);
      && z.credits == s.credits + [CreditOf(s, job)]
      && o.answer == Cleared && Get(o.proxy.keys, key) == Some(Gated)
  {
    NothingLeft(s.db, job, other);
    hide Run, SpoilingSteps, RetryingSteps, EverPurchased, KeysOf, Bought, NotBought, Quiet, Remaining;
    ForgettingRun(g, s, a, b, c, d, job, other);
  }

  lemma ForgettingRun(g: Ground, s: System, a: Id, b: Id, c: Id, d: Id, job: Job, other: Id)
    requires job.Buy? && job.pool && job.team in g.gated && Startable(s, a, job)
    requires !At(s, b) && !At(s, c) && !At(s, d) && |{a, b, c, d}| == 4
    requires other != job.region && Get(s.active, other) == Some(true)
    requires job.stripe !in s.db.purchases && forall k | k in s.db.topups :: k.2 != job.stripe
    ensures
      var z := Run(g, s, SpoilingSteps(a, b, job, other) + RetryingSteps(c, d, job, other));
      var failed := NotBought(Bought(s.db, job), Elsewhere(job, other, false));
      && z.active == s.active && z.credits == s.credits + [CreditOf(s, job)]
      && z.db == NotBought(NotBought(failed, job), Elsewhere(job, other, true))
  {
    SpoiledRows(s.db, job, other);
    hide Run, SpoilingSteps, RetryingSteps, Bought, NotBought, Quiet, Remaining, Startable, KeysOf;
    AllDistinct(a, b, c, d);
    SpoiledAlone(g, s, a, b, job, other);
    RetriesForget(g, s, Run(g, s, SpoilingSteps(a, b, job, other)), a, {a} + {b}, c, d, job, other);
    RunTwice(g, s, SpoilingSteps(a, b, job, other), RetryingSteps(c, d, job, other));
  }

  lemma AllDistinct(a: Id, b: Id, c: Id, d: Id)
    requires |{a, b, c, d}| == 4
    ensures a != b && a != c && a != d && b != c && b != d && c != d
  {
  }

  lemma FailsTwice(g: Ground, u: System, id: Id, again: Id, job: Job, other: Id)
    requires job.Buy? && job.pool && job.team in g.gated && Startable(u, id, job) && !At(u, again) && id != again
    requires job.stripe in u.db.purchases && Get(u.db.payments, job.stripe) == Some(SyncFailed)
    requires Get(u.active, other) == Some(true)
    ensures
      Settled(u, Run(g, u, RetryingSteps(id, again, job, other)), {id} + {again},
              NotBought(NotBought(u.db, job), Elsewhere(job, other, true)), u.credits)
  {
    var moved, d := Elsewhere(job, other, true), NotBought(u.db, job);
    assert moved.pool && RetryingSteps(id, again, job, other) == FailedPoolSteps(id, job) + FailedPoolSteps(again, moved);
    StillFailed(u.db, job);
    hide *;
    PoolFailsAlone(g, u, id, job);
    NextMayStart(u, id, job, Run(g, u, FailedPoolSteps(id, job)), {id}, d, u.credits, again, other, true);
    PoolFailsAlone(g, Run(g, u, FailedPoolSteps(id, job)), again, moved);
    SettledRuns(g, u, FailedPoolSteps(id, job), FailedPoolSteps(again, moved), {id}, {again}, d, NotBought(d, moved),
                u.credits, u.credits);
  }

  /** The retries after a spoiled success, whichever run spoiled it. */
  lemma RetriesForget(g: Ground, s: System, u: System, first: Id, ids: set<Id>, id: Id, again: Id, job: Job, other: Id)
    requires job.Buy? && job.pool && job.team in g.gated && Startable(s, first, job) && Get(s.active, other) == Some(true)
    requires Settled(s, u, ids, u.db, u.credits) && !At(u, id) && !At(u, again) && id != again
    requires job.stripe in u.db.purchases && Get(u.db.payments, job.stripe) == Some(SyncFailed)
    ensures
      var z := Run(g, u, RetryingSteps(id, again, job, other));
      && z.active == s.active && z.credits == u.credits
      && z.db == NotBought(NotBought(u.db, job), Elsewhere(job, other, true))
  {
    assert Startable(u, id, job) && u.active == s.active;
    hide Startable, Run, RetryingSteps, NotBought, Quiet;
    FailsTwice(g, u, id, again, job, other);
  }

  lemma StillFailed(d: Tables, job: Job)
    requires job.Buy? && job.stripe in d.purchases
    ensures job.stripe in NotBought(d, job).purchases && Get(NotBought(d, job).payments, job.stripe) == Some(SyncFailed)
  {
  }

  /** The four attempts leave no row in the first region. */
  lemma NothingLeft(d: Tables, job: Job, other: Id)
    requires job.Buy? && other != job.region && !EverPurchased(d, job.team, job.region)
    ensures
      var failed := NotBought(Bought(d, job), Elsewhere(job, other, false));
      !EverPurchased(NotBought(NotBought(failed, job), Elsewhere(job, other, true)), job.team, job.region)
  {
    var failed := NotBought(Bought(d, job), Elsewhere(job, other, false));
    var e := NotBought(NotBought(failed, job), Elsewhere(job, other, true));
    forall k | k in e.topups
      ensures !(k.0 == job.team && k.1 == job.region)
    {
      assert k in d.topups;
    }
    forall x | x in e.purchases
      ensures !(e.purchases[x].team == job.team && e.purchases[x].region == job.region)
    {
      assert x == job.stripe || (x in d.purchases && e.purchases[x] == d.purchases[x]);
    }
  }

  // ------------------------------------------------------------ when a payment is credited again

  ghost predicate PoolCreditsRecorded(s: System) {
    forall c | c in s.credits && c.pool :: c.stripe in s.db.purchases
  }

  lemma StepKeepsRecorded(g: Ground, s: System, e: Event)
    requires PoolCreditsRecorded(s)
    ensures PoolCreditsRecorded(Step(g, s, e))
  {
    hide Spent, KeysOf;
    if OfRequest(e) && At(s, e.id) && !e.Commit? && !e.CommitFailed? {
      hide RequestStep;
      OnlyCommitsStore(g, s, e);
    }
  }

  lemma {:induction false} RunKeepsRecorded(g: Ground, s: System, events: seq<Event>)
    requires PoolCreditsRecorded(s)
    ensures PoolCreditsRecorded(Run(g, s, events))
    decreases |events|
  {
    hide Step, PoolCreditsRecorded;
    if events != [] {
      StepKeepsRecorded(g, s, events[0]);
      RunKeepsRecorded(g, Step(g, s, events[0]), events[1..]);
    }
  }

  /** Every call of the purchase works. */
  predicate AllWork(g: Ground, job: Job, luck: Luck)
    requires job.Buy?
  {
    luck.informed && luck.raised == Works && (job.team in g.gated ==> KeysOf(g, job.team, job.region) * luck.failed == {})
  }

  /** After any run, an uninterrupted purchase whose calls work is credited exactly if no guard turns it away. */
  lemma CreditedUnlessTurnedAway(g: Ground, z: System, id: Id, job: Job, luck: Luck)
    requires Startable(z, id, job) && (job.pool ==> job.team in g.gated) && AllWork(g, job, luck)
    ensures
      Run(g, z, Script(id, job, luck)).credits ==
      z.credits + if TurnedAway(g, z.active, z.db, job).None? then [CreditOf(z, job)] else []
  {
    EndpointIsRun(g, z, id, job, luck);
    hide Run, Remaining, KeysOf, Bought, NotBought, AfterKeys;
  }

  /**
   * After any run, a payment that the pool endpoint has credited is credited again by a pool purchase for
   * whichever team and region, exactly if its payment row is marked as failed when the purchase looks; and
   * that takes a periodic attempt with it that failed for another team or region.
   */
  lemma PoolCreditsAgainExactly(g: Ground, s: System, events: seq<Event>, c: Credit, id: Id, job: Job, luck: Luck)
    requires Idle(s) && c in Run(g, s, events).credits && c.pool
    requires Startable(Run(g, s, events), id, job) && job.pool && job.team in g.gated && job.stripe == c.stripe
    requires AllWork(g, job, luck)
    ensures
      var z := Run(g, s, events);
      var t := Run(g, z, Script(id, job, luck));
      && t.credits == z.credits + (if Get(z.db.payments, c.stripe) == Some(SyncFailed) then [CreditOf(z, job)] else [])
      && (Get(z.db.payments, c.stripe) == Some(SyncFailed) ==> Spoiled(z, c))
  {
    RunKeepsRecorded(g, s, events);
    PoolCreditsStand(g, s, events);
    var z := Run(g, s, events);
    hide Run, Spoiled, Script, Remaining, AllWork;
    CreditedUnlessTurnedAway(g, z, id, job, luck);
  }

  /**
   * And the periodic endpoint credits a payment again in the same place exactly if its ledger entry is gone,
   * which takes a request with it through the pool endpoint.
   */
  lemma PeriodicCreditsAgainExactly(g: Ground, s: System, events: seq<Event>, c: Credit, id: Id, job: Job, luck: Luck)
    requires Idle(s) && c in Run(g, s, events).credits
    requires Startable(Run(g, s, events), id, job) && !job.pool && TopupKey(job) == CreditKey(c)
    requires AllWork(g, job, luck)
    ensures
      var z := Run(g, s, events);
      var t := Run(g, z, Script(id, job, luck));
      && t.credits == z.credits + (if CreditKey(c) !in z.db.topups then [CreditOf(z, job)] else [])
      && (CreditKey(c) !in z.db.topups ==> Seen(z, c.stripe, true))
  {
    IdleIsSound(s, c.stripe);
    RunKeepsSound(g, s, events, c.stripe);
    var z := Run(g, s, events);
    hide Run, Seen, Script, Remaining, AllWork, LocksHeld, RowsSound, OnceSound, Fits, StagedApart;
    CreditedUnlessTurnedAway(g, z, id, job, luck);
  }
}
