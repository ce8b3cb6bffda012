/**
 * Purchases that nothing interleaves with, step by step; and with them, what the two endpoints' duplicate
 * guards leave open when they are used for the same payment.
 */
module PurchaseAlone {
  import opened Common
  import opened Purchases
  import opened PurchaseCredits
  import opened PurchaseGates

  /** Nobody is in a transaction. */
  ghost predicate Quiet(s: System) {
    s.locks == map[] && forall i | i in s.requests :: s.requests[i].phase.Done?
  }

  /** The request may start: it is new, its region is active and its team's. */
  ghost predicate Startable(s: System, id: Id, job: Job) {
    && Quiet(s) && !At(s, id)
    && job.Buy? && job.amount > 0 && job.belongs
    && Get(s.active, job.region) == Some(true)
  }

  function PeriodicSteps(id: Id, job: Job): seq<Event> {
    [Begin(id, job), Lock(id), Record(id), Inform(id, true), RaiseBudget(id, Works), Commit(id)]
  }

  function FailedPeriodicSteps(id: Id, job: Job): seq<Event> {
    [Begin(id, job), Lock(id), Record(id), Inform(id, false), CommitFailed(id)]
  }

  function FailedPoolSteps(id: Id, job: Job): seq<Event> {
    [Begin(id, job), Lock(id), ReadPurchase(id), StagePurchase(id), Record(id), Inform(id, false), CommitFailed(id)]
  }

  function PoolSteps(id: Id, job: Job): seq<Event> {
    [Begin(id, job), Lock(id), ReadPurchase(id), StagePurchase(id), Record(id), Inform(id, true),
     RaiseBudget(id, Works), SyncKeys(id, {}, {}), Commit(id)]
  }

  /** The credit an uninterrupted purchase is answered with. */
  ghost function CreditOf(s: System, job: Job): Credit
    requires job.Buy?
  {
    CreditFor(job, SpendOf(s.proxy, job.team, job.region), Remaining(s.db, job))
  }

  lemma Next(g: Ground, s: System, e: Event, rest: seq<Event>)
    ensures Run(g, s, [e] + rest) == Run(g, Step(g, s, e), rest)
  {
    assert ([e] + rest)[1..] == rest;
  }

  // ------------------------------------------------------------ the steps, one by one

  lemma Started(g: Ground, s: System, id: Id, job: Job)
    requires Startable(s, id, job) && (job.pool ==> job.team in g.gated)
    ensures
      var z := Step(g, Step(g, s, Begin(id, job)), Lock(id));
      && Inside(s, z, id, job, Holding, false)
      && z.proxy == s.proxy
  {
  }

  /** The request is in its transaction, alone, with nothing committed yet. */
  ghost predicate Inside(s: System, z: System, id: Id, job: Job, phase: Phase, retry: bool) {
    && At(z, id) && z.requests[id].job == job && z.requests[id].phase == phase && z.requests[id].retry == retry
    && (forall i | i in z.requests && i != id :: z.requests[i].phase.Done?)
    && z.requests[id].before == LimitOf(s.proxy, job.team, job.region)
    && z.requests.Keys == s.requests.Keys + {id}
    && z.locks == map[job.region := id] && z.active == s.active && z.db == s.db && z.credits == s.credits
  }

  lemma RecordedAlone(g: Ground, s: System, z: System, id: Id, job: Job, retry: bool)
    requires job.Buy? && job.belongs && (TopupKey(job) in s.db.topups ==> retry)
    requires Inside(s, z, id, job, if job.pool then PurchaseStaged else Holding, retry)
    ensures
      var t := Step(g, z, Record(id));
      Inside(s, t, id, job, Recorded, retry) && t.proxy == z.proxy
  {
  }

  lemma InformedAlone(g: Ground, s: System, z: System, id: Id, job: Job, retry: bool, works: bool)
    requires job.Buy? && Inside(s, z, id, job, Recorded, retry)
    ensures
      var t := Step(g, z, Inform(id, works));
      && t.proxy == z.proxy
      && Inside(s, t, id, job, if works then Informed(SpendOf(z.proxy, job.team, job.region), Remaining(s.db, job))
                               else Failing(false, None), retry)
  {
    hide Remaining;
  }

  lemma RaisedAlone(g: Ground, s: System, z: System, id: Id, job: Job, retry: bool, spend: nat, remaining: nat,
                    result: CallResult)
    requires job.Buy? && Inside(s, z, id, job, Informed(spend, remaining), retry)
    ensures
      var t := Step(g, z, RaiseBudget(id, result));
      && Inside(s, t, id, job, match result
                               case Fails => Failing(false, None)
                               case Unheard => Failing(false, Some(Target(spend, remaining)))
                               case Works => if job.team in g.gated then Budgeted(spend, remaining) else Paid(spend, remaining),
                retry)
      && t.proxy == if result == Fails then z.proxy else WithLimit(z.proxy, job.team, job.region, Target(spend, remaining))
  {
    hide WithLimit, Target;
  }

  lemma SyncedAlone(g: Ground, s: System, z: System, id: Id, job: Job, retry: bool, spend: nat, remaining: nat,
                    failed: set<Id>, landed: set<Id>)
    requires job.Buy? && Inside(s, z, id, job, Budgeted(spend, remaining), retry)
    ensures
      var t := Step(g, z, SyncKeys(id, failed, landed));
      var keys := KeysOf(g, job.team, job.region);
      && Inside(s, t, id, job, if keys * failed == {} then Paid(spend, remaining) else Failing(true, Some(Target(spend, remaining))),
                retry)
      && t.proxy == z.proxy.(keys := z.proxy.keys + Opened(s.db.caps, (keys - failed) + (keys * landed)))
  {
    hide Opened, KeysOf;
  }

  lemma RestoredAlone(g: Ground, s: System, z: System, id: Id, job: Job, retry: bool, left: Option<Limit>, works: bool)
    requires job.Buy? && Inside(s, z, id, job, Failing(true, left), retry)
    ensures
      var t := Step(g, z, Restore(id, works));
      && Inside(s, t, id, job, Failing(false, if works then None else left), retry)
      && t.proxy == if works then WithLimit(z.proxy, job.team, job.region, LimitOf(s.proxy, job.team, job.region)) else z.proxy
  {
    hide WithLimit;
  }

  lemma CommittedAlone(g: Ground, s: System, z: System, id: Id, job: Job, retry: bool, spend: nat, remaining: nat)
    requires job.Buy? && Inside(s, z, id, job, Paid(spend, remaining), retry)
    ensures
      var t := Step(g, z, Commit(id));
      && At(t, id) && t.requests[id].phase == Done(Created) && t.proxy == z.proxy
      && Quiet(t) && t.active == s.active && t.requests.Keys == s.requests.Keys + {id}
      && t.db == Bought(s.db, job)
      && t.credits == s.credits + [CreditFor(job, spend, remaining)]
  {
  }

  lemma FailedAlone(g: Ground, s: System, z: System, id: Id, job: Job, retry: bool, left: Option<Limit>)
    requires job.Buy? && Inside(s, z, id, job, Failing(false, left), retry)
    ensures
      var t := Step(g, z, CommitFailed(id));
      && At(t, id) && t.requests[id].phase == Done(ProxyFailed) && t.proxy == z.proxy
      && Quiet(t) && t.active == s.active && t.requests.Keys == s.requests.Keys + {id}
      && t.db == NotBought(s.db, job) && t.credits == s.credits
  {
  }

  /** The pool endpoint's own two steps: it finds no purchase, or a failed one that it will replace. */
  lemma StagedAlone(g: Ground, s: System, z: System, id: Id, job: Job)
    requires job.Buy? && job.pool && Inside(s, z, id, job, Holding, false)
    requires job.stripe in s.db.purchases ==> Get(s.db.payments, job.stripe) == Some(SyncFailed)
    ensures
      var t := Step(g, Step(g, z, ReadPurchase(id)), StagePurchase(id));
      Inside(s, t, id, job, PurchaseStaged, job.stripe in s.db.purchases) && t.proxy == z.proxy
  {
  }

  // ------------------------------------------------------------ whole purchases

  /** Everyone is done again; these requests have been added, and these are the tables and credits now. */
  ghost predicate Settled(s: System, t: System, ids: set<Id>, d: Tables, credits: seq<Credit>) {
    Quiet(t) && t.active == s.active && t.requests.Keys == s.requests.Keys + ids && t.db == d && t.credits == credits
  }

  /** A periodic purchase that no one interrupts is credited, if its team and region have no such top-up yet. */
  lemma PeriodicAlone(g: Ground, s: System, id: Id, job: Job)
    requires Startable(s, id, job) && !job.pool && job.team !in g.gated && TopupKey(job) !in s.db.topups
    ensures Settled(s, Run(g, s, PeriodicSteps(id, job)), {id}, Bought(s.db, job), s.credits + [CreditOf(s, job)])
  {
    hide Startable, Inside, Step, Quiet, Bought, Remaining;
    Belongs(s, id, job);
    var a := Step(g, Step(g, s, Begin(id, job)), Lock(id));
    Started(g, s, id, job);
    RecordedAlone(g, s, a, id, job, false);
    var b := Step(g, a, Record(id));
    InformedAlone(g, s, b, id, job, false, true);
    var c := Step(g, b, Inform(id, true));
    var spend, remaining := SpendOf(s.proxy, job.team, job.region), Remaining(s.db, job);
    RaisedAlone(g, s, c, id, job, false, spend, remaining, Works);
    var d := Step(g, c, RaiseBudget(id, Works));
    CommittedAlone(g, s, d, id, job, false, spend, remaining);
    SixSteps(g, s, Begin(id, job), Lock(id), Record(id), Inform(id, true), RaiseBudget(id, Works), Commit(id));
  }

  lemma Belongs(s: System, id: Id, job: Job)
    requires Startable(s, id, job)
    ensures job.Buy? && job.belongs
  {
  }

  lemma TwoSteps(g: Ground, s: System, e1: Event, e2: Event, rest: seq<Event>)
    ensures Run(g, s, [e1, e2] + rest) == Run(g, Step(g, Step(g, s, e1), e2), rest)
  {
    hide Step;
    Next(g, s, e1, [e2] + rest);
    Next(g, Step(g, s, e1), e2, rest);
    assert [e1] + ([e2] + rest) == [e1, e2] + rest;
  }

  lemma SixSteps(g: Ground, s: System, e1: Event, e2: Event, e3: Event, e4: Event, e5: Event, e6: Event)
    ensures
      Run(g, s, [e1, e2, e3, e4, e5, e6]) ==
      Step(g, Step(g, Step(g, Step(g, Step(g, Step(g, s, e1), e2), e3), e4), e5), e6)
  {
    hide Step;
    var t := Step(g, Step(g, s, e1), e2);
    var u := Step(g, Step(g, t, e3), e4);
    TwoSteps(g, s, e1, e2, [e3, e4, e5, e6]);
    TwoSteps(g, t, e3, e4, [e5, e6]);
    TwoSteps(g, u, e5, e6, []);
    assert [e1, e2] + [e3, e4, e5, e6] == [e1, e2, e3, e4, e5, e6];
    assert [e3, e4] + [e5, e6] == [e3, e4, e5, e6] && [e5, e6] + [] == [e5, e6];
  }

  /** One whose proxy does not answer leaves a failed payment and nothing in the ledger. */
  lemma PeriodicFailsAlone(g: Ground, s: System, id: Id, job: Job)
    requires Startable(s, id, job) && !job.pool && TopupKey(job) !in s.db.topups
    ensures Settled(s, Run(g, s, FailedPeriodicSteps(id, job)), {id}, NotBought(s.db, job), s.credits)
  {
    hide Startable, Inside, Step, Quiet, NotBought;
    Belongs(s, id, job);
    var a := Step(g, Step(g, s, Begin(id, job)), Lock(id));
    Started(g, s, id, job);
    RecordedAlone(g, s, a, id, job, false);
    var b := Step(g, a, Record(id));
    InformedAlone(g, s, b, id, job, false, false);
    FailedAlone(g, s, Step(g, b, Inform(id, false)), id, job, false, None);
    TwoSteps(g, s, Begin(id, job), Lock(id), [Record(id), Inform(id, false), CommitFailed(id)]);
    TwoSteps(g, a, Record(id), Inform(id, false), [CommitFailed(id)]);
    Next(g, Step(g, b, Inform(id, false)), CommitFailed(id), []);
    assert [Begin(id, job), Lock(id)] + [Record(id), Inform(id, false), CommitFailed(id)] == FailedPeriodicSteps(id, job);
    assert [Record(id), Inform(id, false)] + [CommitFailed(id)] == [Record(id), Inform(id, false), CommitFailed(id)];
    assert [CommitFailed(id)] + [] == [CommitFailed(id)];
  }

  /** A pool purchase that no one interrupts is credited if the payment is new, or its last attempt failed. */
  lemma PoolAlone(g: Ground, s: System, id: Id, job: Job)
    requires Startable(s, id, job) && job.pool && job.team in g.gated
    requires if job.stripe in s.db.purchases then Get(s.db.payments, job.stripe) == Some(SyncFailed)
             else TopupKey(job) !in s.db.topups
    ensures Settled(s, Run(g, s, PoolSteps(id, job)), {id}, Bought(s.db, job), s.credits + [CreditOf(s, job)])
  {
    hide Startable, Inside, Step, Quiet, Bought, Remaining;
    Belongs(s, id, job);
    var retry := job.stripe in s.db.purchases;
    var a := Step(g, Step(g, s, Begin(id, job)), Lock(id));
    Started(g, s, id, job);
    StagedAlone(g, s, a, id, job);
    var b := Step(g, Step(g, a, ReadPurchase(id)), StagePurchase(id));
    RecordedAlone(g, s, b, id, job, retry);
    var c := Step(g, b, Record(id));
    InformedAlone(g, s, c, id, job, retry, true);
    var d := Step(g, c, Inform(id, true));
    var spend, remaining := SpendOf(s.proxy, job.team, job.region), Remaining(s.db, job);
    RaisedAlone(g, s, d, id, job, retry, spend, remaining, Works);
    var e := Step(g, d, RaiseBudget(id, Works));
    SyncedAlone(g, s, e, id, job, retry, spend, remaining, {}, {});
    CommittedAlone(g, s, Step(g, e, SyncKeys(id, {}, {})), id, job, retry, spend, remaining);
    NineSteps(g, s, Begin(id, job), Lock(id), ReadPurchase(id), StagePurchase(id), Record(id), Inform(id, true),
              RaiseBudget(id, Works), SyncKeys(id, {}, {}), Commit(id));
  }

  /** One that fails, new or as a retry, leaves a failed payment and a purchase row, and no top-up in its place. */
  lemma PoolFailsAlone(g: Ground, s: System, id: Id, job: Job)
    requires Startable(s, id, job) && job.pool && job.team in g.gated
    requires if job.stripe in s.db.purchases then Get(s.db.payments, job.stripe) == Some(SyncFailed)
             else TopupKey(job) !in s.db.topups
    ensures Settled(s, Run(g, s, FailedPoolSteps(id, job)), {id}, NotBought(s.db, job), s.credits)
  {
    hide Startable, Inside, Step, Quiet, NotBought;
    Belongs(s, id, job);
    var retry := job.stripe in s.db.purchases;
    var a := Step(g, Step(g, s, Begin(id, job)), Lock(id));
    Started(g, s, id, job);
    StagedAlone(g, s, a, id, job);
    var b := Step(g, Step(g, a, ReadPurchase(id)), StagePurchase(id));
    RecordedAlone(g, s, b, id, job, retry);
    var c := Step(g, b, Record(id));
    InformedAlone(g, s, c, id, job, retry, false);
    var d := Step(g, c, Inform(id, false));
    FailedAlone(g, s, d, id, job, retry, None);
    SixSteps(g, s, Begin(id, job), Lock(id), ReadPurchase(id), StagePurchase(id), Record(id), Inform(id, false));
    RunTwice(g, s, FailedPoolSteps(id, job)[..6], [CommitFailed(id)]);
    Next(g, d, CommitFailed(id), []);
    assert FailedPoolSteps(id, job)[..6] + [CommitFailed(id)] == FailedPoolSteps(id, job);
    assert FailedPoolSteps(id, job)[..6] ==
           [Begin(id, job), Lock(id), ReadPurchase(id), StagePurchase(id), Record(id), Inform(id, false)];
    assert [CommitFailed(id)] + [] == [CommitFailed(id)];
  }

  lemma NineSteps(g: Ground, s: System, e1: Event, e2: Event, e3: Event, e4: Event, e5: Event, e6: Event, e7: Event,
                  e8: Event, e9: Event)
    ensures
      Run(g, s, [e1, e2, e3, e4, e5, e6, e7, e8, e9]) ==
      Step(g, Step(g, Step(g, Step(g, Step(g, Step(g, Step(g, Step(g, Step(g, s, e1), e2), e3), e4), e5), e6), e7), e8), e9)
  {
    hide Step;
    SixSteps(g, s, e1, e2, e3, e4, e5, e6);
    var t := Run(g, s, [e1, e2, e3, e4, e5, e6]);
    RunTwice(g, s, [e1, e2, e3, e4, e5, e6], [e7, e8, e9]);
    assert [e1, e2, e3, e4, e5, e6] + [e7, e8, e9] == [e1, e2, e3, e4, e5, e6, e7, e8, e9];
    TwoSteps(g, t, e7, e8, [e9]);
    Next(g, Step(g, Step(g, t, e7), e8), e9, []);
    assert [e7, e8] + [e9] == [e7, e8, e9] && [e9] + [] == [e9];
  }

  // ------------------------------------------------------------ what the guards leave open

  /** The same payment, sent for another region. */
  function Elsewhere(job: Job, region: Id, pool: bool): Job
    requires job.Buy?
  {
    Buy(pool, job.team, region, job.stripe, job.amount, job.belongs, job.live)
  }

  /**
   * The periodic endpoint credits one payment in as many regions as it is sent to: right after it has been
   * credited in one, sending it for another credits it again.
   */
  lemma PeriodicCreditsEveryRegion(g: Ground, s: System, id: Id, again: Id, job: Job, other: Id)
    requires Startable(s, id, job) && !job.pool && job.team !in g.gated && TopupKey(job) !in s.db.topups
    requires id != again && !At(s, again) && other != job.region && Get(s.active, other) == Some(true)
    requires TopupKey(Elsewhere(job, other, false)) !in s.db.topups
    ensures
      var z := Run(g, s, PeriodicSteps(id, job) + PeriodicSteps(again, Elsewhere(job, other, false)));
      && |z.credits| == |s.credits| + 2
      && z.credits[|s.credits|].stripe == z.credits[|s.credits| + 1].stripe == job.stripe
      && TopupKey(job) in z.db.topups && TopupKey(Elsewhere(job, other, false)) in z.db.topups
  {
    var second := Elsewhere(job, other, false);
    PeriodicAlone(g, s, id, job);
    var t := Run(g, s, PeriodicSteps(id, job));
    assert Startable(t, again, second);
    PeriodicAlone(g, t, again, second);
    hide Run, PeriodicSteps, Remaining;
    RunTwice(g, s, PeriodicSteps(id, job), PeriodicSteps(again, second));
  }

  /** Another request with the same payment may start then. */
  lemma NextMayStart(s: System, id: Id, job: Job, t: System, ids: set<Id>, d: Tables, credits: seq<Credit>, next: Id,
                     region: Id, pool: bool)
    requires Startable(s, id, job) && Settled(s, t, ids, d, credits)
    requires !At(s, next) && next !in ids && Get(s.active, region) == Some(true)
    ensures Startable(t, next, Elsewhere(job, region, pool)) && t.db == d && t.credits == credits
  {
  }

  lemma SpoiledRows(d: Tables, job: Job, other: Id)
    requires job.Buy? && other != job.region && forall k | k in d.topups :: k.2 != job.stripe
    requires job.pool
    ensures TopupKey(job) !in d.topups && TopupKey(Elsewhere(job, other, false)) !in Bought(d, job).topups
    ensures
      var e := NotBought(Bought(d, job), Elsewhere(job, other, false));
      job.stripe in e.purchases && Get(e.payments, job.stripe) == Some(SyncFailed)
  {
  }

  /** A pool purchase, and then a periodic attempt with its payment for another region that the proxy fails. */
  function SpoilingSteps(id: Id, failing: Id, job: Job, other: Id): seq<Event>
    requires job.Buy?
  {
    PoolSteps(id, job) + FailedPeriodicSteps(failing, Elsewhere(job, other, false))
  }

  /** Runs that settle one after the other. */
  lemma SettledRuns(g: Ground, s: System, first: seq<Event>, second: seq<Event>, ids: set<Id>, more: set<Id>, d: Tables,
                    e: Tables, a: seq<Credit>, b: seq<Credit>)
    requires Settled(s, Run(g, s, first), ids, d, a) && Settled(Run(g, s, first), Run(g, Run(g, s, first), second), more, e, b)
    ensures Settled(s, Run(g, s, first + second), ids + more, e, b)
  {
    RunTwice(g, s, first, second);
    hide Run, Quiet;
  }

  lemma SpoiledAlone(g: Ground, s: System, id: Id, failing: Id, job: Job, other: Id)
    requires job.Buy? && job.pool && job.team in g.gated && Startable(s, id, job)
    requires job.stripe !in s.db.purchases && forall k | k in s.db.topups :: k.2 != job.stripe
    requires id != failing && !At(s, failing) && other != job.region && Get(s.active, other) == Some(true)
    ensures
      Settled(s, Run(g, s, SpoilingSteps(id, failing, job, other)), {id} + {failing},
              NotBought(Bought(s.db, job), Elsewhere(job, other, false)), s.credits + [CreditOf(s, job)])
  {
    var between, d, credits := Elsewhere(job, other, false), Bought(s.db, job), s.credits + [CreditOf(s, job)];
    SpoiledRows(s.db, job, other);
    assert !between.pool && SpoilingSteps(id, failing, job, other) == PoolSteps(id, job) + FailedPeriodicSteps(failing, between);
    hide *;
    PoolAlone(g, s, id, job);
    var t := Run(g, s, PoolSteps(id, job));
    NextMayStart(s, id, job, t, {id}, d, credits, failing, other, false);
    PeriodicFailsAlone(g, t, failing, between);
    SettledRuns(g, s, PoolSteps(id, job), FailedPeriodicSteps(failing, between), {id}, {failing}, d, NotBought(d, between),
                credits, credits);
  }

  /**
   * Nor does the pool endpoint's guard hold once both endpoints have seen a payment: after a pool purchase
   * succeeded, a failed periodic attempt for another region marks the shared payment row as failed, and the
   * pool endpoint then credits the payment a second time.
   */
  lemma MixedEndpointsCreditTwice(g: Ground, s: System, id: Id, failing: Id, again: Id, job: Job, other: Id)
    requires job.Buy? && job.pool && job.team in g.gated && Startable(s, id, job)
    requires job.stripe !in s.db.purchases && forall k | k in s.db.topups :: k.2 != job.stripe
    requires id != failing && id != again && failing != again && !At(s, failing) && !At(s, again)
    requires other != job.region && Get(s.active, other) == Some(true)
    ensures
      var z := Run(g, s, SpoilingSteps(id, failing, job, other) + PoolSteps(again, job));
      && |z.credits| == |s.credits| + 2
      && z.credits[|s.credits|].stripe == z.credits[|s.credits| + 1].stripe == job.stripe
  {
    var spoiling := SpoilingSteps(id, failing, job, other);
    SpoiledRows(s.db, job, other);
    hide Run, PoolSteps, SpoilingSteps, Remaining, Startable, Quiet, Bought, NotBought;
    SpoiledAlone(g, s, id, failing, job, other);
    var t := Run(g, s, spoiling);
    NextMayStart(s, id, job, t, {id} + {failing}, t.db, t.credits, again, job.region, true);
    PoolAlone(g, t, again, job);
    RunTwice(g, s, spoiling, PoolSteps(again, job));
  }
}
