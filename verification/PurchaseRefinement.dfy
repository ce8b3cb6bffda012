/**
 * The endpoints as carried out in one go are the transition system's runs: what `PurchaseRequests` computes
 * for a purchase is where its events lead when nothing interleaves, whatever the proxy answers.
 */
module PurchaseRefinement {
  import opened Common
  import opened Purchases
  import opened PurchaseAlone
  import opened PurchaseGates
  import opened PurchaseRequests

  /** The events of one purchase. Those that a failure or the endpoint rules out are not enabled and do nothing. */
  function Script(id: Id, job: Job, luck: Luck): seq<Event> {
    Opening(id, job) + Calls(id, luck)
  }

  function Opening(id: Id, job: Job): seq<Event> {
    [Begin(id, job), Lock(id), ReadPurchase(id), StagePurchase(id), Record(id)]
  }

  function Calls(id: Id, luck: Luck): seq<Event> {
    [Inform(id, luck.informed), RaiseBudget(id, luck.raised), SyncKeys(id, luck.failed, luck.landed),
     Restore(id, luck.restored), Commit(id), CommitFailed(id)]
  }

  ghost predicate Finished(z: System, id: Id, o: Outcome) {
    && At(z, id) && z.requests[id].phase == Done(o.answer)
    && z.db == o.db && z.proxy == o.proxy && z.credits == o.credits
  }

  /** Nothing more happens to a request that is done. */
  lemma DoneStays(g: Ground, z: System, id: Id, e: Event)
    requires At(z, id) && z.requests[id].phase.Done? && OfRequest(e) && e.id == id
    ensures Step(g, z, e) == z
  {
  }

  lemma {:induction false} DoneStaysThrough(g: Ground, z: System, id: Id, events: seq<Event>)
    requires At(z, id) && z.requests[id].phase.Done? && forall e | e in events :: OfRequest(e) && e.id == id
    ensures Run(g, z, events) == z
    decreases |events|
  {
    hide Step;
    if events != [] {
      assert events[0] in events;
      DoneStays(g, z, id, events[0]);
      DoneStaysThrough(g, z, id, events[1..]);
    }
  }

  /** Events for another phase do nothing. */
  lemma NotYet(g: Ground, s: System, z: System, id: Id, job: Job, phase: Phase, retry: bool)
    requires job.Buy? && Inside(s, z, id, job, phase, retry)
    ensures phase.Failing? ==> Step(g, z, RaiseBudget(id, Works)) == z && Step(g, z, Commit(id)) == z
    ensures phase.Failing? ==> forall r :: Step(g, z, RaiseBudget(id, r)) == z
    ensures !phase.Budgeted? ==> forall f, l :: Step(g, z, SyncKeys(id, f, l)) == z
    ensures !phase.Failing? || !phase.owed ==> forall w :: Step(g, z, Restore(id, w)) == z
    ensures !phase.Paid? ==> Step(g, z, Commit(id)) == z
    ensures !job.pool && phase.Holding? ==> Step(g, z, ReadPurchase(id)) == z && Step(g, z, StagePurchase(id)) == z
  {
  }

  /** From a failure with nothing owed, only the failure's commit remains. */
  lemma FailingRuns(g: Ground, s: System, z: System, id: Id, job: Job, retry: bool, left: Option<Limit>)
    requires job.Buy? && Inside(s, z, id, job, Failing(false, left), retry)
    ensures Finished(Step(g, z, CommitFailed(id)), id, Outcome(NotBought(s.db, job), z.proxy, s.credits, ProxyFailed))
    ensures Step(g, z, Commit(id)) == z
  {
    hide Inside, Step, NotBought;
    NotYet(g, s, z, id, job, Failing(false, left), retry);
    FailedAlone(g, s, z, id, job, retry, left);
  }

  lemma PaidRuns(g: Ground, s: System, z: System, id: Id, job: Job, retry: bool, spend: nat, remaining: nat)
    requires job.Buy? && Inside(s, z, id, job, Paid(spend, remaining), retry)
    ensures
      var c := CreditFor(job, spend, remaining);
      var t := Step(g, Step(g, z, Commit(id)), CommitFailed(id));
      Finished(t, id, Outcome(Bought(s.db, job), z.proxy, s.credits + [c], Created))
  {
    hide Inside, Step, Bought;
    CommittedAlone(g, s, z, id, job, retry, spend, remaining);
    DoneStays(g, Step(g, z, Commit(id)), id, CommitFailed(id));
  }

  /** The proxy calls and the end of the transaction, from the rows just recorded. */
  lemma CallsRun(g: Ground, s: System, z: System, id: Id, job: Job, retry: bool, luck: Luck)
    requires job.Buy? && Inside(s, z, id, job, Recorded, retry) && z.proxy == s.proxy
    ensures Finished(Run(g, z, Calls(id, luck)), id, Paying(g, s.db, s.proxy, s.credits, job, luck))
  {
    hide Inside, Step, Finished, Bought, NotBought, Remaining, WithLimit, Target, KeysOf, Opened;
    var a := Step(g, z, Inform(id, luck.informed));
    var b := Step(g, a, RaiseBudget(id, luck.raised));
    var c := Step(g, b, SyncKeys(id, luck.failed, luck.landed));
    var d := Step(g, c, Restore(id, luck.restored));
    SixSteps(g, z, Inform(id, luck.informed), RaiseBudget(id, luck.raised), SyncKeys(id, luck.failed, luck.landed),
             Restore(id, luck.restored), Commit(id), CommitFailed(id));
    InformedAlone(g, s, z, id, job, retry, luck.informed);
    if !luck.informed {
      NotYet(g, s, a, id, job, Failing(false, None), retry);
      assert d == a;
      FailingRuns(g, s, d, id, job, retry, None);
    } else {
      var spend, remaining := SpendOf(s.proxy, job.team, job.region), Remaining(s.db, job);
      RaisedAlone(g, s, a, id, job, retry, spend, remaining, luck.raised);
      match luck.raised
      case Fails =>
        NotYet(g, s, b, id, job, Failing(false, None), retry);
        assert d == b;
        FailingRuns(g, s, d, id, job, retry, None);
      case Unheard =>
        NotYet(g, s, b, id, job, Failing(false, Some(Target(spend, remaining))), retry);
        assert d == b;
        FailingRuns(g, s, d, id, job, retry, Some(Target(spend, remaining)));
      case Works => RaisedRuns(g, s, b, id, job, retry, luck, spend, remaining);
    }
  }

  /** The budget is up; for a gated team the keys follow. */
  lemma RaisedRuns(g: Ground, s: System, b: System, id: Id, job: Job, retry: bool, luck: Luck, spend: nat, remaining: nat)
    requires job.Buy?
    requires Inside(s, b, id, job, if job.team in g.gated then Budgeted(spend, remaining) else Paid(spend, remaining), retry)
    ensures
      var d := Step(g, Step(g, b, SyncKeys(id, luck.failed, luck.landed)), Restore(id, luck.restored));
      var c := CreditFor(job, spend, remaining);
      var synced := AfterKeys(g, s.db, b.proxy, job, luck);
      Finished(Step(g, Step(g, d, Commit(id)), CommitFailed(id)), id,
               if job.team !in g.gated then Outcome(Bought(s.db, job), b.proxy, s.credits + [c], Created)
               else if KeysOf(g, job.team, job.region) * luck.failed == {} then
                 Outcome(Bought(s.db, job), synced, s.credits + [c], Created)
               else
                 Outcome(NotBought(s.db, job),
                         if luck.restored then WithLimit(synced, job.team, job.region, LimitOf(s.proxy, job.team, job.region))
                         else synced, s.credits, ProxyFailed))
  {
    hide Inside, Step, Finished, Bought, NotBought, WithLimit, KeysOf, Opened, LimitOf;
    var c := Step(g, b, SyncKeys(id, luck.failed, luck.landed));
    var d := Step(g, c, Restore(id, luck.restored));
    if job.team !in g.gated {
      NotYet(g, s, b, id, job, Paid(spend, remaining), retry);
      PaidRuns(g, s, b, id, job, retry, spend, remaining);
    } else {
      SyncedAlone(g, s, b, id, job, retry, spend, remaining, luck.failed, luck.landed);
      if KeysOf(g, job.team, job.region) * luck.failed == {} {
        NotYet(g, s, c, id, job, Paid(spend, remaining), retry);
        PaidRuns(g, s, c, id, job, retry, spend, remaining);
      } else {
        var left := Some(Target(spend, remaining));
        RestoredAlone(g, s, c, id, job, retry, left, luck.restored);
        FailingRuns(g, s, d, id, job, retry, if luck.restored then None else left);
      }
    }
  }

  ghost predicate Ready(s: System, id: Id, job: Job) {
    Quiet(s) && !At(s, id) && job.Buy?
  }

  lemma BeginRuns(g: Ground, s: System, id: Id, job: Job)
    requires Ready(s, id, job)
    ensures
      var z := Step(g, Step(g, s, Begin(id, job)), Lock(id));
      if job.amount == 0 || (job.pool && job.team !in g.gated) then Finished(z, id, Outcome(s.db, s.proxy, s.credits, Refused))
      else if Get(s.active, job.region) != Some(true) then Finished(z, id, Outcome(s.db, s.proxy, s.credits, NotFound))
      else Inside(s, z, id, job, Holding, false) && z.proxy == s.proxy
  {
  }

  lemma ReadRuns(g: Ground, s: System, z: System, id: Id, job: Job)
    requires Ready(s, id, job) && Inside(s, z, id, job, Holding, false) && z.proxy == s.proxy
    ensures
      var t := Step(g, Step(g, z, ReadPurchase(id)), StagePurchase(id));
      if job.pool && job.stripe in s.db.purchases && Get(s.db.payments, job.stripe) != Some(SyncFailed) then
        Finished(t, id, Outcome(s.db, s.proxy, s.credits, Duplicate))
      else
        && Inside(s, t, id, job, if job.pool then PurchaseStaged else Holding, job.pool && job.stripe in s.db.purchases)
        && t.proxy == s.proxy
  {
    if !job.pool {
      hide Inside, Step;
      NotYet(g, s, z, id, job, Holding, false);
    } else if job.stripe in s.db.purchases && Get(s.db.payments, job.stripe) != Some(SyncFailed) {
    } else {
      hide Inside, Step;
      StagedAlone(g, s, z, id, job);
    }
  }

  lemma RecordRuns(g: Ground, s: System, z: System, id: Id, job: Job, retry: bool)
    requires job.Buy? && z.proxy == s.proxy
    requires Inside(s, z, id, job, if job.pool then PurchaseStaged else Holding, retry)
    ensures
      var t := Step(g, z, Record(id));
      if !job.belongs then Finished(t, id, Outcome(s.db, s.proxy, s.credits, Refused))
      else if TopupKey(job) in s.db.topups && !retry then Finished(t, id, Outcome(s.db, s.proxy, s.credits, Duplicate))
      else Inside(s, t, id, job, Recorded, retry) && t.proxy == s.proxy
  {
    if job.belongs && (TopupKey(job) in s.db.topups ==> retry) {
      hide Inside, Step;
      RecordedAlone(g, s, z, id, job, retry);
    }
  }

  lemma OpeningRuns(g: Ground, s: System, id: Id, job: Job)
    requires Ready(s, id, job)
    ensures
      var z := Run(g, s, Opening(id, job));
      match TurnedAway(g, s.active, s.db, job)
      case Some(answer) => Finished(z, id, Outcome(s.db, s.proxy, s.credits, answer))
      case None => Inside(s, z, id, job, Recorded, job.pool && job.stripe in s.db.purchases) && z.proxy == s.proxy
  {
    hide Ready, Inside, Step;
    var a := Step(g, Step(g, s, Begin(id, job)), Lock(id));
    var b := Step(g, Step(g, a, ReadPurchase(id)), StagePurchase(id));
    TwoSteps(g, s, Begin(id, job), Lock(id), [ReadPurchase(id), StagePurchase(id), Record(id)]);
    TwoSteps(g, a, ReadPurchase(id), StagePurchase(id), [Record(id)]);
    Next(g, b, Record(id), []);
    assert [Begin(id, job), Lock(id)] + [ReadPurchase(id), StagePurchase(id), Record(id)] == Opening(id, job);
    assert [ReadPurchase(id), StagePurchase(id)] + [Record(id)] == [ReadPurchase(id), StagePurchase(id), Record(id)];
    assert [Record(id)] + [] == [Record(id)];
    IsBuy(s, id, job);
    BeginRuns(g, s, id, job);
    if job.amount == 0 || (job.pool && job.team !in g.gated) || Get(s.active, job.region) != Some(true) {
      DoneStays(g, a, id, ReadPurchase(id));
      DoneStays(g, a, id, StagePurchase(id));
      DoneStays(g, a, id, Record(id));
    } else {
      ReadRuns(g, s, a, id, job);
      if job.pool && job.stripe in s.db.purchases && Get(s.db.payments, job.stripe) != Some(SyncFailed) {
        DoneStays(g, b, id, Record(id));
      } else {
        RecordRuns(g, s, b, id, job, job.pool && job.stripe in s.db.purchases);
      }
    }
  }

  lemma IsBuy(s: System, id: Id, job: Job)
    requires Ready(s, id, job)
    ensures job.Buy?
  {
  }

  /**
   * For every request, every state of the tables and the proxies and every way the proxy's calls can end, the
   * events of the purchase, with nothing in between, end where the endpoint's code ends.
   */
  lemma EndpointIsRun(g: Ground, s: System, id: Id, job: Job, luck: Luck)
    requires Quiet(s) && !At(s, id) && job.Buy?
    ensures Finished(Run(g, s, Script(id, job, luck)), id, Purchased(g, s.active, s.db, s.proxy, s.credits, job, luck))
  {
    hide Quiet, Inside, Finished, Run, Paying, Opening;
    var z := Run(g, s, Opening(id, job));
    RunTwice(g, s, Opening(id, job), Calls(id, luck));
    OpeningRuns(g, s, id, job);
    match TurnedAway(g, s.active, s.db, job)
    case Some(answer) =>
      FinishedIsDone(z, id, Outcome(s.db, s.proxy, s.credits, answer));
      DoneStaysThrough(g, z, id, Calls(id, luck));
    case None =>
      CallsRun(g, s, z, id, job, job.pool && job.stripe in s.db.purchases, luck);
  }

  lemma FinishedIsDone(z: System, id: Id, o: Outcome)
    requires Finished(z, id, o)
    ensures At(z, id) && z.requests[id].phase.Done?
  {
  }

  /** A clear that has got this far, with the tables and answers as they were. */
  ghost predicate Clearing(s: System, z: System, id: Id, job: Job, phase: Phase) {
    && At(z, id) && z.requests[id].job == job && z.requests[id].phase == phase
    && z.db == s.db && z.credits == s.credits
  }

  lemma ClearBegins(g: Ground, s: System, id: Id, job: Job)
    requires Quiet(s) && !At(s, id) && job.ClearKey? && job.team in g.gated
    ensures
      var z := Step(g, Step(g, s, Begin(id, job)), Lock(id));
      if job.key !in KeysOf(g, job.team, job.region) then Finished(z, id, Outcome(s.db, s.proxy, s.credits, Refused))
      else if Get(s.active, job.region) != Some(true) then Finished(z, id, Outcome(s.db, s.proxy, s.credits, NotFound))
      else Clearing(s, z, id, job, Holding) && z.proxy == s.proxy
  {
    hide KeysOf;
  }

  lemma ClearDecides(g: Ground, s: System, z: System, id: Id, job: Job)
    requires job.ClearKey? && Clearing(s, z, id, job, Holding)
    ensures
      var t := Step(g, z, Decide(id));
      Clearing(s, t, id, job, Deciding(!EverPurchased(s.db, job.team, job.region))) && t.proxy == z.proxy
  {
    hide EverPurchased;
  }

  lemma ClearWrites(g: Ground, s: System, z: System, id: Id, job: Job, gate: bool, result: CallResult)
    requires job.ClearKey? && Clearing(s, z, id, job, Deciding(gate))
    ensures
      var t := Step(g, z, WriteKey(id, result));
      var written := if result == Fails then z.proxy
                     else z.proxy.(keys := z.proxy.keys[job.key := if gate then Gated else Inheriting]);
      if result == Works then Clearing(s, t, id, job, KeyWritten) && t.proxy == written
      else Finished(t, id, Outcome(s.db, written, s.credits, ProxyFailed))
  {
  }

  lemma ClearEnds(g: Ground, s: System, z: System, id: Id, job: Job, informed: bool)
    requires job.ClearKey? && Clearing(s, z, id, job, KeyWritten)
    ensures
      Finished(Step(g, z, CommitClear(id, informed)), id,
               if informed then Outcome(s.db.(caps := s.db.caps - {job.key}), z.proxy, s.credits, Cleared)
               else Outcome(s.db, z.proxy, s.credits, ProxyFailed))
  {
  }

  /** The same for clearing a key of a gated team. */
  lemma ClearIsRun(g: Ground, s: System, id: Id, team: Id, region: Id, key: Id, result: CallResult, informed: bool)
    requires Quiet(s) && !At(s, id) && team in g.gated
    ensures
      var events := [Begin(id, ClearKey(team, region, key)), Lock(id), Decide(id), WriteKey(id, result), CommitClear(id, informed)];
      Finished(Run(g, s, events), id,
               KeyCleared(g, s.active, s.db, s.proxy, s.credits, team, region, key, result, informed))
  {
    hide EverPurchased, KeysOf, Step, Clearing, Quiet;
    var job := ClearKey(team, region, key);
    var a := Step(g, Step(g, s, Begin(id, job)), Lock(id));
    var b := Step(g, a, Decide(id));
    var c := Step(g, b, WriteKey(id, result));
    TwoSteps(g, s, Begin(id, job), Lock(id), [Decide(id), WriteKey(id, result), CommitClear(id, informed)]);
    TwoSteps(g, a, Decide(id), WriteKey(id, result), [CommitClear(id, informed)]);
    Next(g, c, CommitClear(id, informed), []);
    assert [Begin(id, job), Lock(id)] + [Decide(id), WriteKey(id, result), CommitClear(id, informed)] ==
           [Begin(id, job), Lock(id), Decide(id), WriteKey(id, result), CommitClear(id, informed)];
    assert [Decide(id), WriteKey(id, result)] + [CommitClear(id, informed)] ==
           [Decide(id), WriteKey(id, result), CommitClear(id, informed)];
    assert [CommitClear(id, informed)] + [] == [CommitClear(id, informed)];
    hide Run;
    ClearBegins(g, s, id, job);
    if key !in KeysOf(g, team, region) || Get(s.active, region) != Some(true) {
      DoneStays(g, a, id, Decide(id));
      DoneStays(g, a, id, WriteKey(id, result));
      DoneStays(g, a, id, CommitClear(id, informed));
    } else {
      ClearDecides(g, s, a, id, job);
      ClearWrites(g, s, b, id, job, !EverPurchased(s.db, team, region), result);
      if result == Works {
        ClearEnds(g, s, c, id, job, informed);
      } else {
        DoneStays(g, c, id, CommitClear(id, informed));
      }
    }
  }
}
