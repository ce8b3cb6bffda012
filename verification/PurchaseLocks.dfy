/** The region lock: who holds it, and that a purchase only ever commits in an active region. */
module PurchaseLocks {
  import opened Common
  import opened Purchases

  /** A lock is held by a request in its transaction there, which saw its region active and keeps it so. */
  ghost predicate LocksHeld(s: System) {
    && (forall r | r in s.locks ::
         At(s, s.locks[r]) && InTransaction(s.requests[s.locks[r]]) && s.requests[s.locks[r]].job.region == r)
    && (forall i | i in s.requests && InTransaction(s.requests[i]) ::
         Get(s.locks, s.requests[i].job.region) == Some(i) && Get(s.active, s.requests[i].job.region) == Some(true))
  }

  /** So two requests in one region are never in their transactions together. */
  lemma OneAtATime(s: System, i: Id, j: Id)
    requires LocksHeld(s) && At(s, i) && At(s, j) && InTransaction(s.requests[i]) && InTransaction(s.requests[j])
    requires s.requests[i].job.region == s.requests[j].job.region
    ensures i == j
  {
  }

  lemma MovedKeepsLocks(s: System, id: Id)
    requires LocksHeld(s) && At(s, id) && InTransaction(s.requests[id])
    ensures forall proxy, q: Request | q.job == s.requests[id].job && InTransaction(q) :: LocksHeld(Moved(s, id, proxy, q))
  {
  }

  lemma EndedKeepsLocks(s: System, id: Id)
    requires LocksHeld(s) && At(s, id) && !s.requests[id].phase.Done?
    ensures forall db, proxy, credits, answer :: LocksHeld(Ended(s, id, db, proxy, credits, answer))
  {
  }

  lemma LockedKeepsLocks(s: System, id: Id)
    requires LocksHeld(s) && At(s, id)
    ensures LocksHeld(Locked(s, id))
  {
    if s.requests[id].phase.Waiting? {
      EndedKeepsLocks(s, id);
    }
  }

  lemma StagingKeepsLocks(g: Ground, s: System, e: Event)
    requires LocksHeld(s) && OfRequest(e) && At(s, e.id) && InTransaction(s.requests[e.id])
    requires e.ReadPurchase? || e.StagePurchase? || e.Record? || e.Inform?
    ensures LocksHeld(RequestStep(g, s, e))
  {
    hide LocksHeld, Moved, Ended, EverPurchased, Remaining, Opened, PurchaseBusy, PaymentBusy, Bought, NotBought;
    EndedKeepsLocks(s, e.id);
    MovedKeepsLocks(s, e.id);
  }

  lemma PayingKeepsLocks(g: Ground, s: System, e: Event)
    requires LocksHeld(s) && OfRequest(e) && At(s, e.id) && InTransaction(s.requests[e.id])
    requires e.RaiseBudget? || e.SyncKeys? || e.Commit? || e.Restore? || e.CommitFailed?
    ensures LocksHeld(RequestStep(g, s, e))
  {
    hide LocksHeld, Moved, Ended, EverPurchased, Remaining, Opened, PurchaseBusy, PaymentBusy, Bought, NotBought;
    EndedKeepsLocks(s, e.id);
    MovedKeepsLocks(s, e.id);
  }

  lemma ClearingKeepsLocks(g: Ground, s: System, e: Event)
    requires LocksHeld(s) && OfRequest(e) && At(s, e.id) && InTransaction(s.requests[e.id])
    requires e.Decide? || e.WriteKey? || e.CommitClear? || e.Crash?
    ensures LocksHeld(RequestStep(g, s, e))
  {
    hide LocksHeld, Moved, Ended, EverPurchased, Remaining, Opened, PurchaseBusy, PaymentBusy, Bought, NotBought;
    EndedKeepsLocks(s, e.id);
    MovedKeepsLocks(s, e.id);
  }

  lemma RequestKeepsLocks(g: Ground, s: System, e: Event)
    requires LocksHeld(s) && OfRequest(e) && At(s, e.id)
    ensures LocksHeld(RequestStep(g, s, e))
  {
    if e.Lock? {
      hide LocksHeld, Locked;
      LockedKeepsLocks(s, e.id);
    } else if InTransaction(s.requests[e.id]) {
      hide RequestStep, LocksHeld;
      if e.ReadPurchase? || e.StagePurchase? || e.Record? || e.Inform? {
        StagingKeepsLocks(g, s, e);
      } else if e.RaiseBudget? || e.SyncKeys? || e.Commit? || e.Restore? || e.CommitFailed? {
        PayingKeepsLocks(g, s, e);
      } else {
        ClearingKeepsLocks(g, s, e);
      }
    } else if s.requests[e.id].phase.Waiting? {
      hide LocksHeld, Ended;
      EndedKeepsLocks(s, e.id);
    }
  }

  lemma StepKeepsLocks(g: Ground, s: System, e: Event)
    requires LocksHeld(s)
    ensures LocksHeld(Step(g, s, e))
  {
    hide RequestStep, Spent, Consumed, Expired;
    if OfRequest(e) && At(s, e.id) {
      RequestKeepsLocks(g, s, e);
    }
  }

  lemma {:induction false} RunKeepsLocks(g: Ground, s: System, events: seq<Event>)
    requires LocksHeld(s)
    ensures LocksHeld(Run(g, s, events))
    decreases |events|
  {
    hide LocksHeld, Step;
    if events != [] {
      StepKeepsLocks(g, s, events[0]);
      RunKeepsLocks(g, Step(g, s, events[0]), events[1..]);
    }
  }

  /**
   * In every run, a purchase or payment row is only ever committed by a request whose region is active at
   * that moment: the region cannot be deactivated between the locked read and the commit.
   */
  lemma CommitsWhileActive(g: Ground, s: System, events: seq<Event>, e: Event)
    requires Idle(s)
    ensures
      var z := Run(g, s, events);
      var next := Step(g, z, e);
      next.db.purchases != z.db.purchases || next.db.payments != z.db.payments || |next.credits| != |z.credits| ==>
        && (e.Commit? || e.CommitFailed?) && At(z, e.id)
        && Get(z.active, z.requests[e.id].job.region) == Some(true)
        && Get(next.active, z.requests[e.id].job.region) == Some(true)
        && Get(z.locks, z.requests[e.id].job.region) == Some(e.id)
  {
    RunKeepsLocks(g, s, events);
    var z := Run(g, s, events);
    hide Run;
    OnlyCommitsWrite(g, z, e);
  }

  /** A request's step other than a commit leaves the tables but for the caps, the credits and the regions alone. */
  lemma OnlyCommitsStore(g: Ground, s: System, e: Event)
    requires OfRequest(e) && At(s, e.id) && !e.Commit? && !e.CommitFailed?
    ensures
      var t := RequestStep(g, s, e);
      t.db == s.db.(caps := t.db.caps) && t.credits == s.credits && t.active == s.active && t.proxy.spends == s.proxy.spends
  {
    hide PurchaseBusy, PaymentBusy, EverPurchased;
    if e.Inform? || e.RaiseBudget? || e.SyncKeys? || e.Restore? {
      hide RequestStep;
      CallsStoreNothing(g, s, e);
    }
  }

  lemma CallsStoreNothing(g: Ground, s: System, e: Event)
    requires OfRequest(e) && At(s, e.id) && (e.Inform? || e.RaiseBudget? || e.SyncKeys? || e.Restore?)
    ensures
      var t := RequestStep(g, s, e);
      t.db == s.db && t.credits == s.credits && t.active == s.active && t.proxy.spends == s.proxy.spends
  {
    hide Remaining, Opened, KeysOf, Target;
  }

  lemma OnlyCommitsWrite(g: Ground, s: System, e: Event)
    ensures
      var t := Step(g, s, e);
      t.db.purchases != s.db.purchases || t.db.payments != s.db.payments || t.credits != s.credits ==>
        && (e.Commit? || e.CommitFailed?) && At(s, e.id)
        && (if e.Commit? then s.requests[e.id].phase.Paid? else s.requests[e.id].phase.Failing?)
        && t.active == s.active
  {
    hide Bought, NotBought, Spent, KeysOf;
    if OfRequest(e) && At(s, e.id) && !e.Commit? && !e.CommitFailed? {
      hide RequestStep;
      OnlyCommitsStore(g, s, e);
    }
  }

  /** Deactivating a region waits for the purchase that holds it. */
  lemma DeactivationWaits(g: Ground, s: System, events: seq<Event>, id: Id)
    requires Idle(s) && At(Run(g, s, events), id) && InTransaction(Run(g, s, events).requests[id])
    ensures
      var z := Run(g, s, events);
      Step(g, z, SetActive(z.requests[id].job.region, false)) == z
  {
    RunKeepsLocks(g, s, events);
  }
}
