/**
 * The gate on keys. A gated team's keys are held at zero until its first purchase; clearing a key's budget
 * must not put a key back there once the team has bought. Both take the region's lock.
 */
module PurchaseGates {
  import opened Common
  import opened Purchases
  import opened PurchaseCredits
  import opened PurchaseLocks

  ghost predicate AllOpen(g: Ground, p: Proxies, team: Id, region: Id) {
    forall k | k in KeysOf(g, team, region) && k in p.keys :: p.keys[k] != Gated
  }

  /** No top-up and no pool purchase: what only a holder of the region's lock can change. */
  predicate Unbought(d: Tables, team: Id, region: Id) {
    !HasTopup(d, team, region) && !HasPurchase(d, team, region)
  }

  /** What a request in its transaction may rely on, because it holds the lock. */
  ghost predicate Consistent(g: Ground, s: System, q: Request) {
    && (q.job.ClearKey? && InTransaction(q) ==> q.job.key in KeysOf(g, q.job.team, q.job.region))
    && (q.phase.Paid? && q.job.team in g.gated ==> AllOpen(g, s.proxy, q.job.team, q.job.region))
    && (q.phase.Deciding? && q.phase.gate ==> Unbought(s.db, q.job.team, q.job.region))
  }

  /** Where the ledger has a top-up of a gated team, none of the team's keys there is gated. */
  ghost predicate FundedOpen(g: Ground, d: Tables, p: Proxies) {
    forall k | k in d.topups && k.0 in g.gated :: AllOpen(g, p, k.0, k.1)
  }

  ghost predicate GatesRight(g: Ground, s: System) {
    && LocksHeld(s)
    && FundedOpen(g, s.db, s.proxy)
    && (forall i | i in s.requests :: Waits(g, s.requests[i]) && Consistent(g, s, s.requests[i]))
  }

  ghost predicate Waits(g: Ground, q: Request) {
    q.job.ClearKey? && !q.phase.Done? ==> q.job.key in KeysOf(g, q.job.team, q.job.region)
  }

  /** A step that leaves tables and keys alone and does not enter a phase that claims something. */
  lemma QuietStep(g: Ground, s: System, t: System, id: Id)
    requires GatesRight(g, s) && LocksHeld(t) && At(s, id)
    requires t.requests.Keys == s.requests.Keys && forall i | i in s.requests && i != id :: t.requests[i] == s.requests[i]
    requires t.db.topups.Keys == s.db.topups.Keys && t.db.purchases == s.db.purchases && t.proxy.keys == s.proxy.keys
    requires t.requests[id].job == s.requests[id].job && Consistent(g, t, t.requests[id])
    requires t.requests[id].phase.Done? || !s.requests[id].phase.Done?
    ensures GatesRight(g, t)
  {
    forall i | i in t.requests
      ensures Waits(g, t.requests[i]) && Consistent(g, t, t.requests[i])
    {
      assert Waits(g, s.requests[i]) && Consistent(g, s, s.requests[i]);
    }
  }

  lemma RightOf(g: Ground, s: System, id: Id)
    requires GatesRight(g, s) && At(s, id)
    ensures Waits(g, s.requests[id]) && Consistent(g, s, s.requests[id])
  {
  }

  /** The steps before a commit other than the key calls. */
  lemma StagingStep(g: Ground, s: System, e: Event)
    requires e.ReadPurchase? || e.StagePurchase? || e.Record?
    requires GatesRight(g, s) && At(s, e.id) && LocksHeld(RequestStep(g, s, e))
    ensures GatesRight(g, RequestStep(g, s, e))
  {
    hide LocksHeld, FundedOpen, AllOpen, Unbought, PurchaseBusy, PaymentBusy, GatesRight, KeysOf, InTransaction;
    var t := RequestStep(g, s, e);
    RightOf(g, s, e.id);
    if t != s {
      QuietStep(g, s, t, e.id);
    }
  }

  lemma RemoteStep(g: Ground, s: System, e: Event)
    requires e.Inform? || e.RaiseBudget? || e.Restore?
    requires GatesRight(g, s) && At(s, e.id) && LocksHeld(RequestStep(g, s, e))
    ensures GatesRight(g, RequestStep(g, s, e))
  {
    hide LocksHeld, FundedOpen, AllOpen, Unbought, Remaining, GatesRight;
    var t := RequestStep(g, s, e);
    RightOf(g, s, e.id);
    if t != s {
      QuietStep(g, s, t, e.id);
    }
  }

  lemma ClearingStep(g: Ground, s: System, e: Event)
    requires e.Lock? || e.Decide? || e.CommitClear? || e.Crash?
    requires GatesRight(g, s) && At(s, e.id) && LocksHeld(RequestStep(g, s, e))
    ensures GatesRight(g, RequestStep(g, s, e))
  {
    hide LocksHeld, FundedOpen, AllOpen, HasTopup, HasPurchase, GatesRight, KeysOf;
    var t := RequestStep(g, s, e);
    RightOf(g, s, e.id);
    if t != s {
      QuietStep(g, s, t, e.id);
    }
  }

  /** Opening keys leaves open what was open. */
  lemma OpenedStaysOpen(g: Ground, p: Proxies, caps: map<Id, nat>, keys: set<Id>, team: Id, region: Id)
    requires AllOpen(g, p, team, region) || KeysOf(g, team, region) <= keys
    ensures AllOpen(g, p.(keys := p.keys + Opened(caps, keys)), team, region)
  {
  }

  lemma SyncStep(g: Ground, s: System, id: Id, failed: set<Id>, landed: set<Id>)
    requires GatesRight(g, s) && At(s, id) && LocksHeld(KeysSynced(g, s, id, failed, landed))
    ensures GatesRight(g, KeysSynced(g, s, id, failed, landed))
  {
    hide LocksHeld, AllOpen, Unbought, Opened, KeysOf;
    var q, t := s.requests[id], KeysSynced(g, s, id, failed, landed);
    if q.phase.Budgeted? {
      var keys := KeysOf(g, q.job.team, q.job.region);
      var written := (keys - failed) + (keys * landed);
      forall k | k in keys && keys * failed == {}
        ensures k in written
      {
        assert k !in keys * failed;
      }
      forall k | k in t.db.topups && k.0 in g.gated
        ensures AllOpen(g, t.proxy, k.0, k.1)
      {
        OpenedStaysOpen(g, s.proxy, s.db.caps, written, k.0, k.1);
      }
      forall i | i in t.requests
        ensures Waits(g, t.requests[i]) && Consistent(g, t, t.requests[i])
      {
        assert Waits(g, s.requests[i]) && Consistent(g, s, s.requests[i]);
        var job := s.requests[i].job;
        if AllOpen(g, s.proxy, job.team, job.region) || (i == id && keys * failed == {}) {
          OpenedStaysOpen(g, s.proxy, s.db.caps, written, job.team, job.region);
        }
      }
    }
  }

  /** A commit adds top-ups or purchases in the locked region alone. */
  lemma ElsewhereUnbought(s: System, d: Tables, job: Job, team: Id, region: Id)
    requires job.Buy? && region != job.region && Unbought(s.db, team, region)
    requires d == Bought(s.db, job) || d == NotBought(s.db, job)
    ensures Unbought(d, team, region)
  {
  }

  lemma CommitStep(g: Ground, s: System, id: Id, d: Tables, credits: seq<Credit>, answer: Answer)
    requires GatesRight(g, s) && At(s, id) && s.requests[id].job.Buy? && InTransaction(s.requests[id])
    requires LocksHeld(Ended(s, id, d, s.proxy, credits, answer))
    requires d == NotBought(s.db, s.requests[id].job) ||
             (d == Bought(s.db, s.requests[id].job) && s.requests[id].phase.Paid?)
    ensures GatesRight(g, Ended(s, id, d, s.proxy, credits, answer))
  {
    hide AllOpen, Unbought;
    var q, t := s.requests[id], Ended(s, id, d, s.proxy, credits, answer);
    assert Consistent(g, s, q);
    forall i | i in t.requests
      ensures Waits(g, t.requests[i]) && Consistent(g, t, t.requests[i])
    {
      var other := s.requests[i];
      assert Waits(g, other) && Consistent(g, s, other);
      if i != id && other.phase.Deciding? && other.phase.gate {
        if other.job.region == q.job.region {
          OneAtATime(s, i, id);
        }
        ElsewhereUnbought(s, d, q.job, other.job.team, other.job.region);
      }
    }
  }

  lemma KeyStep(g: Ground, s: System, id: Id, result: CallResult)
    requires KeysApart(g) && GatesRight(g, s) && At(s, id) && LocksHeld(KeyRewritten(s, id, result))
    ensures GatesRight(g, KeyRewritten(s, id, result))
  {
    var q, t := s.requests[id], KeyRewritten(s, id, result);
    assert Waits(g, q) && Consistent(g, s, q);
    if q.phase.Deciding? && q.job.ClearKey? {
      var team, region := q.job.team, q.job.region;
      forall x: Id, y: Id | (x, y) != (team, region) && AllOpen(g, s.proxy, x, y)
        ensures AllOpen(g, t.proxy, x, y)
      {
        OthersKeys(g, q.job.key, team, region, x, y);
      }
      assert !q.phase.gate && AllOpen(g, s.proxy, team, region) ==> AllOpen(g, t.proxy, team, region);
      hide AllOpen;
      assert FundedOpen(g, t.db, t.proxy);
      forall i | i in t.requests
        ensures Waits(g, t.requests[i]) && Consistent(g, t, t.requests[i])
      {
        assert Waits(g, s.requests[i]) && Consistent(g, s, s.requests[i]);
        if i != id && s.requests[i].phase.Paid? && s.requests[i].job.region == region {
          OneAtATime(s, i, id);
        }
      }
    }
  }

  lemma OthersKeys(g: Ground, key: Id, team: Id, region: Id, x: Id, y: Id)
    requires KeysApart(g) && key in KeysOf(g, team, region) && (x, y) != (team, region)
    ensures key !in KeysOf(g, x, y)
  {
  }

  lemma BeginStep(g: Ground, s: System, id: Id, job: Job)
    requires GatesRight(g, s) && LocksHeld(Begun(g, s, id, job))
    ensures GatesRight(g, Begun(g, s, id, job))
  {
    hide LocksHeld, AllOpen, Unbought;
  }

  lemma WorldStep(g: Ground, s: System, e: Event)
    requires !OfRequest(e) && !e.Begin?
    requires GatesRight(g, s) && LocksHeld(Step(g, s, e))
    ensures GatesRight(g, Step(g, s, e))
  {
    hide LocksHeld, GatesRight, Step;
    WorldLeavesGates(g, s, e);
    SameGates(g, s, Step(g, s, e));
  }

  lemma WorldLeavesGates(g: Ground, s: System, e: Event)
    requires !OfRequest(e) && !e.Begin?
    ensures
      var t := Step(g, s, e);
      && t.db.topups.Keys == s.db.topups.Keys && t.db.purchases == s.db.purchases
      && t.proxy.keys == s.proxy.keys && t.requests == s.requests
  {
    hide RequestStep, Begun;
  }

  lemma SameGates(g: Ground, s: System, t: System)
    requires GatesRight(g, s) && LocksHeld(t)
    requires t.db.topups.Keys == s.db.topups.Keys && t.db.purchases == s.db.purchases
    requires t.proxy.keys == s.proxy.keys && t.requests == s.requests
    ensures GatesRight(g, t)
  {
    hide LocksHeld, KeysOf;
    forall i | i in t.requests
      ensures Waits(g, t.requests[i]) && Consistent(g, t, t.requests[i])
    {
      assert Waits(g, s.requests[i]) && Consistent(g, s, s.requests[i]);
    }
  }

  lemma CommitEvents(g: Ground, s: System, id: Id)
    requires GatesRight(g, s) && At(s, id)
    requires LocksHeld(Committed(s, id)) && LocksHeld(FailureCommitted(s, id))
    ensures GatesRight(g, Committed(s, id)) && GatesRight(g, FailureCommitted(s, id))
  {
    hide GatesRight, LocksHeld, Ended, Bought, NotBought;
    var q := s.requests[id];
    if q.job.Buy? && q.phase.Paid? {
      var c := CreditFor(q.job, q.phase.spend, q.phase.remaining);
      CommitStep(g, s, id, Bought(s.db, q.job), s.credits + [c], Created);
    }
    if q.job.Buy? && q.phase.Failing? && !q.phase.owed {
      CommitStep(g, s, id, NotBought(s.db, q.job), s.credits, ProxyFailed);
    }
  }

  lemma StepKeepsGates(g: Ground, s: System, e: Event)
    requires KeysApart(g) && GatesRight(g, s)
    ensures GatesRight(g, Step(g, s, e))
  {
    StepKeepsLocks(g, s, e);
    hide GatesRight, LocksHeld, KeysApart, Locked, PurchaseRead, PurchaseWritten, RowsRecorded, TeamInformed, BudgetRaised,
      KeysSynced, Committed, FailureCommitted, Restored, Decided, KeyRewritten, ClearCommitted, Begun, Activated;
    if e.Begin? {
      BeginStep(g, s, e.id, e.job);
    } else if !OfRequest(e) {
      WorldStep(g, s, e);
    } else if At(s, e.id) {
      match e
      case SyncKeys(id, failed, landed) => SyncStep(g, s, id, failed, landed);
      case WriteKey(id, result) => KeyStep(g, s, id, result);
      case Commit(id) => CommitAlone(g, s, id);
      case CommitFailed(id) => CommitAlone(g, s, id);
      case Lock(_) => ClearingStep(g, s, e);
      case Decide(_) => ClearingStep(g, s, e);
      case CommitClear(_, _) => ClearingStep(g, s, e);
      case Crash(_) => ClearingStep(g, s, e);
      case ReadPurchase(_) => StagingStep(g, s, e);
      case StagePurchase(_) => StagingStep(g, s, e);
      case Record(_) => StagingStep(g, s, e);
      case _ => RemoteStep(g, s, e);
    }
  }

  lemma LocksOf(g: Ground, s: System)
    requires GatesRight(g, s)
    ensures LocksHeld(s)
  {
  }

  lemma CommitAlone(g: Ground, s: System, id: Id)
    requires GatesRight(g, s) && At(s, id)
    ensures GatesRight(g, Committed(s, id)) && GatesRight(g, FailureCommitted(s, id))
  {
    hide GatesRight, LocksHeld, Committed, FailureCommitted;
    LocksOf(g, s);
    RequestKeepsLocks(g, s, Commit(id));
    RequestKeepsLocks(g, s, CommitFailed(id));
    CommitEvents(g, s, id);
  }

  lemma {:induction false} RunKeepsGates(g: Ground, s: System, events: seq<Event>)
    requires KeysApart(g) && GatesRight(g, s)
    ensures GatesRight(g, Run(g, s, events))
    decreases |events|
  {
    hide GatesRight, KeysApart, Step;
    if events != [] {
      StepKeepsGates(g, s, events[0]);
      RunKeepsGates(g, Step(g, s, events[0]), events[1..]);
    }
  }

  /**
   * In every run, of purchases through either endpoint and of clears, no key of a gated team is held at
   * zero in a region where the ledger has a top-up of that team.
   */
  lemma FundedTeamsStayOpen(g: Ground, s: System, events: seq<Event>, k: (Id, Id, Stripe))
    requires KeysApart(g) && Idle(s) && k in Run(g, s, events).db.topups && k.0 in g.gated
    ensures AllOpen(g, Run(g, s, events).proxy, k.0, k.1)
  {
    RunKeepsGates(g, s, events);
  }

  lemma {:induction false} CreditsStay(g: Ground, s: System, events: seq<Event>, c: Credit)
    requires c in s.credits
    ensures c in Run(g, s, events).credits
    decreases |events|
  {
    hide Step;
    if events != [] {
      OneStepKeepsCredits(g, s, events[0]);
      CreditsStay(g, Step(g, s, events[0]), events[1..], c);
    }
  }

  lemma OneStepKeepsCredits(g: Ground, s: System, e: Event)
    ensures forall c | c in s.credits :: c in Step(g, s, e).credits
  {
    hide EverPurchased, Remaining, Opened, PurchaseBusy, PaymentBusy, Bought, NotBought;
  }

  /**
   * Once a purchase of a gated team has been answered with success, through either endpoint, none of the
   * team's keys in that region is ever held at zero again, whatever purchases and clears follow, provided
   * that the requests with this one payment keep to one endpoint.
   */
  lemma SuccessOpensForGood(g: Ground, s: System, events: seq<Event>, later: seq<Event>, c: Credit)
    requires KeysApart(g) && Idle(s) && c in Run(g, s, events).credits && c.team in g.gated
    requires OneEndpoint(events + later, c.stripe)
    ensures AllOpen(g, Run(g, s, events + later).proxy, c.team, c.region)
  {
    hide Run, Idle, AllOpen, AllThrough, KeysApart, OncePerPayment, OncePerRegion;
    RunTwice(g, s, events, later);
    CreditsStay(g, Run(g, s, events), later, c);
    var z := Run(g, s, events + later);
    assert CreditKey(c) in z.db.topups by {
      if AllThrough(events + later, c.stripe, true) {
        PoolPaymentOnce(g, s, events + later, c.stripe);
        OnceIsEntered(z, c);
      } else {
        PeriodicPaymentOnce(g, s, events + later, c.stripe);
        OnceIsEntered(z, c);
      }
    }
    FundedTeamsStayOpen(g, s, events + later, CreditKey(c));
  }

  lemma OnceIsEntered(z: System, c: Credit)
    requires c in z.credits && (OncePerPayment(z, c.stripe) || OncePerRegion(z, c.stripe))
    ensures CreditKey(c) in z.db.topups
  {
  }

  /** At this point of the run the request decided to gate its key: its team had no ledger entry of any kind there. */
  ghost predicate GatedAt(g: Ground, s: System, events: seq<Event>, id: Id, job: Job, n: nat) {
    && n < |events| && events[n] == Decide(id)
    && job.ClearKey? && !EverPurchased(Run(g, s, events[..n]).db, job.team, job.region)
  }

  /** No other step decides. */
  lemma OthersDecideNothing(g: Ground, s: System, e: Event, id: Id)
    requires OfRequest(e) && !e.Decide?
    requires At(s, e.id) && At(RequestStep(g, s, e), id) && RequestStep(g, s, e).requests[id].phase == Deciding(true)
    ensures At(s, id) && RequestStep(g, s, e).requests[id] == s.requests[id]
  {
    hide Remaining, Opened, Bought, NotBought, KeysOf, WithLimit, Target, PurchaseBusy, PaymentBusy;
  }

  lemma DecidingStarts(g: Ground, s: System, e: Event, id: Id)
    requires At(Step(g, s, e), id) && Step(g, s, e).requests[id].phase == Deciding(true)
    ensures At(s, id) && Step(g, s, e).requests[id].job == s.requests[id].job
    ensures
      || s.requests[id].phase == Deciding(true)
      || (&& e == Decide(id) && s.requests[id].job.ClearKey?
          && !EverPurchased(s.db, s.requests[id].job.team, s.requests[id].job.region))
  {
    hide EverPurchased, KeysOf, Expired, Consumed, Spent;
    if OfRequest(e) && At(s, e.id) && !e.Decide? {
      hide RequestStep;
      OthersDecideNothing(g, s, e, id);
    }
  }

  lemma {:induction false} GateWasDecided(g: Ground, s: System, events: seq<Event>, id: Id, m: nat)
    requires s.requests == map[] && m <= |events|
    requires At(Run(g, s, events[..m]), id) && Run(g, s, events[..m]).requests[id].phase == Deciding(true)
    ensures exists n: nat | n < m :: GatedAt(g, s, events, id, Run(g, s, events[..m]).requests[id].job, n)
  {
    hide Step, EverPurchased;
    assert events[..0] == [];
    if m > 0 {
      RunLast(g, s, events, m - 1);
      var before := Run(g, s, events[..m - 1]);
      DecidingStarts(g, before, events[m - 1], id);
      if before.requests[id].phase == Deciding(true) {
        GateWasDecided(g, s, events, id, m - 1);
      } else {
        assert GatedAt(g, s, events, id, before.requests[id].job, m - 1);
      }
    }
  }

  /**
   * In every run, a step that puts a key at zero is a clear of that key, made while its team has no top-up
   * and no pool purchase in the region; and when the clear looked there was no ledger entry of any kind.
   */
  lemma OnlyUnboughtKeysAreGated(g: Ground, s: System, events: seq<Event>, e: Event, key: Id)
    requires KeysApart(g) && Idle(s)
    requires Get(Step(g, Run(g, s, events), e).proxy.keys, key) == Some(Gated)
    ensures
      var z := Run(g, s, events);
      Get(z.proxy.keys, key) == Some(Gated) ||
      (&& e.WriteKey? && At(z, e.id) && z.requests[e.id].job.ClearKey? && z.requests[e.id].job.key == key
       && Unbought(z.db, z.requests[e.id].job.team, z.requests[e.id].job.region)
       && exists n: nat | n < |events| :: GatedAt(g, s, events, e.id, z.requests[e.id].job, n))
  {
    RunKeepsGates(g, s, events);
    var z := Run(g, s, events);
    assert events[..|events|] == events;
    if e.WriteKey? && At(z, e.id) {
      if z.requests[e.id].phase == Deciding(true) {
        GateWasDecided(g, s, events, e.id, |events|);
      }
    }
    hide Run, Idle, KeysApart, GatedAt, EverPurchased;
    if e.WriteKey? && At(z, e.id) {
      RightOf(g, z, e.id);
    }
    hide GatesRight, Unbought, Consistent, Waits;
    KeyWrites(g, z, e, key);
  }

  /** What a step can do to a key's state. */
  lemma KeyWrites(g: Ground, s: System, e: Event, key: Id)
    ensures
      var t := Step(g, s, e);
      Get(t.proxy.keys, key) != Some(Gated) || Get(t.proxy.keys, key) == Get(s.proxy.keys, key) ||
      (&& e.WriteKey? && At(s, e.id) && s.requests[e.id].job.ClearKey? && s.requests[e.id].job.key == key
       && s.requests[e.id].phase == Deciding(true))
  {
    hide Bought, NotBought, KeysOf;
    if OfRequest(e) && At(s, e.id) && !e.WriteKey? && !e.SyncKeys? {
      hide RequestStep;
      OthersWriteNoKey(g, s, e);
    }
  }

  lemma OthersWriteNoKey(g: Ground, s: System, e: Event)
    requires OfRequest(e) && At(s, e.id) && !e.WriteKey? && !e.SyncKeys?
    ensures RequestStep(g, s, e).proxy.keys == s.proxy.keys
  {
    hide EverPurchased, Remaining, PurchaseBusy, PaymentBusy, Bought, NotBought, Target;
  }
}
