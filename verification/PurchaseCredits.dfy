/**
 * Which purchases are credited, payment by payment, in every run: any number of requests through both
 * endpoints in flight, remote failures, crashes before a commit, retries. Everything here is about one
 * payment and the requests that carry it, whatever the other payments' requests do.
 */
module PurchaseCredits {
  import opened Common
  import opened Purchases
  import opened PurchaseLocks

  function CreditKey(c: Credit): (Id, Id, Stripe) {
    (c.team, c.region, c.stripe)
  }

  /** A request for this payment, through the pool endpoint or through the periodic one. */
  predicate Carries(q: Request, x: Stripe, pool: bool) {
    q.job.Buy? && q.job.stripe == x && q.job.pool == pool
  }

  ghost predicate Seen(s: System, x: Stripe, pool: bool) {
    exists i | i in s.requests :: Carries(s.requests[i], x, pool)
  }

  /** A periodic attempt with the credit's payment, for another team or region, that the proxy failed. */
  predicate FailedElsewhere(q: Request, c: Credit) {
    Carries(q, c.stripe, false) && (q.job.team, q.job.region) != (c.team, c.region) && q.phase == Done(ProxyFailed)
  }

  ghost predicate Spoiled(s: System, c: Credit) {
    exists i | i in s.requests :: FailedElsewhere(s.requests[i], c)
  }

  /** Payment, purchase and ledger all say that this credit was given. */
  predicate Stands(d: Tables, c: Credit) {
    && Get(d.payments, c.stripe) == Some(Success)
    && CreditKey(c) in d.topups && d.topups[CreditKey(c)].amount == c.amount
    && c.stripe in d.purchases
    && d.purchases[c.stripe].(row := 0) == Purchase(0, c.team, c.region, c.amount)
  }

  /** The ledger entry of a credit, with its amount. */
  predicate Entered(d: Tables, c: Credit) {
    CreditKey(c) in d.topups && d.topups[CreditKey(c)].amount == c.amount
  }

  ghost predicate AllSpoiled(s: System, x: Stripe) {
    forall c | c in s.credits && c.stripe == x && c.pool :: Spoiled(s, c)
  }

  // ------------------------------------------------------------ the invariant, for one payment

  ghost predicate RowsSound(s: System, x: Stripe) {
    && (x in s.db.purchases ==> x in s.db.payments)
    && (x in s.db.payments && !Seen(s, x, false) ==> x in s.db.purchases)
    && (Get(s.db.payments, x) == Some(Success) ==> exists c | c in s.credits :: c.stripe == x)
    && (forall k | k in s.db.topups && k.2 == x :: exists c | c in s.credits :: CreditKey(c) == k && Entered(s.db, c))
  }

  ghost predicate CreditsSound(s: System, x: Stripe) {
    forall c | c in s.credits && c.stripe == x ::
      && Seen(s, x, c.pool)
      && (c.pool ==> Spoiled(s, c) || Stands(s.db, c))
      && (Seen(s, x, true) || Entered(s.db, c))
  }

  /** A second pool credit needs a spoiled first; a second credit in one ledger place needs a pool request. */
  ghost predicate OnceSound(s: System, x: Stripe) {
    forall i, j | 0 <= i < j < |s.credits| && s.credits[i].stripe == x && s.credits[j].stripe == x ::
      && (s.credits[i].pool && s.credits[j].pool ==> Spoiled(s, s.credits[i]))
      && (CreditKey(s.credits[i]) == CreditKey(s.credits[j]) ==> Seen(s, x, true))
  }

  /** What a request knows still holds, or it will find out when it writes its purchase row. */
  ghost predicate Fits(s: System, q: Request, x: Stripe) {
    q.job.Buy? && q.job.stripe == x ==>
      && (!q.job.pool ==> !q.retry && !q.phase.Found? && !q.phase.PurchaseStaged?)
      && (q.phase.Found? ==>
           && (q.retry <==> q.phase.row.Some?)
           && (q.retry ==> x in s.db.purchases && q.phase.row.value <= s.db.purchases[x].row)
           && (q.phase.row == RowOf(s.db, x) ==> AllSpoiled(s, x)))
      && (HasStagedPurchase(q) ==> AllSpoiled(s, x))
      && (HasStagedPayment(q) && !q.retry ==> TopupKey(q.job) !in s.db.topups)
  }

  /** No two requests have staged a purchase row for the payment. */
  ghost predicate StagedApart(s: System, x: Stripe) {
    forall i, j | i in s.requests && j in s.requests && i != j
      && HasStagedPurchase(s.requests[i]) && HasStagedPurchase(s.requests[j]) && s.requests[i].job.stripe == x ::
      s.requests[j].job.stripe != x
  }

  ghost predicate Sound(s: System, x: Stripe) {
    && LocksHeld(s)
    && RowsSound(s, x) && CreditsSound(s, x) && OnceSound(s, x)
    && (forall i | i in s.requests :: Fits(s, s.requests[i], x))
    && StagedApart(s, x)
  }

  // ------------------------------------------------------------ steps that leave the payment's rows alone

  /** The payment's rows, and the credits given for it, are the same. */
  ghost predicate SameRows(s: System, t: System, x: Stripe) {
    && Get(t.db.purchases, x) == Get(s.db.purchases, x)
    && Get(t.db.payments, x) == Get(s.db.payments, x)
    && (forall k: (Id, Id, Stripe) | k.2 == x :: k in t.db.topups <==> k in s.db.topups)
    && (forall k | k in s.db.topups && k.2 == x :: t.db.topups[k].amount == s.db.topups[k].amount)
    && (t.credits == s.credits || exists c: Credit :: c.stripe != x && t.credits == s.credits + [c])
  }

  /** Requests keep their jobs, none is lost, and what is done stays done. */
  ghost predicate Later(s: System, t: System) {
    forall i | i in s.requests ::
      && i in t.requests && t.requests[i].job == s.requests[i].job
      && (s.requests[i].phase.Done? ==> t.requests[i] == s.requests[i])
  }

  lemma LaterSees(s: System, t: System, x: Stripe)
    requires Later(s, t)
    ensures forall pool | Seen(s, x, pool) :: Seen(t, x, pool)
    ensures forall c | Spoiled(s, c) :: Spoiled(t, c)
  {
    forall pool | Seen(s, x, pool)
      ensures Seen(t, x, pool)
    {
      var i :| i in s.requests && Carries(s.requests[i], x, pool);
      assert Carries(t.requests[i], x, pool);
    }
    forall c | Spoiled(s, c)
      ensures Spoiled(t, c)
    {
      var i :| i in s.requests && FailedElsewhere(s.requests[i], c);
      assert FailedElsewhere(t.requests[i], c);
    }
  }

  lemma CreditsOf(s: System, t: System, x: Stripe)
    requires SameRows(s, t, x)
    ensures forall c: Credit | c.stripe == x :: c in t.credits <==> c in s.credits
    ensures |s.credits| <= |t.credits|
    ensures forall i | 0 <= i < |s.credits| :: t.credits[i] == s.credits[i]
    ensures forall i | |s.credits| <= i < |t.credits| :: t.credits[i].stripe != x
  {
  }

  lemma RowsKept(s: System, t: System, x: Stripe)
    requires RowsSound(s, x) && SameRows(s, t, x) && Later(s, t)
    ensures RowsSound(t, x)
  {
    LaterSees(s, t, x);
    CreditsOf(s, t, x);
    forall k | k in t.db.topups && k.2 == x
      ensures exists c | c in t.credits :: CreditKey(c) == k && Entered(t.db, c)
    {
      var c :| c in s.credits && CreditKey(c) == k && Entered(s.db, c);
      assert c in t.credits;
    }
    hide SameRows, Seen, Later;
  }

  lemma CreditsKept(s: System, t: System, x: Stripe)
    requires CreditsSound(s, x) && SameRows(s, t, x) && Later(s, t)
    ensures CreditsSound(t, x) && (AllSpoiled(s, x) ==> AllSpoiled(t, x))
  {
    LaterSees(s, t, x);
    CreditsOf(s, t, x);
    hide Seen, Spoiled, Later;
    forall c: Credit | c.stripe == x
      ensures Entered(s.db, c) ==> Entered(t.db, c)
      ensures Stands(s.db, c) ==> Stands(t.db, c)
    {
      assert CreditKey(c).2 == x;
    }
  }

  lemma OnceKept(s: System, t: System, x: Stripe)
    requires OnceSound(s, x) && SameRows(s, t, x) && Later(s, t)
    ensures OnceSound(t, x)
  {
    LaterSees(s, t, x);
    CreditsOf(s, t, x);
    hide Seen, Spoiled, Later, SameRows;
  }

  lemma FitsKept(s: System, t: System, q: Request, x: Stripe)
    requires Fits(s, q, x) && SameRows(s, t, x) && CreditsSound(s, x) && Later(s, t)
    ensures Fits(t, q, x)
  {
    CreditsKept(s, t, x);
    hide AllSpoiled, CreditsSound, Later;
  }

  /** One request has moved on, and the payment's rows are as they were. */
  lemma QuietStep(s: System, t: System, id: Id, x: Stripe)
    requires Sound(s, x) && LocksHeld(t) && SameRows(s, t, x) && Later(s, t) && At(t, id)
    requires forall i | i in t.requests && i != id :: i in s.requests && t.requests[i] == s.requests[i]
    requires Fits(t, t.requests[id], x) && StagedApart(t, x)
    ensures Sound(t, x)
  {
    RowsKept(s, t, x);
    CreditsKept(s, t, x);
    OnceKept(s, t, x);
    hide LocksHeld, RowsSound, CreditsSound, OnceSound, SameRows, Later, Fits, StagedApart;
    forall i | i in t.requests
      ensures Fits(t, t.requests[i], x)
    {
      if i != id {
        FitsKept(s, t, s.requests[i], x);
      }
    }
  }

  /** Nothing new is staged, so the stagings are still apart. */
  lemma StillApart(s: System, t: System, id: Id, x: Stripe)
    requires StagedApart(s, x) && At(s, id) && At(t, id) && t.requests.Keys == s.requests.Keys
    requires forall i | i in s.requests && i != id :: t.requests[i] == s.requests[i]
    requires t.requests[id].job == s.requests[id].job
    requires HasStagedPurchase(t.requests[id]) && t.requests[id].job.stripe == x ==>
      HasStagedPurchase(s.requests[id]) || !PurchaseBusy(s, id, x, t.requests[id].retry)
    ensures StagedApart(t, x)
  {
  }

  lemma SoundParts(s: System, id: Id, x: Stripe)
    requires Sound(s, x) && At(s, id)
    ensures LocksHeld(s) && Fits(s, s.requests[id], x) && StagedApart(s, x)
  {
  }

  lemma MovedKeepsSound(s: System, id: Id, proxy: Proxies, q: Request, x: Stripe)
    requires Sound(s, x) && At(s, id) && q.job == s.requests[id].job
    requires InTransaction(s.requests[id]) && InTransaction(q) && Fits(s, q, x)
    requires HasStagedPurchase(q) && q.job.stripe == x ==>
      HasStagedPurchase(s.requests[id]) || !PurchaseBusy(s, id, x, q.retry)
    ensures Sound(Moved(s, id, proxy, q), x)
  {
    hide Fits, RowsSound, CreditsSound, OnceSound, StagedApart, LocksHeld, PurchaseBusy;
    var t := Moved(s, id, proxy, q);
    MovedKeepsLocks(s, id);
    StillApart(s, t, id, x);
    FitsKept(s, t, q, x);
    QuietStep(s, t, id, x);
  }

  /** Ending a request with the payment's rows as they were. */
  lemma EndedKeepsSound(s: System, id: Id, db: Tables, proxy: Proxies, credits: seq<Credit>, answer: Answer, x: Stripe)
    requires Sound(s, x) && At(s, id) && !s.requests[id].phase.Done?
    requires SameRows(s, Ended(s, id, db, proxy, credits, answer), x)
    ensures Sound(Ended(s, id, db, proxy, credits, answer), x)
  {
    hide RowsSound, CreditsSound, OnceSound, StagedApart, LocksHeld, PurchaseBusy, SameRows, AllSpoiled;
    var t := Ended(s, id, db, proxy, credits, answer);
    EndedKeepsLocks(s, id);
    StillApart(s, t, id, x);
    QuietStep(s, t, id, x);
  }

  lemma DroppedKeepsSound(s: System, id: Id, answer: Answer, x: Stripe)
    requires Sound(s, x) && At(s, id) && !s.requests[id].phase.Done?
    ensures Sound(Dropped(s, id, answer), x)
  {
    hide Sound;
    EndedKeepsSound(s, id, s.db, s.proxy, s.credits, answer, x);
  }

  // ------------------------------------------------------------ commits

  /** The commit of another payment's request. */
  lemma OtherCommit(s: System, id: Id, x: Stripe, credit: Credit)
    requires Sound(s, x) && At(s, id) && InTransaction(s.requests[id])
    requires s.requests[id].job.Buy? && s.requests[id].job.stripe != x && credit.stripe != x
    ensures Sound(Ended(s, id, Bought(s.db, s.requests[id].job), s.proxy, s.credits + [credit], Created), x)
    ensures Sound(Ended(s, id, NotBought(s.db, s.requests[id].job), s.proxy, s.credits, ProxyFailed), x)
  {
    hide Sound;
    EndedKeepsSound(s, id, Bought(s.db, s.requests[id].job), s.proxy, s.credits + [credit], Created, x);
    EndedKeepsSound(s, id, NotBought(s.db, s.requests[id].job), s.proxy, s.credits, ProxyFailed, x);
  }

  ghost predicate MayCommit(s: System, id: Id, x: Stripe) {
    && Sound(s, x) && At(s, id) && HasStagedPayment(s.requests[id])
    && s.requests[id].job.stripe == x && (!s.requests[id].job.pool ==> !s.requests[id].retry)
  }

  ghost function AfterBuying(s: System, id: Id, c: Credit): System
    requires At(s, id) && s.requests[id].job.Buy?
  {
    Ended(s, id, Bought(s.db, s.requests[id].job), s.proxy, s.credits + [c], Created)
  }

  ghost function AfterFailing(s: System, id: Id): System
    requires At(s, id) && s.requests[id].job.Buy?
  {
    Ended(s, id, NotBought(s.db, s.requests[id].job), s.proxy, s.credits, ProxyFailed)
  }

  lemma EndsLater(s: System, id: Id, db: Tables, proxy: Proxies, credits: seq<Credit>, answer: Answer)
    requires At(s, id) && !s.requests[id].phase.Done?
    ensures Later(s, Ended(s, id, db, proxy, credits, answer))
  {
  }

  /** The new entry's place was free, unless the request replaces a failed attempt. */
  lemma PlaceWasFree(s: System, id: Id, x: Stripe, c: Credit)
    requires MayCommit(s, id, x) && !s.requests[id].job.pool && c in s.credits && Entered(s.db, c)
    ensures CreditKey(c) != TopupKey(s.requests[id].job)
  {
    SoundParts(s, id, x);
  }

  lemma BoughtRows(s: System, id: Id, x: Stripe, c: Credit)
    requires MayCommit(s, id, x) && c.stripe == x
    requires CreditKey(c) == TopupKey(s.requests[id].job) && c.amount == s.requests[id].job.amount
    ensures RowsSound(AfterBuying(s, id, c), x)
  {
    var q, t := s.requests[id], AfterBuying(s, id, c);
    EndsLater(s, id, t.db, t.proxy, t.credits, Created);
    LaterSees(s, t, x);
    assert c in t.credits && Entered(t.db, c);
    assert Carries(t.requests[id], x, q.job.pool);
    forall k | k in t.db.topups && k.2 == x
      ensures exists b | b in t.credits :: CreditKey(b) == k && Entered(t.db, b)
    {
      if k != CreditKey(c) {
        var b :| b in s.credits && CreditKey(b) == k && Entered(s.db, b);
        assert b in t.credits && Entered(t.db, b);
      }
    }
  }

  lemma BoughtCredits(s: System, id: Id, x: Stripe, c: Credit)
    requires MayCommit(s, id, x) && c.stripe == x && c.pool == s.requests[id].job.pool
    requires CreditKey(c) == TopupKey(s.requests[id].job) && c.amount == s.requests[id].job.amount
    ensures CreditsSound(AfterBuying(s, id, c), x)
    ensures c.pool || (AllSpoiled(s, x) ==> AllSpoiled(AfterBuying(s, id, c), x))
  {
    var q, t := s.requests[id], AfterBuying(s, id, c);
    SoundParts(s, id, x);
    EndsLater(s, id, t.db, t.proxy, t.credits, Created);
    LaterSees(s, t, x);
    assert Carries(t.requests[id], x, q.job.pool);
    forall b | b in s.credits && b.stripe == x && !q.job.pool && Entered(s.db, b)
      ensures Entered(t.db, b)
    {
      PlaceWasFree(s, id, x, b);
    }
    hide LocksHeld, RowsSound, OnceSound, Later, Seen, Spoiled, StagedApart;
  }

  lemma BoughtOnce(s: System, id: Id, x: Stripe, c: Credit)
    requires MayCommit(s, id, x) && c.stripe == x && c.pool == s.requests[id].job.pool
    requires CreditKey(c) == TopupKey(s.requests[id].job)
    ensures OnceSound(AfterBuying(s, id, c), x)
  {
    var q, t := s.requests[id], AfterBuying(s, id, c);
    SoundParts(s, id, x);
    EndsLater(s, id, t.db, t.proxy, t.credits, Created);
    LaterSees(s, t, x);
    assert Carries(t.requests[id], x, q.job.pool);
    forall i | 0 <= i < |s.credits| && s.credits[i].stripe == x
      ensures c.pool && s.credits[i].pool ==> Spoiled(t, s.credits[i])
      ensures CreditKey(s.credits[i]) == CreditKey(c) ==> Seen(t, x, true)
    {
      assert s.credits[i] in s.credits;
      if !q.job.pool && Entered(s.db, s.credits[i]) {
        PlaceWasFree(s, id, x, s.credits[i]);
      }
    }
    hide LocksHeld, RowsSound, CreditsSound, Later, Seen, Spoiled, StagedApart, Fits;
  }

  /** The requests that are left fit the rows after either commit. */
  lemma OthersFit(s: System, t: System, id: Id, other: Id, x: Stripe)
    requires MayCommit(s, id, x) && At(s, other) && other != id && Later(s, t)
    requires t.db.purchases == NewPurchases(s.db, s.requests[id].job)
    requires forall k | k in t.db.topups :: k in s.db.topups || k == TopupKey(s.requests[id].job)
    requires s.requests[id].job.pool || (AllSpoiled(s, x) ==> AllSpoiled(t, x))
    ensures Fits(t, s.requests[other], x)
  {
    var q := s.requests[other];
    SoundParts(s, other, x);
    SoundParts(s, id, x);
    if q.job.Buy? && HasStagedPayment(q) && q.job.region == s.requests[id].job.region {
      OneAtATime(s, id, other);
    }
    hide LocksHeld, RowsSound, CreditsSound, OnceSound, Later, AllSpoiled, Sound;
  }

  lemma EndedStaysApart(s: System, id: Id, db: Tables, proxy: Proxies, credits: seq<Credit>, answer: Answer, x: Stripe)
    requires StagedApart(s, x) && At(s, id)
    ensures StagedApart(Ended(s, id, db, proxy, credits, answer), x)
  {
  }

  lemma BoughtHere(s: System, id: Id, x: Stripe, c: Credit)
    requires MayCommit(s, id, x) && c.stripe == x && c.pool == s.requests[id].job.pool
    requires CreditKey(c) == TopupKey(s.requests[id].job) && c.amount == s.requests[id].job.amount
    ensures Sound(AfterBuying(s, id, c), x)
  {
    hide LocksHeld, RowsSound, CreditsSound, OnceSound, Later, StagedApart, AllSpoiled;
    var t := AfterBuying(s, id, c);
    SoundParts(s, id, x);
    EndedKeepsLocks(s, id);
    BoughtRows(s, id, x, c);
    BoughtCredits(s, id, x, c);
    BoughtOnce(s, id, x, c);
    EndsLater(s, id, t.db, t.proxy, t.credits, Created);
    EndedStaysApart(s, id, t.db, t.proxy, t.credits, Created, x);
    hide MayCommit;
    forall i | i in t.requests
      ensures Fits(t, t.requests[i], x)
    {
      if i != id {
        OthersFit(s, t, id, i, x);
      }
    }
  }

  lemma FailedRows(s: System, id: Id, x: Stripe)
    requires MayCommit(s, id, x)
    ensures RowsSound(AfterFailing(s, id), x)
  {
    var q, t := s.requests[id], AfterFailing(s, id);
    EndsLater(s, id, t.db, t.proxy, t.credits, ProxyFailed);
    LaterSees(s, t, x);
    assert Carries(t.requests[id], x, q.job.pool);
    forall k | k in t.db.topups && k.2 == x
      ensures exists b | b in t.credits :: CreditKey(b) == k && Entered(t.db, b)
    {
      var b :| b in s.credits && CreditKey(b) == k && Entered(s.db, b);
      assert Entered(t.db, b);
    }
  }

  lemma FailedCredits(s: System, id: Id, x: Stripe)
    requires MayCommit(s, id, x)
    ensures CreditsSound(AfterFailing(s, id), x)
    ensures AllSpoiled(s, x) ==> AllSpoiled(AfterFailing(s, id), x)
  {
    var q, t := s.requests[id], AfterFailing(s, id);
    SoundParts(s, id, x);
    EndsLater(s, id, t.db, t.proxy, t.credits, ProxyFailed);
    LaterSees(s, t, x);
    assert Carries(t.requests[id], x, q.job.pool);
    forall b | b in s.credits && b.stripe == x && !q.job.pool && Entered(s.db, b)
      ensures Entered(t.db, b) && FailedElsewhere(t.requests[id], b) && Spoiled(t, b)
    {
      PlaceWasFree(s, id, x, b);
      assert FailedElsewhere(t.requests[id], b);
    }
    hide LocksHeld, RowsSound, OnceSound, Later, Seen, Spoiled, StagedApart;
  }

  lemma FailedHere(s: System, id: Id, x: Stripe)
    requires MayCommit(s, id, x)
    ensures Sound(AfterFailing(s, id), x)
  {
    var t := AfterFailing(s, id);
    SoundParts(s, id, x);
    EndedKeepsLocks(s, id);
    FailedRows(s, id, x);
    FailedCredits(s, id, x);
    EndsLater(s, id, t.db, t.proxy, t.credits, ProxyFailed);
    LaterSees(s, t, x);
    assert OnceSound(t, x);
    EndedStaysApart(s, id, t.db, t.proxy, t.credits, ProxyFailed, x);
    hide LocksHeld, RowsSound, CreditsSound, OnceSound, Later, StagedApart, AllSpoiled, MayCommit;
    forall i | i in t.requests
      ensures Fits(t, t.requests[i], x)
    {
      if i != id {
        OthersFit(s, t, id, i, x);
      }
    }
  }

  // ------------------------------------------------------------ every step

  lemma ReadingKeepsSound(s: System, id: Id, x: Stripe)
    requires Sound(s, x) && At(s, id)
    ensures Sound(PurchaseRead(s, id), x)
  {
    SoundParts(s, id, x);
    var q := s.requests[id];
    if q.phase.Holding? && q.job.Buy? && q.job.pool {
      DroppedKeepsSound(s, id, Duplicate, x);
      if q.job.stripe !in s.db.purchases || Get(s.db.payments, q.job.stripe) == Some(SyncFailed) {
        var found := q.(phase := Found(RowOf(s.db, q.job.stripe)), retry := q.job.stripe in s.db.purchases);
        assert q.job.stripe == x ==> AllSpoiled(s, x);
        hide Sound, Dropped, Moved, AllSpoiled;
        MovedKeepsSound(s, id, s.proxy, found, x);
      }
    }
  }

  lemma WritingKeepsSound(s: System, id: Id, x: Stripe)
    requires Sound(s, x) && At(s, id)
    ensures Sound(PurchaseWritten(s, id), x)
  {
    SoundParts(s, id, x);
    hide Sound, Dropped, Moved, PurchaseBusy, AllSpoiled, StagedApart, LocksHeld;
    var q := s.requests[id];
    if q.phase.Found? && q.job.Buy? && !PurchaseBusy(s, id, q.job.stripe, q.retry) {
      DroppedKeepsSound(s, id, Refused, x);
      if RowOf(s.db, q.job.stripe) == q.phase.row {
        MovedKeepsSound(s, id, s.proxy, q.(phase := PurchaseStaged), x);
      }
    }
  }

  lemma RecordingKeepsSound(s: System, id: Id, x: Stripe)
    requires Sound(s, x) && At(s, id)
    ensures Sound(RowsRecorded(s, id), x)
  {
    SoundParts(s, id, x);
    hide Sound, Dropped, Moved, PaymentBusy, PurchaseBusy, AllSpoiled, StagedApart, LocksHeld;
    var q := s.requests[id];
    if q.job.Buy? && (if q.job.pool then q.phase.PurchaseStaged? else q.phase.Holding?) {
      if !q.job.belongs {
        DroppedKeepsSound(s, id, Refused, x);
      } else if TopupKey(q.job) in s.db.topups && !q.retry {
        DroppedKeepsSound(s, id, Duplicate, x);
      } else {
        MovedKeepsSound(s, id, s.proxy, q.(phase := Recorded), x);
      }
    }
  }

  /** The remote steps change phases and proxies only. */
  lemma RemoteKeepsSound(g: Ground, s: System, e: Event, x: Stripe)
    requires e.Inform? || e.RaiseBudget? || e.SyncKeys? || e.Restore?
    requires Sound(s, x) && At(s, e.id)
    ensures Sound(RequestStep(g, s, e), x)
  {
    hide Sound, Moved, PurchaseBusy, AllSpoiled, StagedApart, LocksHeld, Remaining, Opened, KeysOf, WithLimit, Target;
    SoundParts(s, e.id, x);
    var q := s.requests[e.id];
    forall proxy, next: Request |
      next.job == q.job && next.retry == q.retry && InTransaction(q) && InTransaction(next)
      && !next.phase.Found? && !next.phase.PurchaseStaged? && (q.job.Buy? ==> HasStagedPayment(q))
      ensures Sound(Moved(s, e.id, proxy, next), x)
    {
      MovedKeepsSound(s, e.id, proxy, next, x);
    }
  }

  lemma CommittingKeepsSound(s: System, id: Id, x: Stripe)
    requires Sound(s, x) && At(s, id)
    ensures Sound(Committed(s, id), x) && Sound(FailureCommitted(s, id), x)
  {
    SoundParts(s, id, x);
    hide Sound, Ended, Bought, NotBought, AllSpoiled, StagedApart, LocksHeld;
    var q := s.requests[id];
    if q.job.Buy? && q.phase.Paid? {
      var c := CreditFor(q.job, q.phase.spend, q.phase.remaining);
      if q.job.stripe == x {
        BoughtHere(s, id, x, c);
      } else {
        OtherCommit(s, id, x, c);
      }
    }
    if q.job.Buy? && q.phase.Failing? {
      if q.job.stripe == x {
        FailedHere(s, id, x);
      } else {
        OtherCommit(s, id, x, Credit(q.job.stripe, 0, 0, 0, false, 0, 0));
      }
    }
  }

  /** Clearing a key touches none of the three tables, and is no purchase. */
  lemma ClearingKeepsSound(g: Ground, s: System, e: Event, x: Stripe)
    requires e.Decide? || e.WriteKey? || e.CommitClear? || e.Crash?
    requires Sound(s, x) && At(s, e.id)
    ensures Sound(RequestStep(g, s, e), x)
  {
    hide Sound, Ended, Moved, StagedApart, LocksHeld, AllSpoiled, EverPurchased, PurchaseBusy;
    var q := s.requests[e.id];
    if !q.phase.Done? {
      forall db: Tables, proxy, answer | db == s.db.(caps := db.caps)
        ensures Sound(Ended(s, e.id, db, proxy, s.credits, answer), x)
      {
        UnwrittenRows(s, e.id, db, proxy, answer, x);
        EndedKeepsSound(s, e.id, db, proxy, s.credits, answer, x);
      }
    }
    if q.job.ClearKey? && InTransaction(q) {
      forall proxy, next: Request | next.job == q.job && InTransaction(next)
        ensures Sound(Moved(s, e.id, proxy, next), x)
      {
        MovedKeepsSound(s, e.id, proxy, next, x);
      }
    }
  }

  lemma UnwrittenRows(s: System, id: Id, db: Tables, proxy: Proxies, answer: Answer, x: Stripe)
    requires At(s, id) && db == s.db.(caps := db.caps)
    ensures SameRows(s, Ended(s, id, db, proxy, s.credits, answer), x)
  {
  }

  lemma LockedKeepsSound(s: System, id: Id, x: Stripe)
    requires Sound(s, x) && At(s, id)
    ensures Sound(Locked(s, id), x)
  {
    LockedKeepsLocks(s, id);
    SoundParts(s, id, x);
    hide LocksHeld, AllSpoiled, StagedApart, Dropped, RowsSound, CreditsSound, OnceSound, Sound;
    var q, t := s.requests[id], Locked(s, id);
    if q.phase.Waiting? && q.job.region !in s.locks {
      DroppedKeepsSound(s, id, NotFound, x);
      if Get(s.active, q.job.region) == Some(true) {
        StillApart(s, t, id, x);
        QuietStep(s, t, id, x);
      }
    }
  }

  lemma BegunKeepsSound(g: Ground, s: System, id: Id, job: Job, x: Stripe)
    requires Sound(s, x)
    ensures Sound(Begun(g, s, id, job), x)
  {
    StepKeepsLocks(g, s, Begin(id, job));
    hide LocksHeld, AllSpoiled, RowsSound, CreditsSound, OnceSound, KeysOf;
    var t := Begun(g, s, id, job);
    if !At(s, id) {
      assert StagedApart(t, x);
      QuietStep(s, t, id, x);
    }
  }

  lemma WorldRows(g: Ground, s: System, e: Event, x: Stripe)
    requires !OfRequest(e) && !e.Begin?
    ensures Step(g, s, e).requests == s.requests && SameRows(s, Step(g, s, e), x)
  {
    hide RequestStep, Begun, Spent;
  }

  lemma WorldKeepsSound(g: Ground, s: System, e: Event, x: Stripe)
    requires !OfRequest(e) && !e.Begin? && Sound(s, x)
    ensures Sound(Step(g, s, e), x)
  {
    hide LocksHeld, AllSpoiled, RowsSound, CreditsSound, OnceSound, Step, SameRows, Fits;
    var t := Step(g, s, e);
    StepKeepsLocks(g, s, e);
    WorldRows(g, s, e, x);
    assert Later(s, t);
    hide Later;
    RowsKept(s, t, x);
    CreditsKept(s, t, x);
    OnceKept(s, t, x);
    forall i | i in t.requests
      ensures Fits(t, t.requests[i], x)
    {
      FitsKept(s, t, s.requests[i], x);
    }
  }

  lemma StepKeepsSound(g: Ground, s: System, e: Event, x: Stripe)
    requires Sound(s, x)
    ensures Sound(Step(g, s, e), x)
  {
    hide Sound, Locked, PurchaseRead, PurchaseWritten, RowsRecorded, Committed, FailureCommitted, Begun, Activated;
    if e.Begin? {
      BegunKeepsSound(g, s, e.id, e.job, x);
    } else if !OfRequest(e) {
      WorldKeepsSound(g, s, e, x);
    } else if At(s, e.id) {
      match e
      case Lock(id) => LockedKeepsSound(s, id, x);
      case ReadPurchase(id) => ReadingKeepsSound(s, id, x);
      case StagePurchase(id) => WritingKeepsSound(s, id, x);
      case Record(id) => RecordingKeepsSound(s, id, x);
      case Commit(id) => CommittingKeepsSound(s, id, x);
      case CommitFailed(id) => CommittingKeepsSound(s, id, x);
      case Inform(_, _) => RemoteKeepsSound(g, s, e, x);
      case RaiseBudget(_, _) => RemoteKeepsSound(g, s, e, x);
      case SyncKeys(_, _, _) => RemoteKeepsSound(g, s, e, x);
      case Restore(_, _) => RemoteKeepsSound(g, s, e, x);
      case _ => ClearingKeepsSound(g, s, e, x);
    }
  }

  lemma {:induction false} RunKeepsSound(g: Ground, s: System, events: seq<Event>, x: Stripe)
    requires Sound(s, x)
    ensures Sound(Run(g, s, events), x)
    decreases |events|
  {
    hide Sound, Step;
    if events != [] {
      StepKeepsSound(g, s, events[0], x);
      RunKeepsSound(g, Step(g, s, events[0]), events[1..], x);
    }
  }

  lemma IdleIsSound(s: System, x: Stripe)
    requires Idle(s)
    ensures Sound(s, x)
  {
  }

  // ------------------------------------------------------------ what the requests of a run carry

  /** If the event begins a purchase with this payment, it comes through that endpoint. */
  predicate Through(e: Event, x: Stripe, pool: bool) {
    e.Begin? && e.job.Buy? && e.job.stripe == x ==> e.job.pool == pool
  }

  ghost predicate AllThrough(events: seq<Event>, x: Stripe, pool: bool) {
    forall e | e in events :: Through(e, x, pool)
  }

  /** Every request of the run with this payment comes through the same endpoint. */
  ghost predicate OneEndpoint(events: seq<Event>, x: Stripe) {
    AllThrough(events, x, true) || AllThrough(events, x, false)
  }

  lemma RequestKeepsJobs(g: Ground, s: System, e: Event, i: Id)
    requires OfRequest(e) && At(s, e.id) && At(RequestStep(g, s, e), i)
    ensures At(s, i) && RequestStep(g, s, e).requests[i].job == s.requests[i].job
  {
    hide EverPurchased, Remaining, Opened, PurchaseBusy, PaymentBusy, Bought, NotBought, KeysOf, WithLimit, Target;
  }

  lemma StepSees(g: Ground, s: System, e: Event, x: Stripe, pool: bool)
    requires Through(e, x, !pool) && !Seen(s, x, pool)
    ensures !Seen(Step(g, s, e), x, pool)
  {
    hide RequestStep, Spent, Consumed, Expired, KeysOf;
    var t := Step(g, s, e);
    forall i | i in t.requests
      ensures !Carries(t.requests[i], x, pool)
    {
      if OfRequest(e) && At(s, e.id) {
        RequestKeepsJobs(g, s, e, i);
      }
      assert i in s.requests ==> !Carries(s.requests[i], x, pool);
    }
  }

  lemma {:induction false} RunSees(g: Ground, s: System, events: seq<Event>, x: Stripe, pool: bool)
    requires AllThrough(events, x, !pool) && !Seen(s, x, pool)
    ensures !Seen(Run(g, s, events), x, pool)
    decreases |events|
  {
    hide Step, Seen, Through;
    if events != [] {
      StepSees(g, s, events[0], x, pool);
      RunSees(g, Step(g, s, events[0]), events[1..], x, pool);
    }
  }

  // ------------------------------------------------------------ sums over the ledger

  ghost function SumAmounts(topups: map<(Id, Id, Stripe), Topup>): nat {
    if topups == map[] then 0
    else
      var k :| k in topups;
      topups[k].amount + SumAmounts(topups - {k})
  }

  function SumCredits(credits: seq<Credit>): nat {
    if credits == [] then 0 else SumCredits(credits[..|credits| - 1]) + credits[|credits| - 1].amount
  }

  function CreditKeys(credits: seq<Credit>): set<(Id, Id, Stripe)> {
    set c | c in credits :: CreditKey(c)
  }

  ghost predicate KeysUnrepeated(credits: seq<Credit>) {
    forall i, j | 0 <= i < j < |credits| :: CreditKey(credits[i]) != CreditKey(credits[j])
  }

  lemma CreditMore(credits: seq<Credit>, c: Credit)
    ensures CreditKeys(credits + [c]) == CreditKeys(credits) + {CreditKey(c)}
  {
    assert c in credits + [c] && forall b :: b in credits + [c] <==> b in credits || b == c;
  }

  lemma {:induction false} SumWithout(topups: map<(Id, Id, Stripe), Topup>, k: (Id, Id, Stripe))
    requires k in topups
    ensures SumAmounts(topups) == topups[k].amount + SumAmounts(topups - {k})
    decreases |topups|
  {
    var j :| j in topups && SumAmounts(topups) == topups[j].amount + SumAmounts(topups - {j});
    if j != k {
      SumWithout(topups - {j}, k);
      SumWithout(topups - {k}, j);
      assert topups - {j} - {k} == topups - {k} - {j};
    }
  }

  lemma AllButLast(credits: seq<Credit>)
    requires credits != [] && KeysUnrepeated(credits)
    ensures
      var rest, last := credits[..|credits| - 1], credits[|credits| - 1];
      && KeysUnrepeated(rest) && CreditKeys(credits) == CreditKeys(rest) + {CreditKey(last)}
      && CreditKey(last) !in CreditKeys(rest)
  {
    var rest, last := credits[..|credits| - 1], credits[|credits| - 1];
    assert credits == rest + [last];
    CreditMore(rest, last);
    forall i | 0 <= i < |rest|
      ensures CreditKey(rest[i]) != CreditKey(last)
    {
      assert rest[i] == credits[i];
    }
  }

  lemma {:induction false} LedgerTotal(topups: map<(Id, Id, Stripe), Topup>, credits: seq<Credit>)
    requires KeysUnrepeated(credits) && topups.Keys == CreditKeys(credits)
    requires forall c | c in credits :: CreditKey(c) in topups && topups[CreditKey(c)].amount == c.amount
    ensures SumAmounts(topups) == SumCredits(credits)
    decreases |credits|
  {
    if credits == [] {
      assert topups == map[];
    } else {
      var rest, last := credits[..|credits| - 1], credits[|credits| - 1];
      AllButLast(credits);
      assert last in credits && forall c | c in rest :: c in credits;
      forall c | c in rest
        ensures CreditKey(c) in topups - {CreditKey(last)}
      {
        assert CreditKey(c) in CreditKeys(rest);
      }
      hide KeysUnrepeated, CreditKeys;
      LedgerTotal(topups - {CreditKey(last)}, rest);
      SumWithout(topups, CreditKey(last));
    }
  }

  // ------------------------------------------------------------ what it means

  /**
   * In every run, through both endpoints: a pool credit stands in payment, purchase and ledger, and is the
   * last the pool endpoint gives for its payment, unless a periodic attempt with the payment has failed for
   * another team or region. A ledger entry is always a credit, with its amount.
   */
  lemma PoolCreditsStand(g: Ground, s: System, events: seq<Event>)
    requires Idle(s)
    ensures
      var z := Run(g, s, events);
      && (forall c | c in z.credits && c.pool :: Spoiled(z, c) || Stands(z.db, c))
      && (forall i, j | 0 <= i < j < |z.credits| && z.credits[i].pool && z.credits[j].pool
            && z.credits[i].stripe == z.credits[j].stripe :: Spoiled(z, z.credits[i]))
      && (forall k | k in z.db.topups :: exists c | c in z.credits :: CreditKey(c) == k && c.amount == z.db.topups[k].amount)
  {
    var z := Run(g, s, events);
    forall x
      ensures Sound(z, x)
    {
      IdleIsSound(s, x);
      RunKeepsSound(g, s, events, x);
    }
    hide Run, LocksHeld, Fits, StagedApart, Spoiled, Seen, Idle;
    forall c | c in z.credits && c.pool
      ensures Spoiled(z, c) || Stands(z.db, c)
    {
      assert Sound(z, c.stripe);
    }
    forall i, j | 0 <= i < j < |z.credits| && z.credits[i].pool && z.credits[j].pool && z.credits[i].stripe == z.credits[j].stripe
      ensures Spoiled(z, z.credits[i])
    {
      assert Sound(z, z.credits[i].stripe);
    }
    forall k | k in z.db.topups
      ensures exists c | c in z.credits :: CreditKey(c) == k && c.amount == z.db.topups[k].amount
    {
      assert Sound(z, k.2);
    }
  }

  /** The credits, rows and ledger entries of a payment that only the pool endpoint has seen. */
  ghost predicate OncePerPayment(z: System, x: Stripe) {
    && (forall i, j | 0 <= i < j < |z.credits| && z.credits[i].stripe == x :: z.credits[j].stripe != x)
    && (forall c | c in z.credits && c.stripe == x :: Stands(z.db, c))
    && (forall k | k in z.db.topups && k.2 == x :: exists c | c in z.credits :: CreditKey(c) == k && Entered(z.db, c))
    && (x in z.db.purchases <==> x in z.db.payments)
    && (Get(z.db.payments, x) == Some(Success) <==> exists c | c in z.credits :: c.stripe == x)
    && (Get(z.db.payments, x) == Some(SyncFailed) ==> forall k | k in z.db.topups :: k.2 != x)
  }

  /**
   * In every run and for every payment whose requests all go through the pool endpoint, whatever the other
   * payments' requests do: it is credited at most once; its ledger entry, purchase and payment agree with
   * the credit; and while its payment is marked as failed it has no ledger entry.
   */
  lemma PoolPaymentOnce(g: Ground, s: System, events: seq<Event>, x: Stripe)
    requires Idle(s) && AllThrough(events, x, true)
    ensures OncePerPayment(Run(g, s, events), x)
  {
    IdleIsSound(s, x);
    RunKeepsSound(g, s, events, x);
    RunSees(g, s, events, x, false);
    hide Run, LocksHeld, Idle;
    UnspoiledOnce(Run(g, s, events), x);
  }

  lemma UnspoiledOnce(z: System, x: Stripe)
    requires Sound(z, x) && !Seen(z, x, false)
    ensures OncePerPayment(z, x)
  {
    forall c | c in z.credits && c.stripe == x
      ensures c.pool && Stands(z.db, c)
    {
      assert Seen(z, x, c.pool);
      assert !Spoiled(z, c);
    }
    forall k | k in z.db.topups && k.2 == x
      ensures Get(z.db.payments, x) == Some(Success)
    {
      var c :| c in z.credits && CreditKey(c) == k;
    }
    hide LocksHeld, Fits, StagedApart, Seen;
    forall i, j | 0 <= i < j < |z.credits| && z.credits[i].stripe == x
      ensures z.credits[j].stripe != x
    {
      assert z.credits[i] in z.credits && z.credits[j] in z.credits;
      assert !Spoiled(z, z.credits[i]);
    }
  }

  /** The credits and ledger entries of a payment that only the periodic endpoint has seen. */
  ghost predicate OncePerRegion(z: System, x: Stripe) {
    && (forall i, j | 0 <= i < j < |z.credits| && z.credits[i].stripe == x && z.credits[j].stripe == x ::
         CreditKey(z.credits[i]) != CreditKey(z.credits[j]))
    && (forall c | c in z.credits && c.stripe == x :: Entered(z.db, c))
    && (forall k | k in z.db.topups && k.2 == x :: exists c | c in z.credits :: CreditKey(c) == k && Entered(z.db, c))
  }

  /**
   * In every run and for every payment whose requests all go through the periodic endpoint: it is credited
   * at most once for each team and region, and its ledger entries are exactly its credits.
   */
  lemma PeriodicPaymentOnce(g: Ground, s: System, events: seq<Event>, x: Stripe)
    requires Idle(s) && AllThrough(events, x, false)
    ensures OncePerRegion(Run(g, s, events), x)
  {
    IdleIsSound(s, x);
    RunKeepsSound(g, s, events, x);
    RunSees(g, s, events, x, true);
    hide Run, LocksHeld, Idle, Fits, StagedApart, Seen, Spoiled;
  }

  /**
   * So where every payment keeps to one endpoint, the ledger is exactly what was answered with success,
   * entry by entry and in total.
   */
  lemma LedgerIsCredits(g: Ground, s: System, events: seq<Event>)
    requires Idle(s) && forall x :: OneEndpoint(events, x)
    ensures
      var z := Run(g, s, events);
      KeysUnrepeated(z.credits) && z.db.topups.Keys == CreditKeys(z.credits) && SumAmounts(z.db.topups) == SumCredits(z.credits)
  {
    var z := Run(g, s, events);
    forall x
      ensures OncePerRegion(z, x)
    {
      assert OneEndpoint(events, x);
      if AllThrough(events, x, true) {
        PoolPaymentOnce(g, s, events, x);
      } else {
        PeriodicPaymentOnce(g, s, events, x);
      }
    }
    hide Run, Idle, OneEndpoint;
    AllOncePerRegion(z);
  }

  lemma AllOncePerRegion(z: System)
    requires forall x :: OncePerRegion(z, x)
    ensures KeysUnrepeated(z.credits) && z.db.topups.Keys == CreditKeys(z.credits)
    ensures SumAmounts(z.db.topups) == SumCredits(z.credits)
  {
    forall i, j | 0 <= i < j < |z.credits|
      ensures CreditKey(z.credits[i]) != CreditKey(z.credits[j])
    {
      assert OncePerRegion(z, z.credits[i].stripe);
    }
    forall c | c in z.credits
      ensures Entered(z.db, c)
    {
      assert OncePerRegion(z, c.stripe);
    }
    forall k | k in z.db.topups
      ensures k in CreditKeys(z.credits)
    {
      assert OncePerRegion(z, k.2);
    }
    LedgerTotal(z.db.topups, z.credits);
  }
}
