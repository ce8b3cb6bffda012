/** The team's budget on the proxy: what a success sets it to, and what a failure leaves it at. */
module PurchaseBudgets {
  import opened Common
  import opened Purchases
  import opened PurchaseLocks

  /** What the request knows of its team's limit on the proxy, from where it has got to. */
  ghost predicate LimitKnown(p: Proxies, q: Request) {
    var now := LimitOf(p, q.job.team, q.job.region);
    match q.phase
    case Holding => now == q.before
    case Found(_) => now == q.before
    case PurchaseStaged => now == q.before
    case Recorded => now == q.before
    case Informed(_, remaining) => now == q.before && Counted(q.job, remaining)
    case Budgeted(spend, remaining) => now == Target(spend, remaining) && Counted(q.job, remaining)
    case Paid(spend, remaining) => now == Target(spend, remaining) && Counted(q.job, remaining)
    case Failing(_, left) => now == left.GetOr(q.before)
    case _ => true
  }

  /** A purchase whose expiry lies ahead counts in the balance it sets. */
  ghost predicate Counted(job: Job, remaining: nat) {
    job.Buy? && (job.live ==> remaining >= job.amount)
  }

  ghost predicate LimitsKnown(s: System) {
    LocksHeld(s) && forall i | i in s.requests :: LimitKnown(s.proxy, s.requests[i])
  }

  // ------------------------------------------------------------ the new top-up is part of the balance

  lemma {:induction false} PartOfSum(topups: map<(Id, Id, Stripe), Topup>, keys: set<(Id, Id, Stripe)>, k: (Id, Id, Stripe))
    requires keys <= topups.Keys && k in keys
    ensures SumLeft(topups, keys) >= Left(topups[k])
  {
    var j :| j in keys && SumLeft(topups, keys) == Left(topups[j]) + SumLeft(topups, keys - {j});
    var rest := keys - {j};
    assert SumLeft(topups, keys) == Left(topups[j]) + SumLeft(topups, rest);
    if j != k {
      PartOfSum(topups, rest, k);
      assert SumLeft(topups, rest) >= Left(topups[k]);
    }
  }

  lemma RemainingCounts(d: Tables, job: Job)
    requires job.Buy?
    ensures Counted(job, Remaining(d, job))
  {
    var topups := StagedTopups(d, job);
    PartOfSum(topups, TopupKeys(d.(topups := topups), job.team, job.region), TopupKey(job));
  }

  // ------------------------------------------------------------ steps

  /** Only the lock's holder writes a limit in its region. */
  lemma WriteElsewhere(s: System, id: Id, proxy: Proxies, other: Id)
    requires LimitsKnown(s) && At(s, id) && At(s, other) && id != other && InTransaction(s.requests[id])
    requires proxy == s.proxy.(keys := proxy.keys) ||
             exists limit :: proxy == WithLimit(s.proxy, s.requests[id].job.team, s.requests[id].job.region, limit)
    ensures LimitKnown(proxy, s.requests[other])
  {
    var q := s.requests[other];
    if InTransaction(q) && q.job.region == s.requests[id].job.region {
      OneAtATime(s, id, other);
    }
    if q.job.region != s.requests[id].job.region {
      assert LimitOf(proxy, q.job.team, q.job.region) == LimitOf(s.proxy, q.job.team, q.job.region);
    }
  }

  lemma MovedKeepsLimits(s: System, id: Id, proxy: Proxies, q: Request)
    requires LimitsKnown(s) && At(s, id) && InTransaction(s.requests[id]) && InTransaction(q)
    requires q.job == s.requests[id].job && LimitKnown(proxy, q)
    requires proxy == s.proxy.(keys := proxy.keys) ||
             exists limit :: proxy == WithLimit(s.proxy, q.job.team, q.job.region, limit)
    ensures LimitsKnown(Moved(s, id, proxy, q))
  {
    hide LocksHeld, LimitKnown;
    MovedKeepsLocks(s, id);
    forall i | i in s.requests && i != id
      ensures LimitKnown(proxy, s.requests[i])
    {
      WriteElsewhere(s, id, proxy, i);
    }
  }

  lemma EndedKeepsLimits(s: System, id: Id, db: Tables, proxy: Proxies, credits: seq<Credit>, answer: Answer)
    requires LimitsKnown(s) && At(s, id) && !s.requests[id].phase.Done? && proxy == s.proxy.(keys := proxy.keys)
    ensures LimitsKnown(Ended(s, id, db, proxy, credits, answer))
  {
    hide LocksHeld;
    EndedKeepsLocks(s, id);
    var t := Ended(s, id, db, proxy, credits, answer);
    forall i | i in t.requests
      ensures LimitKnown(proxy, t.requests[i])
    {
      assert LimitKnown(s.proxy, s.requests[i]);
    }
  }

  lemma StagingKeepsLimits(g: Ground, s: System, e: Event)
    requires e.ReadPurchase? || e.StagePurchase? || e.Record? || e.Inform?
    requires LimitsKnown(s) && At(s, e.id) && InTransaction(s.requests[e.id])
    ensures LimitsKnown(RequestStep(g, s, e))
  {
    hide LimitsKnown, Ended, Moved, PurchaseBusy, PaymentBusy, Remaining, LocksHeld, Counted;
    KnownOf(s, e.id);
    var q := s.requests[e.id];
    if q.job.Buy? {
      RemainingCounts(s.db, q.job);
    }
    forall answer
      ensures LimitsKnown(Dropped(s, e.id, answer))
    {
      EndedKeepsLimits(s, e.id, s.db, s.proxy, s.credits, answer);
    }
    forall next: Request | next.job == q.job && InTransaction(next) && LimitKnown(s.proxy, next)
      ensures LimitsKnown(Moved(s, e.id, s.proxy, next))
    {
      MovedKeepsLimits(s, e.id, s.proxy, next);
    }
  }

  lemma KnownOf(s: System, id: Id)
    requires LimitsKnown(s) && At(s, id)
    ensures LocksHeld(s) && LimitKnown(s.proxy, s.requests[id])
  {
  }

  lemma RaisingKeepsLimits(g: Ground, s: System, e: Event)
    requires e.RaiseBudget? || e.Restore?
    requires LimitsKnown(s) && At(s, e.id) && InTransaction(s.requests[e.id])
    ensures LimitsKnown(RequestStep(g, s, e))
  {
    hide LimitsKnown, Moved, LocksHeld, Counted;
    KnownOf(s, e.id);
    var q := s.requests[e.id];
    assert s.proxy == s.proxy.(keys := s.proxy.keys);
    forall next: Request | next.job == q.job && InTransaction(next) && LimitKnown(s.proxy, next)
      ensures LimitsKnown(Moved(s, e.id, s.proxy, next))
    {
      MovedKeepsLimits(s, e.id, s.proxy, next);
    }
    forall next: Request, limit |
      next.job == q.job && InTransaction(next) && LimitKnown(WithLimit(s.proxy, q.job.team, q.job.region, limit), next)
      ensures LimitsKnown(Moved(s, e.id, WithLimit(s.proxy, q.job.team, q.job.region, limit), next))
    {
      MovedKeepsLimits(s, e.id, WithLimit(s.proxy, q.job.team, q.job.region, limit), next);
    }
  }

  lemma SyncKeepsLimits(g: Ground, s: System, id: Id, failed: set<Id>, landed: set<Id>)
    requires LimitsKnown(s) && At(s, id) && InTransaction(s.requests[id])
    ensures LimitsKnown(KeysSynced(g, s, id, failed, landed))
  {
    hide LimitsKnown, Moved, Opened, KeysOf, LocksHeld, Counted;
    KnownOf(s, id);
    var q := s.requests[id];
    if q.phase.Budgeted? {
      var keys := KeysOf(g, q.job.team, q.job.region);
      var written := s.proxy.keys + Opened(s.db.caps, (keys - failed) + (keys * landed));
      MovedKeepsLimits(s, id, s.proxy.(keys := written),
        q.(phase := if keys * failed == {} then Paid(q.phase.spend, q.phase.remaining) else Failing(true, Some(Target(q.phase.spend, q.phase.remaining)))));
    }
  }

  lemma EndingKeepsLimits(g: Ground, s: System, e: Event)
    requires e.Commit? || e.CommitFailed? || e.Decide? || e.WriteKey? || e.CommitClear? || e.Crash?
    requires LimitsKnown(s) && At(s, e.id) && InTransaction(s.requests[e.id])
    ensures LimitsKnown(RequestStep(g, s, e))
  {
    hide LimitsKnown, Moved, Ended, EverPurchased, Bought, NotBought, LocksHeld;
    var q := s.requests[e.id];
    forall db, proxy: Proxies, credits, answer | proxy == s.proxy.(keys := proxy.keys)
      ensures LimitsKnown(Ended(s, e.id, db, proxy, credits, answer))
    {
      EndedKeepsLimits(s, e.id, db, proxy, credits, answer);
    }
    forall next: Request, proxy: Proxies |
      next.job == q.job && (next.phase.Deciding? || next.phase.KeyWritten?) && proxy == s.proxy.(keys := proxy.keys)
      ensures LimitsKnown(Moved(s, e.id, proxy, next))
    {
      MovedKeepsLimits(s, e.id, proxy, next);
    }
  }

  lemma LockKeepsLimits(s: System, id: Id)
    requires LimitsKnown(s) && At(s, id)
    ensures LimitsKnown(Locked(s, id))
  {
    LockedKeepsLocks(s, id);
    hide LocksHeld;
    if s.requests[id].phase.Waiting? {
      EndedKeepsLimits(s, id, s.db, s.proxy, s.credits, NotFound);
    }
  }

  lemma WorldKeepsLimits(g: Ground, s: System, e: Event)
    requires !OfRequest(e) && LimitsKnown(s)
    ensures LimitsKnown(Step(g, s, e))
  {
    StepKeepsLocks(g, s, e);
    hide LocksHeld, Counted, Consumed, Expired;
    var t := Step(g, s, e);
    assert t.proxy.limits == s.proxy.limits;
    forall i | i in t.requests
      ensures LimitKnown(t.proxy, t.requests[i])
    {
      if At(s, i) {
        assert LimitKnown(s.proxy, s.requests[i]);
      }
    }
  }

  lemma OutsideKeepsLimits(g: Ground, s: System, e: Event)
    requires OfRequest(e) && !e.Lock?
    requires LimitsKnown(s) && At(s, e.id) && !InTransaction(s.requests[e.id])
    ensures LimitsKnown(RequestStep(g, s, e))
  {
    hide LimitsKnown, Ended, KeysOf;
    if s.requests[e.id].phase.Waiting? {
      EndedKeepsLimits(s, e.id, s.db, s.proxy, s.credits, Crashed);
    }
  }

  lemma StepKeepsLimits(g: Ground, s: System, e: Event)
    requires LimitsKnown(s)
    ensures LimitsKnown(Step(g, s, e))
  {
    hide LimitsKnown, KeysSynced, Locked, InTransaction;
    if !OfRequest(e) {
      WorldKeepsLimits(g, s, e);
    } else if At(s, e.id) {
      if e.Lock? {
        LockKeepsLimits(s, e.id);
      } else if InTransaction(s.requests[e.id]) {
        TransactionKeepsLimits(g, s, e);
      } else {
        OutsideKeepsLimits(g, s, e);
      }
    }
  }

  lemma TransactionKeepsLimits(g: Ground, s: System, e: Event)
    requires OfRequest(e) && !e.Lock?
    requires LimitsKnown(s) && At(s, e.id) && InTransaction(s.requests[e.id])
    ensures LimitsKnown(RequestStep(g, s, e))
  {
    hide LimitsKnown, KeysSynced;
    match e
    case SyncKeys(id, failed, landed) => SyncKeepsLimits(g, s, id, failed, landed);
    case RaiseBudget(_, _) => RaisingKeepsLimits(g, s, e);
    case Restore(_, _) => RaisingKeepsLimits(g, s, e);
    case ReadPurchase(_) => StagingKeepsLimits(g, s, e);
    case StagePurchase(_) => StagingKeepsLimits(g, s, e);
    case Record(_) => StagingKeepsLimits(g, s, e);
    case Inform(_, _) => StagingKeepsLimits(g, s, e);
    case _ => EndingKeepsLimits(g, s, e);
  }

  lemma {:induction false} RunKeepsLimits(g: Ground, s: System, events: seq<Event>)
    requires LimitsKnown(s)
    ensures LimitsKnown(Run(g, s, events))
    decreases |events|
  {
    hide LimitsKnown, Step;
    if events != [] {
      StepKeepsLimits(g, s, events[0]);
      RunKeepsLimits(g, Step(g, s, events[0]), events[1..]);
    }
  }

  // ------------------------------------------------------------ what it means

  /** The spend and the balance that a purchase has read. */
  function Figures(p: Phase): Option<(nat, nat)> {
    match p
    case Informed(spend, remaining) => Some((spend, remaining))
    case Budgeted(spend, remaining) => Some((spend, remaining))
    case Paid(spend, remaining) => Some((spend, remaining))
    case _ => None
  }

  /** What a purchase would read in this state: its team's spend on the proxy, and all that it has left. */
  ghost function Reading(s: System, job: Job): (nat, nat)
    requires job.Buy?
  {
    (SpendOf(s.proxy, job.team, job.region), Remaining(s.db, job))
  }

  /** The figures come from the step that reads them, and are carried along unchanged. */
  lemma FiguresAreRead(g: Ground, s: System, e: Event, id: Id)
    requires At(Step(g, s, e), id) && Figures(Step(g, s, e).requests[id].phase).Some?
    ensures At(s, id) && Step(g, s, e).requests[id].job == s.requests[id].job
    ensures
      var q, f := s.requests[id], Figures(Step(g, s, e).requests[id].phase);
      Figures(q.phase) == f || (e == Inform(id, true) && q.job.Buy? && q.phase.Recorded? && f == Some(Reading(s, q.job)))
  {
    hide RequestStep, Expired, Consumed, Spent, KeysOf, Reading;
    if OfRequest(e) && At(s, e.id) {
      FiguresOfRequest(g, s, e, id);
    }
  }

  /** The steps between the recorded rows and the commit. */
  predicate Calling(e: Event) {
    e.Inform? || e.RaiseBudget? || e.SyncKeys?
  }

  lemma FiguresOfCall(g: Ground, s: System, e: Event, id: Id)
    requires Calling(e) && At(s, e.id)
    requires At(RequestStep(g, s, e), id) && Figures(RequestStep(g, s, e).requests[id].phase).Some?
    ensures At(s, id) && RequestStep(g, s, e).requests[id].job == s.requests[id].job
    ensures
      var q, f := s.requests[id], Figures(RequestStep(g, s, e).requests[id].phase);
      Figures(q.phase) == f || (e == Inform(id, true) && q.job.Buy? && q.phase.Recorded? && f == Some(Reading(s, q.job)))
  {
    hide EverPurchased, Remaining, Opened, PurchaseBusy, PaymentBusy, Bought, NotBought, KeysOf, WithLimit, Target;
  }

  lemma FiguresKept(g: Ground, s: System, e: Event, id: Id)
    requires OfRequest(e) && !Calling(e) && At(s, e.id) && At(RequestStep(g, s, e), id)
    requires Figures(RequestStep(g, s, e).requests[id].phase).Some?
    ensures At(s, id) && RequestStep(g, s, e).requests[id] == s.requests[id]
  {
    hide EverPurchased, PurchaseBusy, PaymentBusy, Bought, NotBought, WithLimit;
  }

  lemma FiguresOfRequest(g: Ground, s: System, e: Event, id: Id)
    requires OfRequest(e) && At(s, e.id)
    requires At(RequestStep(g, s, e), id) && Figures(RequestStep(g, s, e).requests[id].phase).Some?
    ensures At(s, id) && RequestStep(g, s, e).requests[id].job == s.requests[id].job
    ensures
      var q, f := s.requests[id], Figures(RequestStep(g, s, e).requests[id].phase);
      Figures(q.phase) == f || (e == Inform(id, true) && q.job.Buy? && q.phase.Recorded? && f == Some(Reading(s, q.job)))
  {
    hide Reading;
    if Calling(e) {
      hide RequestStep;
      FiguresOfCall(g, s, e, id);
    } else {
      FiguresKept(g, s, e, id);
    }
  }

  /** The figures of the request are those it read at this point of the run. */
  ghost predicate ReadAt(g: Ground, s: System, events: seq<Event>, id: Id, job: Job, figures: (nat, nat), n: nat) {
    && n < |events| && events[n] == Inform(id, true) && job.Buy?
    && var w := Run(g, s, events[..n]);
       At(w, id) && w.requests[id].job == job && w.requests[id].phase.Recorded? && figures == Reading(w, job)
  }

  lemma {:induction false} FiguresWereRead(g: Ground, s: System, events: seq<Event>, id: Id, m: nat)
    requires s.requests == map[] && m <= |events|
    requires At(Run(g, s, events[..m]), id) && Figures(Run(g, s, events[..m]).requests[id].phase).Some?
    ensures
      var q := Run(g, s, events[..m]).requests[id];
      exists n: nat | n < m :: ReadAt(g, s, events, id, q.job, Figures(q.phase).value, n)
  {
    hide Step, Reading;
    assert events[..0] == [];
    if m > 0 {
      RunLast(g, s, events, m - 1);
      var before := Run(g, s, events[..m - 1]);
      FiguresAreRead(g, before, events[m - 1], id);
      var q := Run(g, s, events[..m]).requests[id];
      if Figures(before.requests[id].phase) == Figures(q.phase) {
        FiguresWereRead(g, s, events, id, m - 1);
      } else {
        assert ReadAt(g, s, events, id, q.job, Figures(q.phase).value, m - 1);
      }
    }
  }

  // ------------------------------------------------------------ budgets in figures

  /** What the ledger entries at these keys have left, one after the other; consumed or expired ones nothing. */
  function LeftOver(topups: map<(Id, Id, Stripe), Topup>, keys: seq<(Id, Id, Stripe)>): nat
    requires forall k | k in keys :: k in topups
  {
    if keys == [] then 0
    else
      var t := topups[keys[0]];
      (if !t.live || t.consumed >= t.amount then 0 else t.amount - t.consumed) + LeftOver(topups, keys[1..])
  }

  /** The keys of the team's entries in the region, each once. */
  ghost predicate Lists(keys: seq<(Id, Id, Stripe)>, topups: map<(Id, Id, Stripe), Topup>, team: Id, region: Id) {
    && (forall i, j | 0 <= i < j < |keys| :: keys[i] != keys[j])
    && (forall k :: k in keys <==> k in topups && k.0 == team && k.1 == region)
  }

  /** The limit is this spend and, at 100 units to the cent, all that these tables have left for the team; for 31 days. */
  ghost predicate BudgetCovers(p: Proxies, team: Id, region: Id, spend: nat, d: Tables) {
    exists keys :: Lists(keys, d.topups, team, region) &&
      var left := Get(d.subscriptions, (team, region)).GetOr(0) + Get(d.rollovers, (team, region)).GetOr(0)
                  + LeftOver(d.topups, keys);
      Get(p.limits, (team, region)) == Some(Limit(Some(spend + 100 * left), Some("31d")))
  }

  lemma {:induction false} LeftOverIsSum(topups: map<(Id, Id, Stripe), Topup>, keys: seq<(Id, Id, Stripe)>,
                                         rows: set<(Id, Id, Stripe)>)
    requires rows <= topups.Keys && forall k :: k in keys <==> k in rows
    requires forall i, j | 0 <= i < j < |keys| :: keys[i] != keys[j]
    ensures LeftOver(topups, keys) == SumLeft(topups, rows)
    decreases |keys|
  {
    if keys == [] {
      assert rows == {};
    } else {
      assert keys == [keys[0]] + keys[1..];
      SumLeftWithout(topups, rows, keys[0]);
      LeftOverIsSum(topups, keys[1..], rows - {keys[0]});
    }
  }

  /** Any finite set of keys can be listed. */
  lemma {:induction false} Listing(rows: set<(Id, Id, Stripe)>) returns (keys: seq<(Id, Id, Stripe)>)
    ensures forall k :: k in keys <==> k in rows
    ensures forall i, j | 0 <= i < j < |keys| :: keys[i] != keys[j]
    decreases |rows|
  {
    keys := [];
    if rows != {} {
      var k :| k in rows;
      var rest := Listing(rows - {k});
      keys := [k] + rest;
    }
  }

  lemma TargetCovers(p: Proxies, team: Id, region: Id, spend: nat, d: Tables)
    requires Get(p.limits, (team, region)) == Some(Target(spend, Balance(d, team, region)))
    ensures BudgetCovers(p, team, region, spend, d)
  {
    var keys := Listing(TopupKeys(d, team, region));
    LeftOverIsSum(d.topups, keys, TopupKeys(d, team, region));
    assert Lists(keys, d.topups, team, region);
  }

  /**
   * In every run, each success leaves the proxy's budget at the team's spend, plus all that it had left with
   * the new top-up, at that point of the run where the purchase asked for the spend.
   */
  lemma SuccessSetsBudget(g: Ground, s: System, events: seq<Event>, id: Id)
    requires Idle(s) && At(Run(g, s, events), id)
    requires Run(g, s, events).requests[id].phase.Paid? && Run(g, s, events).requests[id].job.Buy?
    ensures
      var z := Run(g, s, events);
      var job, next := z.requests[id].job, Step(g, z, Commit(id));
      exists n: nat | n < |events| ::
        && events[n] == Inform(id, true)
        && var w := Run(g, s, events[..n]);
           var entered := w.db.topups[(job.team, job.region, job.stripe) := Topup(job.amount, 0, job.live)];
           BudgetCovers(next.proxy, job.team, job.region, Get(w.proxy.spends, (job.team, job.region)).GetOr(0),
                        w.db.(topups := entered))
  {
    SuccessKeepsReading(g, s, events, id);
    var z := Run(g, s, events);
    var job, next := z.requests[id].job, Step(g, z, Commit(id));
    hide Run, Step, Idle, Target, Remaining;
    var n: nat :| n < |events| && events[n] == Inform(id, true)
      && var (spend, remaining) := Reading(Run(g, s, events[..n]), job);
         LimitOf(next.proxy, job.team, job.region) == Target(spend, remaining);
    ReadingCovers(next.proxy, Run(g, s, events[..n]), job);
  }

  lemma ReadingCovers(p: Proxies, w: System, job: Job)
    requires job.Buy?
    requires
      var (spend, remaining) := Reading(w, job);
      LimitOf(p, job.team, job.region) == Target(spend, remaining)
    ensures
      var entered := w.db.topups[(job.team, job.region, job.stripe) := Topup(job.amount, 0, job.live)];
      BudgetCovers(p, job.team, job.region, Get(w.proxy.spends, (job.team, job.region)).GetOr(0), w.db.(topups := entered))
  {
    hide Balance, BudgetCovers;
    TargetCovers(p, job.team, job.region, SpendOf(w.proxy, job.team, job.region),
                 w.db.(topups := StagedTopups(w.db, job)));
  }

  /** The credit and the limit carry the figures that were read. */
  lemma SuccessKeepsReading(g: Ground, s: System, events: seq<Event>, id: Id)
    requires Idle(s) && At(Run(g, s, events), id)
    requires Run(g, s, events).requests[id].phase.Paid? && Run(g, s, events).requests[id].job.Buy?
    ensures
      var z := Run(g, s, events);
      var job, next := z.requests[id].job, Step(g, z, Commit(id));
      exists n: nat | n < |events| ::
        && events[n] == Inform(id, true)
        && var (spend, remaining) := Reading(Run(g, s, events[..n]), job);
           && next.credits == z.credits + [CreditFor(job, spend, remaining)]
           && LimitOf(next.proxy, job.team, job.region) == Target(spend, remaining)
  {
    RunKeepsLimits(g, s, events);
    assert events[..|events|] == events;
    FiguresWereRead(g, s, events, id, |events|);
    var z := Run(g, s, events);
    var q := z.requests[id];
    hide LimitsKnown, Run, Target, Reading, Idle, Step, LimitOf;
    PaidCommits(g, z, id);
    var n: nat :| n < |events| && ReadAt(g, s, events, id, q.job, Figures(q.phase).value, n);
  }

  lemma PaidCommits(g: Ground, z: System, id: Id)
    requires LimitsKnown(z) && At(z, id) && z.requests[id].phase.Paid? && z.requests[id].job.Buy?
    ensures
      var q, next := z.requests[id], Step(g, z, Commit(id));
      && next.credits == z.credits + [CreditFor(q.job, q.phase.spend, q.phase.remaining)]
      && LimitOf(next.proxy, q.job.team, q.job.region) == Target(q.phase.spend, q.phase.remaining)
  {
    assert LimitKnown(z.proxy, z.requests[id]);
    hide LimitsKnown, Bought, Target;
  }

  // ------------------------------------------------------------ when nothing is spent in between

  /** The event is no spending, expiry or new entry of this team in this region. */
  predicate Undisturbing(e: Event, team: Id, region: Id) {
    match e
    case Spend(t, r, _) => (t, r) != (team, region)
    case Consume(k, _) => (k.0, k.1) != (team, region)
    case Expire(k) => (k.0, k.1) != (team, region)
    case Subscribe(t, r, _) => (t, r) != (team, region)
    case RollOver(t, r, _) => (t, r) != (team, region)
    case _ => true
  }

  /** The same ledger entries of this team in this region. */
  ghost predicate SameEntries(d: Tables, e: Tables, team: Id, region: Id) {
    && Get(d.subscriptions, (team, region)) == Get(e.subscriptions, (team, region))
    && Get(d.rollovers, (team, region)) == Get(e.rollovers, (team, region))
    && forall k: (Id, Id, Stripe) | k.0 == team && k.1 == region :: Get(d.topups, k) == Get(e.topups, k)
  }

  lemma {:induction false} SameSum(a: map<(Id, Id, Stripe), Topup>, b: map<(Id, Id, Stripe), Topup>,
                                   keys: set<(Id, Id, Stripe)>)
    requires keys <= a.Keys && keys <= b.Keys && forall k | k in keys :: a[k] == b[k]
    ensures SumLeft(a, keys) == SumLeft(b, keys)
    decreases |keys|
  {
    if keys != {} {
      var k :| k in keys;
      SumLeftWithout(a, keys, k);
      SumLeftWithout(b, keys, k);
      SameSum(a, b, keys - {k});
    }
  }

  lemma SameBalance(d: Tables, e: Tables, team: Id, region: Id)
    requires SameEntries(d, e, team, region)
    ensures Balance(d, team, region) == Balance(e, team, region)
  {
    var keys := TopupKeys(d, team, region);
    forall k: (Id, Id, Stripe) | k.0 == team && k.1 == region
      ensures k in d.topups <==> k in e.topups
      ensures k in d.topups ==> d.topups[k] == e.topups[k]
    {
      assert Get(d.topups, k) == Get(e.topups, k);
    }
    assert keys == TopupKeys(e, team, region);
    SameSum(d.topups, e.topups, keys);
  }

  /** The team's spend and entries in the region are as they were. */
  ghost predicate SameFigures(z: System, t: System, team: Id, region: Id) {
    SpendOf(t.proxy, team, region) == SpendOf(z.proxy, team, region) && SameEntries(z.db, t.db, team, region)
  }

  lemma WorldElsewhere(g: Ground, z: System, e: Event, team: Id, region: Id)
    requires !OfRequest(e) && Undisturbing(e, team, region)
    ensures SameFigures(z, Step(g, z, e), team, region)
  {
    hide KeysOf;
  }

  /** Only a commit writes top-ups, and no request writes spend. */
  lemma StagingElsewhere(g: Ground, z: System, e: Event, team: Id, region: Id)
    requires OfRequest(e) && !e.Commit? && !e.CommitFailed? && At(z, e.id)
    ensures SameFigures(z, RequestStep(g, z, e), team, region)
  {
    OnlyCommitsStore(g, z, e);
    hide RequestStep, SameEntries;
    SameButCaps(z.db, RequestStep(g, z, e).db, team, region);
  }

  lemma SameButCaps(d: Tables, e: Tables, team: Id, region: Id)
    requires e == d.(caps := e.caps)
    ensures SameEntries(d, e, team, region)
  {
  }

  lemma CommitElsewhere(z: System, id: Id, team: Id, region: Id)
    requires At(z, id) && (z.requests[id].phase.Paid? || z.requests[id].phase.Failing? ==> z.requests[id].job.region != region)
    ensures SameFigures(z, Committed(z, id), team, region) && SameFigures(z, FailureCommitted(z, id), team, region)
  {
    hide NewPurchases;
  }

  /** Only the lock's holder commits top-ups in its region. */
  lemma OthersEntriesElsewhere(g: Ground, z: System, e: Event, id: Id)
    requires LocksHeld(z) && At(z, id) && InTransaction(z.requests[id])
    requires Undisturbing(e, z.requests[id].job.team, z.requests[id].job.region)
    requires e != Commit(id) && e != CommitFailed(id)
    ensures SameFigures(z, Step(g, z, e), z.requests[id].job.team, z.requests[id].job.region)
  {
    var job := z.requests[id].job;
    if !OfRequest(e) {
      hide SameFigures, Step;
      WorldElsewhere(g, z, e, job.team, job.region);
    } else if At(z, e.id) {
      if e.Commit? || e.CommitFailed? {
        if z.requests[e.id].phase.Paid? || z.requests[e.id].phase.Failing? {
          if z.requests[e.id].job.region == job.region {
            OneAtATime(z, e.id, id);
          }
        }
        hide SameFigures, Committed, FailureCommitted, LocksHeld;
        CommitElsewhere(z, e.id, job.team, job.region);
      } else {
        hide SameFigures, RequestStep, LocksHeld;
        StagingElsewhere(g, z, e, job.team, job.region);
      }
    }
  }

  /** The purchase still carries its figures, and its team's spend and entries are as it read them; or it has failed. */
  ghost predicate Undisturbed(w: System, z: System, id: Id, figures: (nat, nat)) {
    && At(w, id) && At(z, id) && z.requests[id].job == w.requests[id].job && w.requests[id].job.Buy?
    && LocksHeld(z)
    && var q := z.requests[id];
       && (q.phase.Failing? || q.phase.Done? || Figures(q.phase) == Some(figures))
       && (Figures(q.phase).Some? ==> SameFigures(w, z, q.job.team, q.job.region))
  }

  /** From its figures a purchase goes on to pay, to fail or to end. */
  ghost predicate GoesOn(q: Request, r: Request) {
    && r.job == q.job
    && (q.phase.Done? ==> r.phase.Done?)
    && (q.phase.Failing? ==> r.phase.Failing? || r.phase.Done?)
    && (Figures(q.phase).Some? ==> r.phase.Failing? || r.phase.Done? || Figures(r.phase) == Figures(q.phase))
  }

  lemma FiguresGoOn(g: Ground, z: System, e: Event, id: Id)
    requires At(z, id)
    ensures At(Step(g, z, e), id) && GoesOn(z.requests[id], Step(g, z, e).requests[id])
    ensures (e == Commit(id) || e == CommitFailed(id)) && Step(g, z, e) != z ==> Step(g, z, e).requests[id].phase.Done?
  {
    hide RequestStep, Expired, Consumed, Spent, KeysOf;
    if OfRequest(e) && At(z, e.id) {
      RequestGoesOn(g, z, e, id);
    }
  }

  lemma CallGoesOn(g: Ground, z: System, e: Event, id: Id)
    requires Calling(e) && At(z, e.id) && At(z, id)
    ensures At(RequestStep(g, z, e), id) && GoesOn(z.requests[id], RequestStep(g, z, e).requests[id])
  {
    hide Remaining, Opened, KeysOf, WithLimit, Target;
  }

  lemma RequestGoesOn(g: Ground, z: System, e: Event, id: Id)
    requires OfRequest(e) && At(z, e.id) && At(z, id)
    ensures At(RequestStep(g, z, e), id) && GoesOn(z.requests[id], RequestStep(g, z, e).requests[id])
    ensures
      var t := RequestStep(g, z, e);
      (e == Commit(id) || e == CommitFailed(id)) && t != z ==> t.requests[id].phase.Done?
  {
    hide EverPurchased, PurchaseBusy, PaymentBusy, Bought, NotBought, WithLimit, TeamInformed, BudgetRaised, KeysSynced;
    if Calling(e) {
      hide RequestStep;
      CallGoesOn(g, z, e, id);
    }
  }

  lemma StepKeepsUndisturbed(g: Ground, w: System, z: System, e: Event, id: Id, figures: (nat, nat))
    requires Undisturbed(w, z, id, figures) && Undisturbing(e, w.requests[id].job.team, w.requests[id].job.region)
    ensures Undisturbed(w, Step(g, z, e), id, figures)
  {
    hide Step, Undisturbing, Reading, SpendOf, LocksHeld;
    StepKeepsLocks(g, z, e);
    FiguresGoOn(g, z, e, id);
    if Figures(z.requests[id].phase).Some? && e != Commit(id) && e != CommitFailed(id) {
      OthersEntriesElsewhere(g, z, e, id);
    }
  }

  lemma {:induction false} RunKeepsUndisturbed(g: Ground, w: System, z: System, events: seq<Event>, id: Id,
                                               figures: (nat, nat))
    requires Undisturbed(w, z, id, figures)
    requires forall e | e in events :: Undisturbing(e, w.requests[id].job.team, w.requests[id].job.region)
    ensures Undisturbed(w, Run(g, z, events), id, figures)
    decreases |events|
  {
    hide Step, Undisturbing;
    if events != [] {
      assert events[0] in events;
      StepKeepsUndisturbed(g, w, z, events[0], id, figures);
      hide Undisturbed;
      RunKeepsUndisturbed(g, w, Step(g, z, events[0]), events[1..], id, figures);
    }
  }

  /**
   * So if nothing of the team's in that region is spent, consumed, expired or added between the reading and
   * the commit, the budget is the team's current spend plus what the ledger now holds, whatever the other
   * requests do in between.
   */
  lemma SuccessMatchesLedger(g: Ground, s: System, before: seq<Event>, id: Id, after: seq<Event>)
    requires Idle(s) && At(Run(g, s, before), id)
    requires Run(g, s, before).requests[id].phase.Recorded? && Run(g, s, before).requests[id].job.Buy?
    requires
      var job := Run(g, s, before).requests[id].job;
      forall e | e in after :: Undisturbing(e, job.team, job.region)
    requires
      var z := Run(g, Step(g, Run(g, s, before), Inform(id, true)), after);
      At(z, id) && z.requests[id].phase.Paid?
    ensures
      var z := Run(g, Step(g, Run(g, s, before), Inform(id, true)), after);
      var job, next := z.requests[id].job, Step(g, z, Commit(id));
      BudgetCovers(next.proxy, job.team, job.region, Get(next.proxy.spends, (job.team, job.region)).GetOr(0), next.db)
  {
    var w := Run(g, s, before);
    var i := Step(g, w, Inform(id, true));
    var z := Run(g, i, after);
    assert LimitsKnown(s);
    hide Run, Undisturbing, LimitsKnown, Idle, Balance, Target, Undisturbed, Step, BudgetCovers;
    RunKeepsLimits(g, s, before);
    StepKeepsLimits(g, w, Inform(id, true));
    RunKeepsLimits(g, i, after);
    JustRead(g, w, id);
    RunKeepsUndisturbed(g, w, i, after, id, Reading(w, w.requests[id].job));
    CommitMatches(g, w, z, id);
    var job, next := z.requests[id].job, Step(g, z, Commit(id));
    TargetCovers(next.proxy, job.team, job.region, SpendOf(next.proxy, job.team, job.region), next.db);
  }

  lemma JustRead(g: Ground, w: System, id: Id)
    requires LimitsKnown(w) && At(w, id) && w.requests[id].phase.Recorded? && w.requests[id].job.Buy?
    ensures Undisturbed(w, Step(g, w, Inform(id, true)), id, Reading(w, w.requests[id].job))
  {
    StepKeepsLocks(g, w, Inform(id, true));
    hide LocksHeld, Remaining;
  }

  lemma CommitMatches(g: Ground, w: System, z: System, id: Id)
    requires At(w, id) && w.requests[id].job.Buy? && LimitsKnown(z)
    requires Undisturbed(w, z, id, Reading(w, w.requests[id].job)) && z.requests[id].phase.Paid?
    ensures
      var job, next := z.requests[id].job, Step(g, z, Commit(id));
      LimitOf(next.proxy, job.team, job.region) ==
      Target(SpendOf(next.proxy, job.team, job.region), Balance(next.db, job.team, job.region))
  {
    var job := z.requests[id].job;
    var next := Step(g, z, Commit(id));
    assert LimitKnown(z.proxy, z.requests[id]);
    assert next.db == Bought(z.db, job) && next.proxy == z.proxy;
    hide Step, LimitsKnown, LocksHeld;
    SameBalance(w.db.(topups := StagedTopups(w.db, job)), next.db, job.team, job.region);
  }

  ghost predicate Remembers(s: System, t: System, id: Id) {
    && At(s, id) && At(t, id) && !t.requests[id].phase.Waiting?
    && t.requests[id].before == s.requests[id].before && t.requests[id].job == s.requests[id].job
  }

  lemma StagingRemembers(g: Ground, s: System, e: Event, id: Id)
    requires e.ReadPurchase? || e.StagePurchase? || e.Record? || e.Inform? || e.RaiseBudget?
    requires At(s, e.id) && At(s, id) && !s.requests[id].phase.Waiting?
    ensures Remembers(s, RequestStep(g, s, e), id)
  {
    hide Remaining, PurchaseBusy, PaymentBusy;
  }

  lemma EndingRemembers(g: Ground, s: System, e: Event, id: Id)
    requires OfRequest(e) && !e.ReadPurchase? && !e.StagePurchase? && !e.Record? && !e.Inform? && !e.RaiseBudget?
    requires At(s, e.id) && At(s, id) && !s.requests[id].phase.Waiting?
    ensures Remembers(s, RequestStep(g, s, e), id)
  {
    hide EverPurchased, Opened, Bought, NotBought, KeysOf;
  }

  /** Once its lock is taken, what a request remembers of the old limit does not change. */
  lemma OneStepKeepsMemory(g: Ground, s: System, e: Event, id: Id)
    requires At(s, id) && !s.requests[id].phase.Waiting?
    ensures Remembers(s, Step(g, s, e), id)
  {
    hide RequestStep, Consumed, Expired, Spent, KeysOf;
    if OfRequest(e) && At(s, e.id) {
      if e.ReadPurchase? || e.StagePurchase? || e.Record? || e.Inform? || e.RaiseBudget? {
        StagingRemembers(g, s, e, id);
      } else {
        EndingRemembers(g, s, e, id);
      }
    }
  }

  lemma {:induction false} RunKeepsMemory(g: Ground, s: System, events: seq<Event>, id: Id)
    requires At(s, id) && !s.requests[id].phase.Waiting?
    ensures
      var t := Run(g, s, events);
      At(t, id) && t.requests[id].before == s.requests[id].before && t.requests[id].job == s.requests[id].job
    decreases |events|
  {
    hide Step;
    if events != [] {
      OneStepKeepsMemory(g, s, events[0], id);
      RunKeepsMemory(g, Step(g, s, events[0]), events[1..], id);
    }
  }

  /**
   * A failing purchase leaves the team's budget as it found it when it took the lock, exactly unless a raise
   * that it could not take back has left the raised budget there: a lost answer, or a failed rollback.
   */
  lemma FailureRestoresBudget(g: Ground, s: System, id: Id, events: seq<Event>, z: System)
    requires LimitsKnown(s) && At(s, id) && s.requests[id].phase.Waiting? && Locked(s, id).requests[id].phase.Holding?
    requires z == Run(g, Locked(s, id), events) && At(z, id) && z.requests[id].phase.Failing?
    ensures
      var job := s.requests[id].job;
      LimitOf(z.proxy, job.team, job.region) == z.requests[id].phase.left.GetOr(LimitOf(s.proxy, job.team, job.region))
  {
    var held := Locked(s, id);
    assert held.requests[id].before == LimitOf(s.proxy, s.requests[id].job.team, s.requests[id].job.region);
    assert held.requests[id].job == s.requests[id].job;
    LockKeepsLimits(s, id);
    hide LimitsKnown, Locked, Run;
    RunKeepsLimits(g, held, events);
    RunKeepsMemory(g, held, events, id);
    KnownOf(z, id);
  }

  /**
   * What is left there: the raised budget right after a lost answer and after a failed key call, and after
   * the rollback exactly if that failed.
   */
  lemma WhatAFailureLeaves(g: Ground, s: System, id: Id, result: CallResult, failed: set<Id>, landed: set<Id>, works: bool)
    requires At(s, id) && s.requests[id].phase.Informed? && s.requests[id].job.Buy?
    ensures
      var q := s.requests[id];
      var raised := Target(q.phase.spend, q.phase.remaining);
      var a := Step(g, s, RaiseBudget(id, result));
      var b := Step(g, a, SyncKeys(id, failed, landed));
      var c := Step(g, b, Restore(id, works));
      && (result == Fails ==> a.requests[id].phase == Failing(false, None))
      && (result == Unheard ==> a.requests[id].phase == Failing(false, Some(raised)) && c == a)
      && (result == Works && q.job.team in g.gated && KeysOf(g, q.job.team, q.job.region) * failed != {} ==>
           && b.requests[id].phase == Failing(true, Some(raised))
           && c.requests[id].phase == Failing(false, if works then None else Some(raised)))
  {
    hide KeysOf, Opened, Target, WithLimit;
  }
}
