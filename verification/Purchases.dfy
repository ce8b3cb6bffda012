/**
 * Purchases as a transition system. Any number of requests are in flight, each in its own database
 * transaction, and every call to a proxy may fail. A purchase stages rows in three tables, raises the team's
 * budget on the region's proxy, opens the team's keys, and commits; a row lock on the region serialises it
 * against other purchases there, against deactivating the region and against clearing a key's budget.
 *
 * What a request has staged but not committed is kept with the request, so that a crash simply drops it.
 */
module Purchases {
  import opened Common

  type Id = nat
  type Stripe = string

  /** Money is in cents, except on the proxies, where it is in units of 1/10000 dollar. */
  const UNITS_PER_CENT := 100
  const PERIODIC_BUDGET_DURATION := "31d"

  datatype SyncStatus = Success | SyncFailed

  /** `row` stands for the primary key: it counts the rows there have been for this payment. */
  datatype Purchase = Purchase(row: nat, team: Id, region: Id, amount: nat)

  /** A top-up entry of the ledger. It stops counting once it is no longer live. */
  datatype Topup = Topup(amount: nat, consumed: nat, live: bool)

  datatype Limit = Limit(max: Option<int>, duration: Option<string>)

  /** A key on its proxy: held at zero, inheriting its team's budget, or under its configured cap. */
  datatype KeyState = Gated | Inheriting | Capped(cap: nat)

  /** What does not change: which keys a team has in a region, and which teams are purchase-gated. */
  datatype Ground = Ground(keys: map<(Id, Id), set<Id>>, gated: set<Id>)

  function KeysOf(g: Ground, team: Id, region: Id): set<Id> {
    Get(g.keys, (team, region)).GetOr({})
  }

  /** No key belongs to two teams or regions. */
  ghost predicate KeysApart(g: Ground) {
    forall p, q | p in g.keys && q in g.keys && p != q :: g.keys[p] !! g.keys[q]
  }

  /** `belongs` says whether the region is assigned to the team; `live` whether the top-up's expiry lies ahead. */
  datatype Job =
    | Buy(pool: bool, team: Id, region: Id, stripe: Stripe, amount: nat, belongs: bool, live: bool)
    | ClearKey(team: Id, region: Id, key: Id)

  datatype Answer = Created | NotFound | Refused | Duplicate | ProxyFailed | Cleared | Crashed

  /** Where a request has got to. Between `Holding` and `Done` it holds its region's lock. */
  datatype Phase =
    | Waiting
    | Holding
    | Found(row: Option<nat>)
    | PurchaseStaged
    | Recorded
    | Informed(spend: nat, remaining: nat)
    | Budgeted(spend: nat, remaining: nat)
    | Paid(spend: nat, remaining: nat)
    | Failing(owed: bool, left: Option<Limit>)
    | Deciding(gate: bool)
    | KeyWritten
    | Done(answer: Answer)

  /**
   * `retry` is set when the request found a failed attempt whose rows it will replace; `before` is the
   * team's limit on the proxy when the lock was taken. A failing purchase has left
   * the proxy at `left`, or at `before`, and is `owed` its rollback while it knows that it raised the budget.
   */
  datatype Request = Request(job: Job, phase: Phase, retry: bool, before: Limit)

  /** A purchase answered with success, with the spend and the remaining balance it was computed from. */
  datatype Credit = Credit(stripe: Stripe, team: Id, region: Id, amount: nat, pool: bool, spend: nat, remaining: nat)

  /**
   * The committed rows. `subscriptions` and `rollovers` are the ledger's entries of the other kinds, by team
   * and region: an entry says that such rows exist, with what remains of them, which may be nothing.
   */
  datatype Tables = Tables(
    purchases: map<Stripe, Purchase>, payments: map<Stripe, SyncStatus>, topups: map<(Id, Id, Stripe), Topup>,
    subscriptions: map<(Id, Id), nat>, rollovers: map<(Id, Id), nat>, caps: map<Id, nat>)

  datatype Proxies = Proxies(spends: map<(Id, Id), nat>, limits: map<(Id, Id), Limit>, keys: map<Id, KeyState>)

  datatype System = System(active: map<Id, bool>, locks: map<Id, Id>, requests: map<Id, Request>, db: Tables,
                           proxy: Proxies, credits: seq<Credit>)

  // ------------------------------------------------------------ what the steps read

  predicate InTransaction(q: Request) {
    !q.phase.Waiting? && !q.phase.Done?
  }

  predicate HasStagedPurchase(q: Request) {
    && q.job.Buy? && q.job.pool
    && (q.phase.PurchaseStaged? || HasStagedPayment(q))
  }

  predicate HasStagedPayment(q: Request) {
    && q.job.Buy?
    && (q.phase.Recorded? || q.phase.Informed? || q.phase.Budgeted? || q.phase.Paid? || q.phase.Failing?)
  }

  function LimitOf(p: Proxies, team: Id, region: Id): Limit {
    Get(p.limits, (team, region)).GetOr(Limit(None, None))
  }

  function TopupKey(job: Job): (Id, Id, Stripe)
    requires job.Buy?
  {
    (job.team, job.region, job.stripe)
  }

  predicate HasTopup(d: Tables, team: Id, region: Id) {
    exists k | k in d.topups :: k.0 == team && k.1 == region
  }

  predicate HasPurchase(d: Tables, team: Id, region: Id) {
    exists x | x in d.purchases :: d.purchases[x].team == team && d.purchases[x].region == region
  }

  /** `pool_team_has_ever_purchased`, on committed rows: a ledger entry of any kind, or a pool purchase. */
  predicate EverPurchased(d: Tables, team: Id, region: Id) {
    || HasTopup(d, team, region) || (team, region) in d.subscriptions || (team, region) in d.rollovers
    || HasPurchase(d, team, region)
  }

  function Left(t: Topup): nat {
    if t.live && t.consumed < t.amount then t.amount - t.consumed else 0
  }

  ghost function SumLeft(topups: map<(Id, Id, Stripe), Topup>, keys: set<(Id, Id, Stripe)>): nat
    requires keys <= topups.Keys
  {
    if keys == {} then 0
    else
      var k :| k in keys;
      Left(topups[k]) + SumLeft(topups, keys - {k})
  }

  /** The sum does not depend on the order in which the rows are taken. */
  lemma {:induction false} SumLeftWithout(topups: map<(Id, Id, Stripe), Topup>, keys: set<(Id, Id, Stripe)>,
                                          k: (Id, Id, Stripe))
    requires keys <= topups.Keys && k in keys
    ensures SumLeft(topups, keys) == Left(topups[k]) + SumLeft(topups, keys - {k})
  {
    var j :| j in keys && SumLeft(topups, keys) == Left(topups[j]) + SumLeft(topups, keys - {j});
    var rest := keys - {j};
    assert SumLeft(topups, keys) == Left(topups[j]) + SumLeft(topups, rest);
    if j != k {
      SumLeftWithout(topups, rest, k);
      SumLeftWithout(topups, keys - {k}, j);
      assert rest - {k} == keys - {k} - {j};
    }
  }

  function TopupKeys(d: Tables, team: Id, region: Id): set<(Id, Id, Stripe)> {
    set k | k in d.topups && k.0 == team && k.1 == region
  }

  /** `compute_active_topup_remaining`: top-ups and rollovers. */
  ghost function TopupRemaining(d: Tables, team: Id, region: Id): nat {
    Get(d.rollovers, (team, region)).GetOr(0) + SumLeft(d.topups, TopupKeys(d, team, region))
  }

  // ------------------------------------------------------------ the steps

  datatype CallResult = Works | Fails | Unheard

  datatype Event =
    | Begin(id: Id, job: Job)
    | Lock(id: Id)
    | ReadPurchase(id: Id)
    | StagePurchase(id: Id)
    | Record(id: Id)
    | Inform(id: Id, works: bool)
    | RaiseBudget(id: Id, result: CallResult)
    | SyncKeys(id: Id, failed: set<Id>, landed: set<Id>)
    | Commit(id: Id)
    | Restore(id: Id, works: bool)
    | CommitFailed(id: Id)
    | Decide(id: Id)
    | WriteKey(id: Id, result: CallResult)
    | CommitClear(id: Id, informed: bool)
    | Crash(id: Id)
    | SetActive(region: Id, active: bool)
    | Spend(team: Id, region: Id, amount: nat)
    | Consume(topup: (Id, Id, Stripe), amount: nat)
    | Expire(topup: (Id, Id, Stripe))
    | Subscribe(team: Id, region: Id, remaining: nat)
    | RollOver(team: Id, region: Id, remaining: nat)

  predicate At(s: System, id: Id) {
    id in s.requests
  }

  /** The request goes on, having written to the proxies perhaps. */
  function Moved(s: System, id: Id, proxy: Proxies, q: Request): System {
    s.(requests := s.requests[id := q], proxy := proxy)
  }

  /** The transaction ends, leaving these committed rows: its lock is released. */
  function Ended(s: System, id: Id, db: Tables, proxy: Proxies, credits: seq<Credit>, answer: Answer): System
    requires At(s, id)
  {
    var q := s.requests[id];
    System(s.active,
           if Get(s.locks, q.job.region) == Some(id) then s.locks - {q.job.region} else s.locks,
           s.requests[id := q.(phase := Done(answer))], db, proxy, credits)
  }

  /** The transaction ends with nothing of its own committed. */
  function Dropped(s: System, id: Id, answer: Answer): System
    requires At(s, id)
  {
    Ended(s, id, s.db, s.proxy, s.credits, answer)
  }

  function Begun(g: Ground, s: System, id: Id, job: Job): System {
    if At(s, id) then s
    else
      var refused := if job.Buy? then job.amount == 0 || (job.pool && job.team !in g.gated)
                     else job.team !in g.gated || job.key !in KeysOf(g, job.team, job.region);
      s.(requests := s.requests[id := Request(job, if refused then Done(Refused) else Waiting, false, Limit(None, None))])
  }

  /** `SELECT ... FOR UPDATE`: waits while another transaction holds the row, then sees its latest state. */
  function Locked(s: System, id: Id): System
    requires At(s, id)
  {
    var q := s.requests[id];
    if !q.phase.Waiting? || q.job.region in s.locks then s
    else if Get(s.active, q.job.region) != Some(true) then Dropped(s, id, NotFound)
    else
      s.(locks := s.locks[q.job.region := id],
         requests := s.requests[id := q.(phase := Holding, before := LimitOf(s.proxy, q.job.team, q.job.region))])
  }

  function RowOf(d: Tables, stripe: Stripe): Option<nat> {
    if stripe in d.purchases then Some(d.purchases[stripe].row) else None
  }

  function PurchaseRead(s: System, id: Id): System
    requires At(s, id)
  {
    var q := s.requests[id];
    if !q.phase.Holding? || !q.job.Buy? || !q.job.pool then s
    else if q.job.stripe in s.db.purchases && Get(s.db.payments, q.job.stripe) != Some(SyncFailed) then
      Dropped(s, id, Duplicate)
    else
      Moved(s, id, s.proxy, q.(phase := Found(RowOf(s.db, q.job.stripe)), retry := q.job.stripe in s.db.purchases))
  }

  /** Another transaction has an uncommitted purchase row for this payment, or a payment row a retry would delete. */
  predicate PurchaseBusy(s: System, id: Id, stripe: Stripe, retry: bool) {
    exists j | j in s.requests && j != id ::
      && (HasStagedPurchase(s.requests[j]) || (retry && HasStagedPayment(s.requests[j])))
      && s.requests[j].job.stripe == stripe
  }

  /** Another transaction has written or deleted this payment's row and not committed yet. */
  predicate PaymentBusy(s: System, id: Id, stripe: Stripe) {
    exists j | j in s.requests && j != id ::
      && (HasStagedPayment(s.requests[j]) || (HasStagedPurchase(s.requests[j]) && s.requests[j].retry))
      && s.requests[j].job.stripe == stripe
  }

  /** A row that appeared or was replaced since it was read breaks the unique constraint. */
  function PurchaseWritten(s: System, id: Id): System
    requires At(s, id)
  {
    var q := s.requests[id];
    if !q.phase.Found? || !q.job.Buy? || PurchaseBusy(s, id, q.job.stripe, q.retry) then s
    else if RowOf(s.db, q.job.stripe) != q.phase.row then Dropped(s, id, Refused)
    else Moved(s, id, s.proxy, q.(phase := PurchaseStaged))
  }

  /** The payment row, new or reused, and the new top-up entry. */
  function RowsRecorded(s: System, id: Id): System
    requires At(s, id)
  {
    var q := s.requests[id];
    if !q.job.Buy? || !(if q.job.pool then q.phase.PurchaseStaged? else q.phase.Holding?) then s
    else if !q.job.belongs then Dropped(s, id, Refused)
    else if TopupKey(q.job) in s.db.topups && !q.retry then Dropped(s, id, Duplicate)
    else if PaymentBusy(s, id, q.job.stripe) then s
    else Moved(s, id, s.proxy, q.(phase := Recorded))
  }

  /** The ledger as the transaction sees it, with its own entry in place of any stale one. */
  function StagedTopups(d: Tables, job: Job): map<(Id, Id, Stripe), Topup>
    requires job.Buy?
  {
    d.topups[TopupKey(job) := Topup(job.amount, 0, job.live)]
  }

  /** What remains of everything the team has in the region. */
  ghost function Balance(d: Tables, team: Id, region: Id): nat {
    Get(d.subscriptions, (team, region)).GetOr(0) + TopupRemaining(d, team, region)
  }

  /** The balance as the transaction sees it. */
  ghost function Remaining(d: Tables, job: Job): nat
    requires job.Buy?
  {
    Balance(d.(topups := StagedTopups(d, job)), job.team, job.region)
  }

  function SpendOf(p: Proxies, team: Id, region: Id): nat {
    Get(p.spends, (team, region)).GetOr(0)
  }

  ghost function TeamInformed(s: System, id: Id, works: bool): System
    requires At(s, id)
  {
    var q := s.requests[id];
    if !q.phase.Recorded? || !q.job.Buy? then s
    else if !works then Moved(s, id, s.proxy, q.(phase := Failing(false, None)))
    else Moved(s, id, s.proxy, q.(phase := Informed(SpendOf(s.proxy, q.job.team, q.job.region), Remaining(s.db, q.job))))
  }

  function Target(spend: nat, remaining: nat): Limit {
    Limit(Some(spend + UNITS_PER_CENT * remaining), Some(PERIODIC_BUDGET_DURATION))
  }

  function WithLimit(p: Proxies, team: Id, region: Id, limit: Limit): Proxies {
    p.(limits := p.limits[(team, region) := limit])
  }

  function BudgetRaised(g: Ground, s: System, id: Id, result: CallResult): System
    requires At(s, id)
  {
    var q := s.requests[id];
    match q.phase
    case Informed(spend, remaining) =>
      var raised := if result == Fails then s.proxy else WithLimit(s.proxy, q.job.team, q.job.region, Target(spend, remaining));
      var phase := match result
        case Fails => Failing(false, None)
        case Unheard => Failing(false, Some(Target(spend, remaining)))
        case Works => if q.job.team in g.gated then Budgeted(spend, remaining) else Paid(spend, remaining);
      Moved(s, id, raised, q.(phase := phase))
    case _ => s
  }

  /** Each key is opened, or put under its configured cap. */
  function Opened(caps: map<Id, nat>, keys: set<Id>): map<Id, KeyState> {
    map k | k in keys :: if k in caps then Capped(caps[k]) else Inheriting
  }

  /** The calls for all keys run side by side; a failed one may or may not have landed. */
  function KeysSynced(g: Ground, s: System, id: Id, failed: set<Id>, landed: set<Id>): System
    requires At(s, id)
  {
    var q := s.requests[id];
    match q.phase
    case Budgeted(spend, remaining) =>
      var keys := KeysOf(g, q.job.team, q.job.region);
      var written := s.proxy.keys + Opened(s.db.caps, (keys - failed) + (keys * landed));
      Moved(s, id, s.proxy.(keys := written),
            q.(phase := if keys * failed == {} then Paid(spend, remaining) else Failing(true, Some(Target(spend, remaining)))))
    case _ => s
  }

  function NewPurchases(d: Tables, job: Job): map<Stripe, Purchase>
    requires job.Buy?
  {
    var row := if job.stripe in d.purchases then d.purchases[job.stripe].row + 1 else 0;
    if job.pool then d.purchases[job.stripe := Purchase(row, job.team, job.region, job.amount)] else d.purchases
  }

  /** The rows of a purchase that worked, and of one that did not. */
  function Bought(d: Tables, job: Job): Tables
    requires job.Buy?
  {
    d.(purchases := NewPurchases(d, job), payments := d.payments[job.stripe := Success], topups := StagedTopups(d, job))
  }

  /** A failed purchase keeps its purchase and payment rows, for the audit and the retry, and no top-up. */
  function NotBought(d: Tables, job: Job): Tables
    requires job.Buy?
  {
    d.(purchases := NewPurchases(d, job), payments := d.payments[job.stripe := SyncFailed],
       topups := d.topups - {TopupKey(job)})
  }

  function CreditFor(job: Job, spend: nat, remaining: nat): Credit
    requires job.Buy?
  {
    Credit(job.stripe, job.team, job.region, job.amount, job.pool, spend, remaining)
  }

  function Committed(s: System, id: Id): System
    requires At(s, id)
  {
    var q := s.requests[id];
    if !q.phase.Paid? || !q.job.Buy? then s
    else
      Ended(s, id, Bought(s.db, q.job), s.proxy, s.credits + [CreditFor(q.job, q.phase.spend, q.phase.remaining)], Created)
  }

  /** The rollback of the team's budget; its own failure is only logged. */
  function Restored(s: System, id: Id, works: bool): System
    requires At(s, id)
  {
    var q := s.requests[id];
    if !q.phase.Failing? || !q.phase.owed then s
    else
      Moved(s, id, if works then WithLimit(s.proxy, q.job.team, q.job.region, q.before) else s.proxy,
            q.(phase := Failing(false, if works then None else q.phase.left)))
  }

  function FailureCommitted(s: System, id: Id): System
    requires At(s, id)
  {
    var q := s.requests[id];
    if !q.phase.Failing? || q.phase.owed || !q.job.Buy? then s
    else Ended(s, id, NotBought(s.db, q.job), s.proxy, s.credits, ProxyFailed)
  }

  // Clearing a key's budget.

  function Decided(s: System, id: Id): System
    requires At(s, id)
  {
    var q := s.requests[id];
    if !q.phase.Holding? || !q.job.ClearKey? then s
    else Moved(s, id, s.proxy, q.(phase := Deciding(!EverPurchased(s.db, q.job.team, q.job.region))))
  }

  function KeyRewritten(s: System, id: Id, result: CallResult): System
    requires At(s, id)
  {
    var q := s.requests[id];
    if !q.phase.Deciding? || !q.job.ClearKey? then s
    else
      var state := if q.phase.gate then Gated else Inheriting;
      var proxy := if result == Fails then s.proxy else s.proxy.(keys := s.proxy.keys[q.job.key := state]);
      if result == Works then Moved(s, id, proxy, q.(phase := KeyWritten))
      else Ended(s, id, s.db, proxy, s.credits, ProxyFailed)
  }

  /** The cap row goes in the same transaction, which a failed read of the key's state still loses. */
  function ClearCommitted(s: System, id: Id, informed: bool): System
    requires At(s, id)
  {
    var q := s.requests[id];
    if !q.phase.KeyWritten? || !q.job.ClearKey? then s
    else if !informed then Dropped(s, id, ProxyFailed)
    else Ended(s, id, s.db.(caps := s.db.caps - {q.job.key}), s.proxy, s.credits, Cleared)
  }

  // The world around the requests.

  /** The update of a region's row waits for whoever has it locked. */
  function Activated(s: System, region: Id, active: bool): System {
    if region in s.locks then s else s.(active := s.active[region := active])
  }

  function Consumed(d: Tables, k: (Id, Id, Stripe), amount: nat): Tables {
    if k !in d.topups then d
    else d.(topups := d.topups[k := d.topups[k].(consumed := d.topups[k].consumed + amount)])
  }

  function Expired(d: Tables, k: (Id, Id, Stripe)): Tables {
    if k !in d.topups then d else d.(topups := d.topups[k := d.topups[k].(live := false)])
  }

  function Spent(p: Proxies, pair: (Id, Id), amount: nat): Proxies {
    p.(spends := p.spends[pair := Get(p.spends, pair).GetOr(0) + amount])
  }

  predicate OfRequest(e: Event) {
    !e.Begin? && !e.SetActive? && !e.Spend? && !e.Consume? && !e.Expire? && !e.Subscribe? && !e.RollOver?
  }

  ghost function RequestStep(g: Ground, s: System, e: Event): System
    requires OfRequest(e) && At(s, e.id)
  {
    match e
    case Lock(id) => Locked(s, id)
    case ReadPurchase(id) => PurchaseRead(s, id)
    case StagePurchase(id) => PurchaseWritten(s, id)
    case Record(id) => RowsRecorded(s, id)
    case Inform(id, works) => TeamInformed(s, id, works)
    case RaiseBudget(id, result) => BudgetRaised(g, s, id, result)
    case SyncKeys(id, failed, landed) => KeysSynced(g, s, id, failed, landed)
    case Commit(id) => Committed(s, id)
    case Restore(id, works) => Restored(s, id, works)
    case CommitFailed(id) => FailureCommitted(s, id)
    case Decide(id) => Decided(s, id)
    case WriteKey(id, result) => KeyRewritten(s, id, result)
    case CommitClear(id, informed) => ClearCommitted(s, id, informed)
    case Crash(id) => if s.requests[id].phase.Done? then s else Dropped(s, id, Crashed)
  }

  /** An event that is not enabled leaves the system as it is. */
  ghost function Step(g: Ground, s: System, e: Event): System {
    match e
    case Begin(id, job) => Begun(g, s, id, job)
    case SetActive(region, active) => Activated(s, region, active)
    case Spend(team, region, amount) => s.(proxy := Spent(s.proxy, (team, region), amount))
    case Consume(k, amount) => s.(db := Consumed(s.db, k, amount))
    case Expire(k) => s.(db := Expired(s.db, k))
    case Subscribe(team, region, remaining) =>
      s.(db := s.db.(subscriptions := s.db.subscriptions[(team, region) := remaining]))
    case RollOver(team, region, remaining) => s.(db := s.db.(rollovers := s.db.rollovers[(team, region) := remaining]))
    case _ => if At(s, e.id) then RequestStep(g, s, e) else s
  }

  ghost function Run(g: Ground, s: System, events: seq<Event>): System
    decreases |events|
  {
    if events == [] then s else Run(g, Step(g, s, events[0]), events[1..])
  }

  /** A run goes on where it was left. */
  lemma {:induction false} RunTwice(g: Ground, s: System, events: seq<Event>, later: seq<Event>)
    ensures Run(g, s, events + later) == Run(g, Run(g, s, events), later)
    decreases |events|
  {
    hide Step;
    if events == [] {
      assert [] + later == later;
    } else {
      assert (events + later)[1..] == events[1..] + later;
      RunTwice(g, Step(g, s, events[0]), events[1..], later);
    }
  }

  lemma RunLast(g: Ground, s: System, events: seq<Event>, n: nat)
    requires n < |events|
    ensures Run(g, s, events[..n + 1]) == Step(g, Run(g, s, events[..n]), events[n])
  {
    hide Step;
    assert events[..n + 1] == events[..n] + [events[n]];
    RunTwice(g, s, events[..n], [events[n]]);
    assert [events[n]][1..] == [];
  }

  /** Before the first request: nothing in flight, nothing bought, nothing credited. */
  predicate Idle(s: System) {
    && s.requests == map[] && s.locks == map[] && s.credits == []
    && s.db.purchases == map[] && s.db.payments == map[] && s.db.topups == map[]
  }
}
