/**
  The point-of-sale engines driven by simulated time: the chain of generation jobs, one a day
  for each merchant, and the settlement jobs it schedules.
*/
module PosSchedule {
  import opened Prelude
  import opened Calendar
  import opened Fees
  import opened SimScheduler
  import opened Pos

  /** The two registered handlers; neither fails. */
  function Handle(sample: Sampler, db: Db, p: Payload): Outcome<Db, Payload> {
    match p
    case GenerateDay(tenant, merchant, date) =>
      Outcome(Sell(db, tenant, merchant, date, DayAmounts(sample, db, tenant, merchant, date)),
              DayRequests(sample, db, tenant, merchant, date), true)
    case SettleDay(tenant, merchant, date) =>
      Outcome(Settle(db, tenant, merchant, date), [], true)
  }

  function Handlers(sample: Sampler): Registry<Db, Payload> {
    Registry((p: Payload) => true, (at: int, db: Db, j: Job<Payload>) => Handle(sample, db, j.payload))
  }

  predicate Generates(p: Payload, tenant: int, merchant: int) {
    p.GenerateDay? && p.tenant == tenant && p.merchant == merchant
  }

  predicate Settles(p: Payload, tenant: int, merchant: int) {
    p.SettleDay? && p.tenant == tenant && p.merchant == merchant
  }

  /** The merchant's only waiting generation job is g, for date d. */
  ghost predicate Chain(s: Sys<Db, Payload>, tenant: int, merchant: int, d: int, g: nat) {
    && Known(s.world, tenant, merchant)
    && g < |s.jobs| && s.jobs[g] == Job(Some(tenant), d * DAY, GenerateDay(tenant, merchant, d), Waiting)
    && forall i | 0 <= i < |s.jobs| && s.jobs[i].status == Waiting && Generates(s.jobs[i].payload, tenant, merchant) ::
         i == g
  }

  ghost predicate Logged(s: Sys<Db, Payload>) {
    forall k | 0 <= k < |s.log| :: s.log[k].job < |s.jobs|
  }

  /** The dates generated for the merchant so far, in the order they were. */
  ghost function Dates(jobs: seq<Job<Payload>>, log: seq<Firing>, tenant: int, merchant: int): seq<int> {
    if log == [] then []
    else
      var f := log[|log| - 1];
      Dates(jobs, log[..|log| - 1], tenant, merchant)
      + if f.job < |jobs| && Generates(jobs[f.job].payload, tenant, merchant) then [jobs[f.job].payload.date] else []
  }

  ghost function Interval(d: int, n: nat): seq<int> {
    seq(n, k => d + k)
  }

  // ---- one job ----------------------------------------------------------

  /** The job table after job i has run and asked for `requests`. */
  lemma JobRuns(sample: Sampler, s: Sys<Db, Payload>, i: nat)
    requires i < |s.jobs|
    ensures var t, o := RunJob(Handlers(sample), s, i), Handle(sample, s.world, s.jobs[i].payload);
            && t.world == o.world && t.clock == s.clock
            && t.log == s.log + [Firing(i, s.jobs[i].fireAt, s.clock)]
            && |t.jobs| == |s.jobs| + |o.requests|
            && (forall k | 0 <= k < |s.jobs| ::
                  t.jobs[k] == if k == i then s.jobs[i].(status := Fired) else s.jobs[k])
            && (forall q | 0 <= q < |o.requests| ::
                  t.jobs[|s.jobs| + q]
                  == Job(o.requests[q].tenant, o.requests[q].fireAt, o.requests[q].payload, Waiting))
  {
    hide Handle;
    HandleReturns(sample, s.world, s.jobs[i].payload);
  }

  /**
    A generation job has fired afterwards whatever the merchant is. For an unknown merchant nothing
    else happens; an inactive one sells nothing and waits for its next day; an active one sells the
    amounts drawn for the job's date, in order, and then waits for its next day and, if it sold
    anything, for the settlement of what it sold.
  */
  lemma GenerationRuns(sample: Sampler, s: Sys<Db, Payload>, i: nat)
    requires i < |s.jobs| && s.jobs[i].payload.GenerateDay? && ValidMerchants(s.world)
    ensures var t := RunJob(Handlers(sample), s, i);
            var tenant, merchant, date := s.jobs[i].payload.tenant, s.jobs[i].payload.merchant, s.jobs[i].payload.date;
            var n := |s.jobs|;
            var next := Job(Some(tenant), (date + 1) * DAY, GenerateDay(tenant, merchant, date + 1), Waiting);
            && t.world == s.world.(txns := t.world.txns)
            && n <= |t.jobs| && t.jobs[..n] == s.jobs[i := s.jobs[i].(status := Fired)]
            && if merchant !in s.world.merchants || s.world.merchants[merchant].tenant != tenant then
                 t.world == s.world && |t.jobs| == n
               else if !s.world.merchants[merchant].active then
                 t.world == s.world && |t.jobs| == n + 1 && t.jobs[n] == next
               else
                 var amounts := sample(tenant, merchant, date);
                 && DaySold(s.world.txns, t.world.txns, tenant, merchant, s.world.merchants[merchant].terms, date,
                            amounts)
                 && |t.jobs| == (if amounts == [] then n + 1 else n + 2) && t.jobs[n] == next
                 && (amounts != [] ==>
                       var settled := t.world.txns[|s.world.txns|].expected;
                       t.jobs[n + 1]
                       == Job(Some(tenant), settled * DAY, SettleDay(tenant, merchant, settled), Waiting))
  {
    var p := s.jobs[i].payload;
    JobRuns(sample, s, i);
    GenerationIs(sample, s.world, p.tenant, p.merchant, p.date);
    DayIs(sample, s.world, p.tenant, p.merchant, p.date);
    hide RunJob, Handlers, Handle, Sell, DayAmounts, DayRequests;
    var t, r := RunJob(Handlers(sample), s, i), Handle(sample, s.world, p).requests;
    assert |r| > 0 ==> t.jobs[|s.jobs| + 0].payload == r[0].payload;
    assert |r| > 1 ==> t.jobs[|s.jobs| + 1].payload == r[1].payload;
  }

  lemma GenerationIs(sample: Sampler, db: Db, tenant: int, merchant: int, date: int)
    ensures var o := Handle(sample, db, GenerateDay(tenant, merchant, date));
            && o.world == Sell(db, tenant, merchant, date, DayAmounts(sample, db, tenant, merchant, date))
            && o.requests == DayRequests(sample, db, tenant, merchant, date)
  {
  }

  /** A settlement job settles what is pending of its merchant and date, whenever it runs, and asks for nothing. */
  lemma SettlementRuns(sample: Sampler, s: Sys<Db, Payload>, i: nat, k: nat)
    requires i < |s.jobs| && s.jobs[i].payload.SettleDay? && k < |s.world.txns|
    requires Known(s.world, s.jobs[i].payload.tenant, s.jobs[i].payload.merchant)
    ensures var t, p, x := RunJob(Handlers(sample), s, i), s.jobs[i].payload, s.world.txns[k];
            && t.jobs == s.jobs[i := s.jobs[i].(status := Fired)]
            && |t.world.txns| == |s.world.txns|
            && t.world.txns[k] ==
                 if x.tenant == p.tenant && x.merchant == p.merchant && x.expected == p.date && x.batch == None
                 then x.(batch := Some(|s.world.batches|)) else x
  {
    var p := s.jobs[i].payload;
    JobRuns(sample, s, i);
    SettleIs(s.world, p.tenant, p.merchant, p.date);
    assert Handle(sample, s.world, p) == Outcome(Settle(s.world, p.tenant, p.merchant, p.date), [], true);
    hide RunJob, Handlers, Handle, Settle, Idle;
  }

  lemma HandleReturns(sample: Sampler, db: Db, p: Payload)
    ensures Handle(sample, db, p).returned
  {
  }

  lemma {:induction false} DatesKept(
    before: seq<Job<Payload>>, after: seq<Job<Payload>>, log: seq<Firing>, tenant: int, merchant: int)
    requires |before| <= |after| && forall k | 0 <= k < |before| :: after[k].payload == before[k].payload
    requires forall k | 0 <= k < |log| :: log[k].job < |before|
    ensures Dates(after, log, tenant, merchant) == Dates(before, log, tenant, merchant)
    decreases |log|
  {
    if log != [] {
      DatesKept(before, after, log[..|log| - 1], tenant, merchant);
    }
  }

  lemma DatesStep(jobs: seq<Job<Payload>>, log: seq<Firing>, f: Firing, tenant: int, merchant: int)
    requires f.job < |jobs|
    ensures Dates(jobs, log + [f], tenant, merchant) == Dates(jobs, log, tenant, merchant)
            + if Generates(jobs[f.job].payload, tenant, merchant) then [jobs[f.job].payload.date] else []
  {
    assert (log + [f])[..|log|] == log;
  }

  /** Neither handler touches the merchant table. */
  lemma HandleMerchants(sample: Sampler, db: Db, p: Payload)
    ensures Handle(sample, db, p).world.merchants == db.merchants
  {
    hide SumOf, NewTxns;
  }

  /** What a job asks for: the next day of its own merchant, and its settlement. */
  lemma HandleRequests(sample: Sampler, db: Db, p: Payload)
    ensures var r := Handle(sample, db, p).requests;
            && |r| <= 2 && (p.SettleDay? ==> r == [])
            && (|r| > 0 ==> p.GenerateDay? && r[0] == NextDay(p.tenant, p.merchant, p.date))
            && (|r| == 2 ==>
                  && Known(db, p.tenant, p.merchant)
                  && r[1] == SettleOn(p.tenant, p.merchant, ExpectedDate(db.merchants[p.merchant].terms, p.date)))
            && (p.GenerateDay? && Known(db, p.tenant, p.merchant) ==> |r| > 0)
  {
    hide ExpectedDate, Sell, Settle;
  }

  /** A new settlement job for the merchant is for its date of settling d. */
  ghost predicate NewSettles(s: Sys<Db, Payload>, t: Sys<Db, Payload>, tenant: int, merchant: int, d: int) {
    && merchant in s.world.merchants
    && forall k | |s.jobs| <= k < |t.jobs| && Settles(t.jobs[k].payload, tenant, merchant) ::
         t.jobs[k].payload.date == ExpectedDate(s.world.merchants[merchant].terms, d)
  }

  ghost predicate NoNewSettles(s: Sys<Db, Payload>, t: Sys<Db, Payload>, tenant: int, merchant: int) {
    forall k | |s.jobs| <= k < |t.jobs| :: !Settles(t.jobs[k].payload, tenant, merchant)
  }

  /** Running the chain's job moves the chain on by a day. */
  lemma ChainMoves(sample: Sampler, s: Sys<Db, Payload>, tenant: int, merchant: int, d: int, g: nat)
    requires Chain(s, tenant, merchant, d, g) && Logged(s)
    ensures var t := RunJob(Handlers(sample), s, g);
            && t.world.merchants == s.world.merchants && Logged(t) && |s.jobs| < |t.jobs|
            && Chain(t, tenant, merchant, d + 1, |s.jobs|)
            && Dates(t.jobs, t.log, tenant, merchant) == Dates(s.jobs, s.log, tenant, merchant) + [d]
            && NewSettles(s, t, tenant, merchant, d)
  {
    hide Dates, ExpectedDate, Handle, RunJob, Handlers;
    var t, p := RunJob(Handlers(sample), s, g), s.jobs[g].payload;
    JobRuns(sample, s, g);
    HandleMerchants(sample, s.world, p);
    HandleRequests(sample, s.world, p);
    DatesKept(s.jobs, t.jobs, s.log, tenant, merchant);
    DatesStep(t.jobs, s.log, Firing(g, s.jobs[g].fireAt, s.clock), tenant, merchant);
    var r := Handle(sample, s.world, p).requests;
    assert t.jobs[|s.jobs| + 0].payload == r[0].payload;
    assert forall k | |s.jobs| <= k < |t.jobs| :: t.jobs[k].payload == r[k - |s.jobs|].payload;
  }

  /** Running any other waiting job leaves the chain as it is. */
  lemma ChainStays(sample: Sampler, s: Sys<Db, Payload>, tenant: int, merchant: int, d: int, g: nat, i: nat)
    requires Chain(s, tenant, merchant, d, g) && Logged(s)
    requires i < |s.jobs| && i != g && s.jobs[i].status == Waiting
    ensures var t := RunJob(Handlers(sample), s, i);
            && t.world.merchants == s.world.merchants && Logged(t) && |s.jobs| <= |t.jobs|
            && Chain(t, tenant, merchant, d, g)
            && Dates(t.jobs, t.log, tenant, merchant) == Dates(s.jobs, s.log, tenant, merchant)
            && NoNewSettles(s, t, tenant, merchant)
  {
    hide Dates, ExpectedDate, Handle, RunJob, Handlers;
    var t, p := RunJob(Handlers(sample), s, i), s.jobs[i].payload;
    JobRuns(sample, s, i);
    HandleMerchants(sample, s.world, p);
    HandleRequests(sample, s.world, p);
    DatesKept(s.jobs, t.jobs, s.log, tenant, merchant);
    DatesStep(t.jobs, s.log, Firing(i, s.jobs[i].fireAt, s.clock), tenant, merchant);
    assert !Generates(p, tenant, merchant);
    var r := Handle(sample, s.world, p).requests;
    assert forall k | |s.jobs| <= k < |t.jobs| :: t.jobs[k].payload == r[k - |s.jobs|].payload;
  }

  // ---- one slice --------------------------------------------------------

  /** Distinct waiting jobs, as a slice takes them up. */
  ghost predicate Ready<P>(jobs: seq<Job<P>>, order: seq<nat>) {
    && (forall p | 0 <= p < |order| :: order[p] < |jobs| && jobs[order[p]].status == Waiting)
    && (forall p, q | 0 <= p < q < |order| :: order[p] != order[q])
  }

  lemma ReadyRest(sample: Sampler, s: Sys<Db, Payload>, order: seq<nat>)
    requires Ready(s.jobs, order) && order != []
    ensures order[0] < |s.jobs| && s.jobs[order[0]].status == Waiting
    ensures forall p | 0 <= p < |order| :: order[p] < |s.jobs|
    ensures Ready(RunJob(Handlers(sample), s, order[0]).jobs, order[1..])
    ensures order[0] !in order[1..] && order == [order[0]] + order[1..]
  {
    hide Handle;
    JobRuns(sample, s, order[0]);
  }

  lemma RunFirst(reg: Registry<Db, Payload>, s: Sys<Db, Payload>, order: seq<nat>)
    requires order != [] && forall p | 0 <= p < |order| :: order[p] < |s.jobs|
    requires forall p | 0 <= p < |order[1..]| :: order[1..][p] < |RunJob(reg, s, order[0]).jobs|
    ensures RunJobs(reg, s, order) == RunJobs(reg, RunJob(reg, s, order[0]), order[1..])
  {
    hide RunJob;
  }

  lemma ReadyListed<P>(jobs: seq<Job<P>>, order: seq<nat>)
    requires Ready(jobs, order)
    ensures forall p | 0 <= p < |order| :: order[p] < |jobs|
  {
  }

  lemma {:induction false} JobsChain(
    sample: Sampler, s: Sys<Db, Payload>, order: seq<nat>, tenant: int, merchant: int, d: int, g: nat)
    returns (h: nat)
    requires Chain(s, tenant, merchant, d, g) && Logged(s) && Ready(s.jobs, order)
    ensures forall p | 0 <= p < |order| :: order[p] < |s.jobs|
    ensures var t := RunJobs(Handlers(sample), s, order);
            && t.world.merchants == s.world.merchants && Logged(t) && |s.jobs| <= |t.jobs|
            && (if g in order then
                  && |s.jobs| <= h && Chain(t, tenant, merchant, d + 1, h)
                  && Dates(t.jobs, t.log, tenant, merchant) == Dates(s.jobs, s.log, tenant, merchant) + [d]
                  && NewSettles(s, t, tenant, merchant, d)
                else
                  && h == g && Chain(t, tenant, merchant, d, g)
                  && Dates(t.jobs, t.log, tenant, merchant) == Dates(s.jobs, s.log, tenant, merchant)
                  && NoNewSettles(s, t, tenant, merchant))
    decreases |order|
  {
    hide Chain, Logged, Dates, Ready, RunJob, Handlers, NewSettles, NoNewSettles, RunJobs;
    ReadyListed(s.jobs, order);
    if order == [] {
      h := g;
      NoJobs(Handlers(sample), s, order);
      NothingNew(s, tenant, merchant);
    } else {
      ReadyRest(sample, s, order);
      var i, m, rest := order[0], RunJob(Handlers(sample), s, order[0]), order[1..];
      ReadyListed(m.jobs, rest);
      PayloadsKept(Handlers(sample), m, rest);
      RunFirst(Handlers(sample), s, order);
      if i == g {
        ChainMoves(sample, s, tenant, merchant, d, g);
        h := JobsChain(sample, m, rest, tenant, merchant, d + 1, |s.jobs|);
        FreshNotListed(s.jobs, order);
        SettlesThenNone(s, m, RunJobs(Handlers(sample), m, rest), tenant, merchant, d);
      } else {
        ChainStays(sample, s, tenant, merchant, d, g, i);
        h := JobsChain(sample, m, rest, tenant, merchant, d, g);
        NoneThenSettles(s, m, RunJobs(Handlers(sample), m, rest), tenant, merchant, d);
      }
    }
  }

  lemma PayloadsKept(reg: Registry<Db, Payload>, s: Sys<Db, Payload>, order: seq<nat>)
    requires Ready(s.jobs, order)
    ensures forall p | 0 <= p < |order| :: order[p] < |s.jobs|
    ensures |s.jobs| <= |RunJobs(reg, s, order).jobs|
    ensures forall k | 0 <= k < |s.jobs| :: RunJobs(reg, s, order).jobs[k].payload == s.jobs[k].payload
  {
    hide RunJobs;
    RunJobsTable(reg, s, order);
    var t := RunJobs(reg, s, order);
    forall k | 0 <= k < |s.jobs| ensures t.jobs[k].payload == s.jobs[k].payload {
      assert Settled(s.jobs[k], t.jobs[k], k in order);
    }
  }

  lemma NoJobs(reg: Registry<Db, Payload>, s: Sys<Db, Payload>, order: seq<nat>)
    requires order == []
    ensures RunJobs(reg, s, order) == s
  {
  }

  lemma FreshNotListed(jobs: seq<Job<Payload>>, order: seq<nat>)
    requires forall p | 0 <= p < |order| :: order[p] < |jobs|
    ensures order != [] ==> |jobs| !in order[1..]
  {
  }

  lemma NothingNew(s: Sys<Db, Payload>, tenant: int, merchant: int)
    ensures NoNewSettles(s, s, tenant, merchant)
  {
  }

  lemma SettlesThenNone(
    s: Sys<Db, Payload>, m: Sys<Db, Payload>, t: Sys<Db, Payload>, tenant: int, merchant: int, d: int)
    requires NewSettles(s, m, tenant, merchant, d) && NoNewSettles(m, t, tenant, merchant)
    requires |s.jobs| <= |m.jobs| <= |t.jobs|
    requires forall k | 0 <= k < |m.jobs| :: t.jobs[k].payload == m.jobs[k].payload
    ensures NewSettles(s, t, tenant, merchant, d)
  {
    hide ExpectedDate;
  }

  lemma NoneThenSettles(
    s: Sys<Db, Payload>, m: Sys<Db, Payload>, t: Sys<Db, Payload>, tenant: int, merchant: int, d: int)
    requires NoNewSettles(s, m, tenant, merchant) && s.world.merchants == m.world.merchants
    requires |s.jobs| <= |m.jobs| <= |t.jobs|
    requires forall k | 0 <= k < |m.jobs| :: t.jobs[k].payload == m.jobs[k].payload
    ensures NoNewSettles(m, t, tenant, merchant) ==> NoNewSettles(s, t, tenant, merchant)
    ensures NewSettles(m, t, tenant, merchant, d) ==> NewSettles(s, t, tenant, merchant, d)
  {
    hide ExpectedDate;
  }

  lemma DueReady<P>(jobs: seq<Job<P>>, tenant: int, end: int, order: seq<nat>, g: nat)
    requires DueOrder(jobs, tenant, end, order) && g < |jobs|
    ensures Ready(jobs, order)
    ensures g in order <==> Due(jobs[g], tenant, end)
  {
  }

  lemma SliceIs<W, P>(reg: Registry<W, P>, tenant: int, s: Sys<W, P>, turn: Turn)
    requires SimScheduler.Enabled(tenant, s, turn)
    ensures forall p | 0 <= p < |turn.order| :: turn.order[p] < |s.jobs|
    ensures DueOrder(s.jobs, tenant, s.clock + turn.length, turn.order)
    ensures RunSlice(reg, tenant, s, turn) == RunJobs(reg, s.(clock := s.clock + turn.length), turn.order)
  {
    hide RunJobs;
  }

  lemma ChainClock(s: Sys<Db, Payload>, tenant: int, merchant: int, d: int, g: nat, clock: int)
    requires Chain(s, tenant, merchant, d, g) && Logged(s)
    ensures Chain(s.(clock := clock), tenant, merchant, d, g) && Logged(s.(clock := clock))
    ensures g < |s.jobs| && merchant in s.world.merchants
    ensures Due(s.jobs[g], tenant, clock) <==> d * DAY <= clock
  {
  }

  lemma NewFromClock(s: Sys<Db, Payload>, t: Sys<Db, Payload>, tenant: int, merchant: int, d: int, clock: int)
    ensures NewSettles(s.(clock := clock), t, tenant, merchant, d) ==> NewSettles(s, t, tenant, merchant, d)
    ensures NoNewSettles(s.(clock := clock), t, tenant, merchant) ==> NoNewSettles(s, t, tenant, merchant)
  {
    hide ExpectedDate;
  }

  /** A slice generates the chain's date if the clock reaches it, and never more than that one. */
  lemma SliceChain(
    sample: Sampler, s: Sys<Db, Payload>, turn: Turn, tenant: int, merchant: int, d: int, g: nat) returns (h: nat)
    requires Chain(s, tenant, merchant, d, g) && Logged(s) && SimScheduler.Enabled(tenant, s, turn)
    ensures var t := RunSlice(Handlers(sample), tenant, s, turn);
            && t.clock == s.clock + turn.length && t.world.merchants == s.world.merchants
            && Logged(t) && |s.jobs| <= |t.jobs|
            && (if d * DAY <= t.clock then
                  && |s.jobs| <= h && Chain(t, tenant, merchant, d + 1, h)
                  && Dates(t.jobs, t.log, tenant, merchant) == Dates(s.jobs, s.log, tenant, merchant) + [d]
                  && NewSettles(s, t, tenant, merchant, d)
                else
                  && Chain(t, tenant, merchant, d, h)
                  && Dates(t.jobs, t.log, tenant, merchant) == Dates(s.jobs, s.log, tenant, merchant)
                  && NoNewSettles(s, t, tenant, merchant))
  {
    hide *;
    var end := s.clock + turn.length;
    var s' := s.(clock := end);
    SliceIs(Handlers(sample), tenant, s, turn);
    SliceEffect(Handlers(sample), tenant, s, turn);
    ChainClock(s, tenant, merchant, d, g, end);
    DueReady(s.jobs, tenant, end, turn.order, g);
    h := JobsChain(sample, s', turn.order, tenant, merchant, d, g);
    NewFromClock(s, RunSlice(Handlers(sample), tenant, s, turn), tenant, merchant, d, end);
  }

  /** A slice whose own transaction is lost after its handlers have committed: its jobs wait again. */
  ghost function Lost(s: Sys<Db, Payload>, t: Sys<Db, Payload>): Sys<Db, Payload>
    requires |s.jobs| <= |t.jobs|
  {
    t.(jobs := s.jobs + t.jobs[|s.jobs|..])
  }

  lemma LostChain(s: Sys<Db, Payload>, t: Sys<Db, Payload>, tenant: int, merchant: int, d: int, g: nat, h: nat)
    requires Chain(s, tenant, merchant, d, g) && Chain(t, tenant, merchant, d + 1, h) && |s.jobs| <= h
    requires |s.jobs| <= |t.jobs| && forall i | 0 <= i < |s.jobs| :: t.jobs[i].payload == s.jobs[i].payload
    ensures var u := Lost(s, t);
            && |u.jobs| == |t.jobs| && g < h < |u.jobs| && u.jobs[g] == s.jobs[g]
            && u.jobs[h] == Job(Some(tenant), (d + 1) * DAY, GenerateDay(tenant, merchant, d + 1), Waiting)
            && (forall i | 0 <= i < |u.jobs| && u.jobs[i].status == Waiting
                           && Generates(u.jobs[i].payload, tenant, merchant) :: i == g || i == h)
            && (forall i | 0 <= i < |t.jobs| :: u.jobs[i].payload == t.jobs[i].payload)
  {
    hide Known;
    var u := Lost(s, t);
    assert forall i | |s.jobs| <= i < |t.jobs| :: u.jobs[i] == t.jobs[i];
    assert forall i | 0 <= i < |s.jobs| :: u.jobs[i] == s.jobs[i];
  }

  /**
    A slice that generates a merchant's day and then loses its own transaction leaves two waiting
    generation jobs where there was one: that of the day already generated, and that of the next.
  */
  lemma LostSliceForks(
    sample: Sampler, s: Sys<Db, Payload>, turn: Turn, tenant: int, merchant: int, d: int, g: nat) returns (h: nat)
    requires Chain(s, tenant, merchant, d, g) && Logged(s) && SimScheduler.Enabled(tenant, s, turn)
    requires d * DAY <= s.clock + turn.length
    ensures var t := RunSlice(Handlers(sample), tenant, s, turn);
            && |s.jobs| <= |t.jobs|
            && var u := Lost(s, t);
               && g < h < |u.jobs| && u.jobs[g].status == Waiting && u.jobs[h].status == Waiting
               && u.jobs[g].payload == GenerateDay(tenant, merchant, d)
               && u.jobs[h].payload == GenerateDay(tenant, merchant, d + 1)
               && (forall i | 0 <= i < |u.jobs| && u.jobs[i].status == Waiting
                              && Generates(u.jobs[i].payload, tenant, merchant) :: i == g || i == h)
               && Dates(u.jobs, u.log, tenant, merchant) == Dates(s.jobs, s.log, tenant, merchant) + [d]
  {
    var t := RunSlice(Handlers(sample), tenant, s, turn);
    assert g < |s.jobs| && s.jobs[g] == Job(Some(tenant), d * DAY, GenerateDay(tenant, merchant, d), Waiting);
    SliceEffect(Handlers(sample), tenant, s, turn);
    hide RunSlice, Handlers, Enabled, Chain, Dates, Due, NewSettles, Generates;
    h := SliceChain(sample, s, turn, tenant, merchant, d, g);
    forall i | 0 <= i < |s.jobs| ensures t.jobs[i].payload == s.jobs[i].payload {
      assert Settled(s.jobs[i], t.jobs[i], Due(s.jobs[i], tenant, t.clock));
    }
    LostChain(s, t, tenant, merchant, d, g, h);
    DatesKept(t.jobs, Lost(s, t).jobs, t.log, tenant, merchant);
  }

  // ---- whole runs of the scheduler --------------------------------------

  lemma IntervalStep(d: int, n: nat)
    ensures Interval(d, 0) == [] && Interval(d, n + 1) == [d] + Interval(d + 1, n)
  {
    var x := Interval(d, n + 1);
    assert x[1..] == Interval(d + 1, n);
    assert x == [d] + x[1..];
  }

  /**
    Over every run of slices a merchant keeps exactly one waiting generation job, for the first
    date not yet generated; the dates generated have no gap and no repeat, at most one a slice.
  */
  lemma {:induction false} ChainKept(
    sample: Sampler, s: Sys<Db, Payload>, turns: seq<Turn>, tenant: int, merchant: int, d: int, g: nat)
    returns (n: nat, h: nat)
    requires Chain(s, tenant, merchant, d, g) && Logged(s) && Legal(Handlers(sample), tenant, s, turns)
    ensures var t := SimScheduler.Exec(Handlers(sample), tenant, s, turns);
            && n <= |turns| && Chain(t, tenant, merchant, d + n, h)
            && Dates(t.jobs, t.log, tenant, merchant) == Dates(s.jobs, s.log, tenant, merchant) + Interval(d, n)
    decreases |turns|
  {
    hide *;
    IntervalStep(d, 0);
    if turns == [] {
      NoSlice(Handlers(sample), tenant, s, turns);
      n, h := 0, g;
      assert Dates(s.jobs, s.log, tenant, merchant) + [] == Dates(s.jobs, s.log, tenant, merchant);
    } else {
      FirstSlice(Handlers(sample), tenant, s, turns);
      var m := RunSlice(Handlers(sample), tenant, s, turns[0]);
      var g' := SliceChain(sample, s, turns[0], tenant, merchant, d, g);
      if d * DAY <= m.clock {
        var n';
        n', h := ChainKept(sample, m, turns[1..], tenant, merchant, d + 1, g');
        IntervalStep(d, n');
        n := n' + 1;
        var before := Dates(s.jobs, s.log, tenant, merchant);
        assert before + ([d] + Interval(d + 1, n')) == before + [d] + Interval(d + 1, n');
      } else {
        n, h := ChainKept(sample, m, turns[1..], tenant, merchant, d, g');
      }
    }
  }

  ghost predicate WholeDaySlices(turns: seq<Turn>) {
    forall k | 0 <= k < |turns| :: turns[k].length == DAY
  }

  lemma DayByDay(turns: seq<Turn>)
    requires WholeDaySlices(turns) && turns != []
    ensures turns[0].length == DAY && WholeDaySlices(turns[1..])
  {
  }

  lemma DayOn(d: int, clock: int)
    ensures (d + 1) * DAY == d * DAY + DAY
    ensures d * DAY <= clock + DAY ==> (d + 1) * DAY <= (clock + DAY) + DAY
  {
  }

  /** Slices of one day generate exactly one date each, once the first is due. */
  lemma {:induction false} DailyDates(
    sample: Sampler, s: Sys<Db, Payload>, turns: seq<Turn>, tenant: int, merchant: int, d: int, g: nat)
    returns (h: nat)
    requires Chain(s, tenant, merchant, d, g) && Logged(s) && Legal(Handlers(sample), tenant, s, turns)
    requires WholeDaySlices(turns) && d * DAY <= s.clock + DAY
    ensures var t := SimScheduler.Exec(Handlers(sample), tenant, s, turns);
            && Chain(t, tenant, merchant, d + |turns|, h)
            && Dates(t.jobs, t.log, tenant, merchant)
               == Dates(s.jobs, s.log, tenant, merchant) + Interval(d, |turns|)
    decreases |turns|
  {
    hide *;
    IntervalStep(d, 0);
    if turns == [] {
      NoSlice(Handlers(sample), tenant, s, turns);
      h := g;
      assert Dates(s.jobs, s.log, tenant, merchant) + [] == Dates(s.jobs, s.log, tenant, merchant);
    } else {
      DayByDay(turns);
      FirstSlice(Handlers(sample), tenant, s, turns);
      DayOn(d, s.clock);
      var m := RunSlice(Handlers(sample), tenant, s, turns[0]);
      var g' := SliceChain(sample, s, turns[0], tenant, merchant, d, g);
      h := DailyDates(sample, m, turns[1..], tenant, merchant, d + 1, g');
      IntervalStep(d, |turns| - 1);
      var before := Dates(s.jobs, s.log, tenant, merchant);
      var rest := Interval(d + 1, |turns| - 1);
      assert before + ([d] + rest) == before + [d] + rest;
    }
  }

  // ---- nothing is left behind -------------------------------------------

  /** The merchant's transaction, not settled yet. */
  predicate Open(x: Txn, tenant: int, merchant: int) {
    x.tenant == tenant && x.merchant == merchant && x.batch == None
  }

  ghost predicate WillSettle(jobs: seq<Job<Payload>>, tenant: int, merchant: int, date: int) {
    exists j | 0 <= j < |jobs| ::
      jobs[j] == Job(Some(tenant), date * DAY, SettleDay(tenant, merchant, date), Waiting)
  }

  /** Every open transaction of the merchant has a settlement job waiting for its date. */
  ghost predicate Covered(s: Sys<Db, Payload>, tenant: int, merchant: int) {
    && Known(s.world, tenant, merchant)
    && forall k | 0 <= k < |s.world.txns| && Open(s.world.txns[k], tenant, merchant) ::
         WillSettle(s.jobs, tenant, merchant, s.world.txns[k].expected)
  }

  /** A settlement job keeps waiting unless it is the one that runs. */
  lemma StillWaits(sample: Sampler, s: Sys<Db, Payload>, i: nat, tenant: int, merchant: int, date: int)
    requires i < |s.jobs| && WillSettle(s.jobs, tenant, merchant, date)
    ensures s.jobs[i].payload != SettleDay(tenant, merchant, date) ==>
              WillSettle(RunJob(Handlers(sample), s, i).jobs, tenant, merchant, date)
  {
    hide Handle, RunJob;
    JobRuns(sample, s, i);
    var j :| 0 <= j < |s.jobs|
      && s.jobs[j] == Job(Some(tenant), date * DAY, SettleDay(tenant, merchant, date), Waiting);
    if s.jobs[i].payload != SettleDay(tenant, merchant, date) {
      assert RunJob(Handlers(sample), s, i).jobs[j] == s.jobs[j];
    }
  }

  /** Where the open transactions of a merchant come from when a day is generated. */
  lemma OpenAfterSale(
    sample: Sampler, db: Db, p: Payload, tenant: int, merchant: int, k: nat)
    requires p.GenerateDay? && Known(db, tenant, merchant) && ValidMerchants(db)
    requires k < |Handle(sample, db, p).world.txns| && Open(Handle(sample, db, p).world.txns[k], tenant, merchant)
    ensures (k < |db.txns| && Handle(sample, db, p).world.txns[k] == db.txns[k])
            || (p.tenant == tenant && p.merchant == merchant
                && DayAmounts(sample, db, tenant, merchant, p.date) != []
                && Handle(sample, db, p).world.txns[k].expected
                   == ExpectedDate(db.merchants[merchant].terms, p.date))
  {
    hide ExpectedDate, CalcFees, DayRequests, DayAmounts, ValidTerms;
  }

  /** A settlement leaves no open transaction of its merchant and date, and opens none. */
  lemma OpenAfterSettlement(sample: Sampler, db: Db, p: Payload, tenant: int, merchant: int, k: nat)
    requires p.SettleDay? && Known(db, tenant, merchant)
    requires k < |Handle(sample, db, p).world.txns| && Open(Handle(sample, db, p).world.txns[k], tenant, merchant)
    ensures k < |db.txns| && Handle(sample, db, p).world.txns[k] == db.txns[k]
    ensures p != SettleDay(tenant, merchant, db.txns[k].expected)
  {
    hide SumOf, SomePending, Idle;
    if p == SettleDay(tenant, merchant, db.txns[k].expected) {
      MustSettle(db, tenant, merchant, k);
    }
  }

  lemma MustSettle(db: Db, tenant: int, merchant: int, k: nat)
    requires Known(db, tenant, merchant) && k < |db.txns| && Open(db.txns[k], tenant, merchant)
    ensures !Idle(db, tenant, merchant, db.txns[k].expected)
  {
    assert In(db.txns[k], Chosen(tenant, merchant, db.txns[k].expected));
  }

  lemma SettlementAskedFor(sample: Sampler, s: Sys<Db, Payload>, i: nat, tenant: int, merchant: int, d: int)
    requires i < |s.jobs| && s.jobs[i].payload == GenerateDay(tenant, merchant, d)
    requires Known(s.world, tenant, merchant) && DayAmounts(sample, s.world, tenant, merchant, d) != []
    ensures WillSettle(RunJob(Handlers(sample), s, i).jobs, tenant, merchant,
                       ExpectedDate(s.world.merchants[merchant].terms, d))
  {
    JobRuns(sample, s, i);
    hide RunJob, Handlers, ExpectedDate, Sell, DayAmounts, Known;
    var t, r := RunJob(Handlers(sample), s, i), DayRequests(sample, s.world, tenant, merchant, d);
    assert Handle(sample, s.world, s.jobs[i].payload).requests == r;
    assert r[1] == SettleOn(tenant, merchant, ExpectedDate(s.world.merchants[merchant].terms, d));
    assert t.jobs[|s.jobs| + 1].payload == r[1].payload;
  }

  lemma CoveredJob(sample: Sampler, s: Sys<Db, Payload>, i: nat, tenant: int, merchant: int)
    requires Covered(s, tenant, merchant) && ValidMerchants(s.world) && i < |s.jobs|
    ensures Covered(RunJob(Handlers(sample), s, i), tenant, merchant)
  {
    hide WillSettle, Handle, RunJob, Handlers, ExpectedDate, DayAmounts, Open;
    var p, t := s.jobs[i].payload, RunJob(Handlers(sample), s, i);
    JobRuns(sample, s, i);
    HandleMerchants(sample, s.world, p);
    forall k | 0 <= k < |t.world.txns| && Open(t.world.txns[k], tenant, merchant)
      ensures WillSettle(t.jobs, tenant, merchant, t.world.txns[k].expected)
    {
      if p.SettleDay? {
        OpenAfterSettlement(sample, s.world, p, tenant, merchant, k);
        StillWaits(sample, s, i, tenant, merchant, t.world.txns[k].expected);
      } else {
        OpenAfterSale(sample, s.world, p, tenant, merchant, k);
        if k < |s.world.txns| && t.world.txns[k] == s.world.txns[k] {
          StillWaits(sample, s, i, tenant, merchant, t.world.txns[k].expected);
        } else {
          SettlementAskedFor(sample, s, i, tenant, merchant, p.date);
        }
      }
    }
  }

  lemma HandleConsistent(sample: Sampler, db: Db, p: Payload)
    requires Consistent(db)
    ensures Consistent(Handle(sample, db, p).world) && Later(db, Handle(sample, db, p).world)
  {
    hide Consistent, Later, Sell, Settle, DayRequests, DayAmounts;
    match p {
      case GenerateDay(tenant, merchant, date) =>
        SellKeeps(db, tenant, merchant, date, DayAmounts(sample, db, tenant, merchant, date));
      case SettleDay(tenant, merchant, date) => SettleKeeps(db, tenant, merchant, date);
    }
  }

  lemma ConsistentTerms(db: Db)
    requires Consistent(db)
    ensures ValidMerchants(db)
  {
    hide Priced, Filed, Balanced;
  }

  lemma {:induction false} JobsCovered(
    sample: Sampler, s: Sys<Db, Payload>, order: seq<nat>, tenant: int, merchant: int)
    requires Ready(s.jobs, order) && Consistent(s.world) && Covered(s, tenant, merchant)
    ensures forall p | 0 <= p < |order| :: order[p] < |s.jobs|
    ensures var t := RunJobs(Handlers(sample), s, order);
            Consistent(t.world) && Later(s.world, t.world) && Covered(t, tenant, merchant)
    decreases |order|
  {
    hide Ready, Consistent, Covered, Later, RunJob, Handlers, Handle, RunJobs;
    ReadyListed(s.jobs, order);
    if order == [] {
      NoJobs(Handlers(sample), s, order);
      LaterSame(s.world);
    } else {
      ReadyRest(sample, s, order);
      var m, rest := RunJob(Handlers(sample), s, order[0]), order[1..];
      ReadyListed(m.jobs, rest);
      RunFirst(Handlers(sample), s, order);
      JobRuns(sample, s, order[0]);
      HandleConsistent(sample, s.world, s.jobs[order[0]].payload);
      ConsistentTerms(s.world);
      CoveredJob(sample, s, order[0], tenant, merchant);
      JobsCovered(sample, m, rest, tenant, merchant);
      LaterTrans(s.world, m.world, RunJobs(Handlers(sample), m, rest).world);
    }
  }

  lemma CoveredClock(s: Sys<Db, Payload>, tenant: int, merchant: int, clock: int)
    ensures Covered(s.(clock := clock), tenant, merchant) <==> Covered(s, tenant, merchant)
  {
    hide WillSettle;
  }

  lemma SliceCovered(sample: Sampler, s: Sys<Db, Payload>, turn: Turn, tenant: int, merchant: int, g: nat)
    requires SimScheduler.Enabled(tenant, s, turn) && Consistent(s.world) && Covered(s, tenant, merchant) && g < |s.jobs|
    ensures var t := RunSlice(Handlers(sample), tenant, s, turn);
            Consistent(t.world) && Later(s.world, t.world) && Covered(t, tenant, merchant)
  {
    hide *;
    var end := s.clock + turn.length;
    SliceIs(Handlers(sample), tenant, s, turn);
    DueReady(s.jobs, tenant, end, turn.order, g);
    CoveredClock(s, tenant, merchant, end);
    JobsCovered(sample, s.(clock := end), turn.order, tenant, merchant);
  }

  /** The days a settlement may lag behind its date. */
  function Grace(terms: Terms): nat {
    if terms.settlementDays > 0 then 1 else 2
  }

  /** An open transaction is expected after the clock, or was sold on the day before `d`. */
  ghost predicate Recent(s: Sys<Db, Payload>, x: Txn, merchant: int, d: int)
    requires merchant in s.world.merchants
  {
    x.expected * DAY > s.clock || x.expected == ExpectedDate(s.world.merchants[merchant].terms, d - 1)
  }

  /**
    The merchant at the end of a day: the clock is on day d, the chain will generate d next,
    and all that is open is recent and will be settled.
  */
  ghost predicate Steady(s: Sys<Db, Payload>, tenant: int, merchant: int, d: int, g: nat) {
    && Chain(s, tenant, merchant, d, g) && Logged(s) && Consistent(s.world) && Covered(s, tenant, merchant)
    && d * DAY <= s.clock < (d + 1) * DAY
    && forall k | 0 <= k < |s.world.txns| && Open(s.world.txns[k], tenant, merchant) ::
         Recent(s, s.world.txns[k], merchant, d)
  }

  /** A settlement job found waiting after a slice is for later, or was asked for in that slice. */
  lemma WaitingAfterSlice(
    sample: Sampler, s: Sys<Db, Payload>, turn: Turn, tenant: int, merchant: int, d: int, date: int)
    requires SimScheduler.Enabled(tenant, s, turn)
    requires var t := RunSlice(Handlers(sample), tenant, s, turn);
             WillSettle(t.jobs, tenant, merchant, date) && NewSettles(s, t, tenant, merchant, d)
    ensures merchant in s.world.merchants
    ensures date * DAY > RunSlice(Handlers(sample), tenant, s, turn).clock
            || date == ExpectedDate(s.world.merchants[merchant].terms, d)
  {
    hide RunSlice, Enabled, ExpectedDate, Handlers;
    var t := RunSlice(Handlers(sample), tenant, s, turn);
    var j :| 0 <= j < |t.jobs|
      && t.jobs[j] == Job(Some(tenant), date * DAY, SettleDay(tenant, merchant, date), Waiting);
    if date * DAY <= t.clock {
      assert Due(t.jobs[j], tenant, t.clock);
      OverdueIsNew(Handlers(sample), tenant, s, turn, j);
    }
  }

  lemma SteadyParts(s: Sys<Db, Payload>, tenant: int, merchant: int, d: int, g: nat)
    requires Steady(s, tenant, merchant, d, g)
    ensures Chain(s, tenant, merchant, d, g) && Logged(s) && Consistent(s.world) && Covered(s, tenant, merchant)
    ensures d * DAY <= s.clock < (d + 1) * DAY && g < |s.jobs|
  {
    hide Logged, Consistent, Covered, Recent;
  }

  lemma SteadyFrom(s: Sys<Db, Payload>, tenant: int, merchant: int, d: int, g: nat)
    requires Chain(s, tenant, merchant, d, g) && Logged(s) && Consistent(s.world) && Covered(s, tenant, merchant)
    requires d * DAY <= s.clock < (d + 1) * DAY
    requires merchant in s.world.merchants
    requires forall k | 0 <= k < |s.world.txns| && Open(s.world.txns[k], tenant, merchant) ::
      Recent(s, s.world.txns[k], merchant, d)
    ensures Steady(s, tenant, merchant, d, g)
  {
    hide Chain, Logged, Consistent, Covered, Recent;
  }

  lemma OpenIsCovered(s: Sys<Db, Payload>, tenant: int, merchant: int, k: nat)
    requires Covered(s, tenant, merchant) && k < |s.world.txns| && Open(s.world.txns[k], tenant, merchant)
    ensures WillSettle(s.jobs, tenant, merchant, s.world.txns[k].expected)
  {
    hide WillSettle;
  }

  lemma RecentIf(s: Sys<Db, Payload>, x: Txn, merchant: int, d: int, terms: Terms)
    requires merchant in s.world.merchants && s.world.merchants[merchant].terms == terms
    requires x.expected * DAY > s.clock || x.expected == ExpectedDate(terms, d)
    ensures Recent(s, x, merchant, d + 1)
  {
    hide ExpectedDate;
  }

  lemma SteadySlice(sample: Sampler, s: Sys<Db, Payload>, turn: Turn, tenant: int, merchant: int, d: int, g: nat)
    returns (h: nat)
    requires Steady(s, tenant, merchant, d, g) && SimScheduler.Enabled(tenant, s, turn) && turn.length == DAY
    ensures var t := RunSlice(Handlers(sample), tenant, s, turn);
            Steady(t, tenant, merchant, d + 1, h) && Later(s.world, t.world)
  {
    hide *;
    SteadyParts(s, tenant, merchant, d, g);
    var t := RunSlice(Handlers(sample), tenant, s, turn);
    h := SliceChain(sample, s, turn, tenant, merchant, d, g);
    SliceCovered(sample, s, turn, tenant, merchant, g);
    ChainClock(t, tenant, merchant, d + 1, h, 0);
    forall k | 0 <= k < |t.world.txns| && Open(t.world.txns[k], tenant, merchant)
      ensures Recent(t, t.world.txns[k], merchant, d + 1)
    {
      OpenIsCovered(t, tenant, merchant, k);
      WaitingAfterSlice(sample, s, turn, tenant, merchant, d, t.world.txns[k].expected);
      RecentIf(t, t.world.txns[k], merchant, d, s.world.merchants[merchant].terms);
    }
    SteadyFrom(t, tenant, merchant, d + 1, h);
  }

  lemma {:induction false} SteadyDays(
    sample: Sampler, s: Sys<Db, Payload>, turns: seq<Turn>, tenant: int, merchant: int, d: int, g: nat)
    returns (h: nat)
    requires Steady(s, tenant, merchant, d, g) && Legal(Handlers(sample), tenant, s, turns) && WholeDaySlices(turns)
    ensures var t := SimScheduler.Exec(Handlers(sample), tenant, s, turns);
            Steady(t, tenant, merchant, d + |turns|, h) && Later(s.world, t.world)
    decreases |turns|
  {
    hide *;
    if turns == [] {
      NoSlice(Handlers(sample), tenant, s, turns);
      LaterSame(s.world);
      h := g;
    } else {
      DayByDay(turns);
      FirstSlice(Handlers(sample), tenant, s, turns);
      var m := RunSlice(Handlers(sample), tenant, s, turns[0]);
      var g' := SteadySlice(sample, s, turns[0], tenant, merchant, d, g);
      h := SteadyDays(sample, m, turns[1..], tenant, merchant, d + 1, g');
      LaterTrans(s.world, m.world, SimScheduler.Exec(Handlers(sample), tenant, m, turns[1..]).world);
    }
  }

  lemma ExpectedReach(terms: Terms, d: int)
    requires ValidTerms(terms)
    ensures ExpectedDate(terms, d - 1) + Grace(terms) > d
  {
    var n := WaitDays(terms);
    SettlementDateIs(d - 1, n, terms.weekend);
    if n > 0 {
      assert BusinessDays(d - 1, d - 1, terms.weekend) == 0;
    }
  }

  /** A transaction of a steady merchant is settled once its date is Grace days behind the clock. */
  lemma SteadySettled(s: Sys<Db, Payload>, tenant: int, merchant: int, d: int, g: nat, k: nat)
    requires Steady(s, tenant, merchant, d, g) && k < |s.world.txns|
    requires s.world.txns[k].tenant == tenant && s.world.txns[k].merchant == merchant
    ensures merchant in s.world.merchants
    ensures var x := s.world.txns[k];
            s.clock >= (x.expected + Grace(s.world.merchants[merchant].terms)) * DAY ==> x.batch.Some?
  {
    hide Logged, Consistent, Covered, ExpectedDate, Grace, ValidTerms;
    var x, terms := s.world.txns[k], s.world.merchants[merchant].terms;
    ConsistentTerms(s.world);
    ExpectedReach(terms, d);
    if x.batch == None {
      assert Open(x, tenant, merchant) && Recent(s, x, merchant, d);
    }
  }

  function Today(clock: int): int {
    clock / DAY
  }

  /** `create_merchant`: the row and the first generation job, for the day on the clock. */
  ghost function Created(s: Sys<Db, Payload>, merchant: int, details: Merchant): Sys<Db, Payload> {
    s.(world := s.world.(merchants := s.world.merchants[merchant := details]),
       jobs := s.jobs + NewJobs([NextDay(details.tenant, merchant, Today(s.clock) - 1)]))
  }

  ghost predicate Unheard(s: Sys<Db, Payload>, merchant: int) {
    && merchant !in s.world.merchants
    && (forall i | 0 <= i < |s.jobs| :: s.jobs[i].payload.merchant != merchant)
    && (forall k | 0 <= k < |s.world.txns| :: s.world.txns[k].merchant != merchant)
  }

  lemma CreatedChain(s: Sys<Db, Payload>, merchant: int, details: Merchant)
    requires Unheard(s, merchant) && Logged(s)
    ensures var t := Created(s, merchant, details);
            && Chain(t, details.tenant, merchant, Today(s.clock), |s.jobs|) && Logged(t)
            && Covered(t, details.tenant, merchant)
            && forall k | 0 <= k < |t.world.txns| :: !Open(t.world.txns[k], details.tenant, merchant)
  {
  }

  lemma CreatedSteady(s: Sys<Db, Payload>, merchant: int, details: Merchant)
    requires Unheard(s, merchant) && Consistent(s.world) && Logged(s) && ValidTerms(details.terms)
    ensures Steady(Created(s, merchant, details), details.tenant, merchant, Today(s.clock), |s.jobs|)
  {
    var t := Created(s, merchant, details);
    EnrolKeeps(s.world, merchant, details);
    CreatedChain(s, merchant, details);
    hide Chain, Logged, Consistent, Covered, Recent, ValidTerms, Later, Open, NewJobs;
    SteadyFrom(t, details.tenant, merchant, Today(s.clock), |s.jobs|);
  }

  lemma {:induction false} DatesNone(jobs: seq<Job<Payload>>, log: seq<Firing>, tenant: int, merchant: int)
    requires forall k | 0 <= k < |log| ::
      log[k].job < |jobs| && jobs[log[k].job].payload.merchant != merchant
    ensures Dates(jobs, log, tenant, merchant) == []
    decreases |log|
  {
    if log != [] {
      DatesNone(jobs, log[..|log| - 1], tenant, merchant);
    }
  }

  lemma CreatedNone(s: Sys<Db, Payload>, merchant: int, details: Merchant)
    requires Unheard(s, merchant) && Logged(s)
    ensures var t := Created(s, merchant, details); Dates(t.jobs, t.log, details.tenant, merchant) == []
  {
    DatesNone(Created(s, merchant, details).jobs, s.log, details.tenant, merchant);
  }

  lemma TodayDue(clock: int)
    ensures Today(clock) * DAY <= clock + DAY
  {
  }

  /** From its creation on, k slices of one day generate for a merchant exactly today and the k - 1 days after it. */
  lemma {:induction false} CreatedDates(
    sample: Sampler, s: Sys<Db, Payload>, turns: seq<Turn>, merchant: int, details: Merchant)
    requires Unheard(s, merchant) && Logged(s)
    requires Legal(Handlers(sample), details.tenant, Created(s, merchant, details), turns) && WholeDaySlices(turns)
    ensures var t := SimScheduler.Exec(Handlers(sample), details.tenant, Created(s, merchant, details), turns);
            Dates(t.jobs, t.log, details.tenant, merchant) == seq(|turns|, k => s.clock / DAY + k)
  {
    CreatedInterval(s.clock, |turns|);
    hide *;
    CreatedChain(s, merchant, details);
    CreatedNone(s, merchant, details);
    CreatedClock(s, merchant, details);
    TodayDue(s.clock);
    var h := DailyDates(sample, Created(s, merchant, details), turns, details.tenant, merchant, Today(s.clock), |s.jobs|);
    assert [] + Interval(Today(s.clock), |turns|) == Interval(Today(s.clock), |turns|);
  }

  lemma CreatedInterval(clock: int, n: nat)
    ensures Interval(Today(clock), n) == seq(n, k => clock / DAY + k)
  {
  }

  lemma CreatedClock(s: Sys<Db, Payload>, merchant: int, details: Merchant)
    ensures Created(s, merchant, details).clock == s.clock
  {
  }

  /**
    No transaction is left behind. When nothing but one-day slices has moved the clock since the
    merchant was created, every transaction of the merchant is settled as soon as the clock
    reaches one day past its expected date (two days, for a region that settles the same day),
    and the one batch it names is of its merchant and date.
  */
  lemma NothingLeftBehind(
    sample: Sampler, s: Sys<Db, Payload>, turns: seq<Turn>, merchant: int, details: Merchant, k: nat)
    requires Unheard(s, merchant) && Consistent(s.world) && Logged(s) && ValidTerms(details.terms)
    requires Legal(Handlers(sample), details.tenant, Created(s, merchant, details), turns) && WholeDaySlices(turns)
    requires var t := SimScheduler.Exec(Handlers(sample), details.tenant, Created(s, merchant, details), turns);
             k < |t.world.txns| && t.world.txns[k].merchant == merchant && t.world.txns[k].tenant == details.tenant
             && t.clock >= (t.world.txns[k].expected + if details.terms.settlementDays > 0 then 1 else 2) * DAY
    ensures var t := SimScheduler.Exec(Handlers(sample), details.tenant, Created(s, merchant, details), turns);
            var x := t.world.txns[k];
            && x.batch.Some? && x.batch.value < |t.world.batches|
            && var b := t.world.batches[x.batch.value];
               b.tenant == x.tenant && b.merchant == x.merchant && b.date == x.expected
  {
    hide *;
    var s' := Created(s, merchant, details);
    var t := SimScheduler.Exec(Handlers(sample), details.tenant, s', turns);
    CreatedSteady(s, merchant, details);
    var h := SteadyDays(sample, s', turns, details.tenant, merchant, Today(s.clock), |s.jobs|);
    SteadySettled(t, details.tenant, merchant, Today(s.clock) + |turns|, h, k);
    CreatedTerms(s, merchant, details, t);
    GraceIs(details.terms);
    SteadyParts(t, details.tenant, merchant, Today(s.clock) + |turns|, h);
    SettledFiled(t.world, k);
  }

  lemma GraceIs(terms: Terms)
    ensures Grace(terms) == if terms.settlementDays > 0 then 1 else 2
  {
  }

  lemma CreatedTerms(s: Sys<Db, Payload>, merchant: int, details: Merchant, t: Sys<Db, Payload>)
    requires Later(Created(s, merchant, details).world, t.world)
    ensures merchant in t.world.merchants && t.world.merchants[merchant] == details
  {
    hide Aged;
  }

  lemma SettledFiled(db: Db, k: nat)
    requires Consistent(db) && k < |db.txns| && db.txns[k].batch.Some?
    ensures var x := db.txns[k];
            && x.batch.value < |db.batches|
            && var b := db.batches[x.batch.value];
               b.tenant == x.tenant && b.merchant == x.merchant && b.date == x.expected
  {
    hide Priced, Balanced;
    assert Filed(db, db.txns[k]);
  }

  // ---- what is sold -----------------------------------------------------

  /** The dates and amounts of the merchant's rows, in table order. */
  ghost function SalesOf(txns: seq<Txn>, tenant: int, merchant: int): seq<(int, nat)> {
    if txns == [] then []
    else
      var x := txns[|txns| - 1];
      SalesOf(txns[..|txns| - 1], tenant, merchant)
      + if x.tenant == tenant && x.merchant == merchant then [(x.saleDate, x.amount)] else []
  }

  /** What the generator draws for the merchant on a date: nothing while it is inactive. */
  ghost function DrawnDay(sample: Sampler, m: Merchant, merchant: int, date: int): seq<(int, nat)> {
    if m.active then
      var amounts := sample(m.tenant, merchant, date);
      seq(|amounts|, k requires 0 <= k < |amounts| => (date, amounts[k]))
    else []
  }

  ghost function DrawnDays(sample: Sampler, m: Merchant, merchant: int, dates: seq<int>): seq<(int, nat)> {
    if dates == [] then []
    else DrawnDays(sample, m, merchant, dates[..|dates| - 1]) + DrawnDay(sample, m, merchant, dates[|dates| - 1])
  }

  /** The merchant has sold what was drawn for the dates generated, in order, and nothing else. */
  ghost predicate SoldAsDrawn(sample: Sampler, s: Sys<Db, Payload>, tenant: int, merchant: int) {
    && Known(s.world, tenant, merchant)
    && SalesOf(s.world.txns, tenant, merchant)
       == DrawnDays(sample, s.world.merchants[merchant], merchant, Dates(s.jobs, s.log, tenant, merchant))
  }

  lemma {:induction false} SalesConcat(x: seq<Txn>, y: seq<Txn>, tenant: int, merchant: int)
    ensures SalesOf(x + y, tenant, merchant) == SalesOf(x, tenant, merchant) + SalesOf(y, tenant, merchant)
    decreases |y|
  {
    if y == [] {
      assert x + y == x;
    } else {
      assert (x + y)[..|x + y| - 1] == x + y[..|y| - 1];
      SalesConcat(x, y[..|y| - 1], tenant, merchant);
    }
  }

  lemma {:induction false} SalesSame(x: seq<Txn>, y: seq<Txn>, tenant: int, merchant: int)
    requires |x| == |y| && forall k | 0 <= k < |x| :: y[k].(batch := x[k].batch) == x[k]
    ensures SalesOf(y, tenant, merchant) == SalesOf(x, tenant, merchant)
    decreases |x|
  {
    if x != [] {
      SalesSame(x[..|x| - 1], y[..|x| - 1], tenant, merchant);
    }
  }

  lemma {:induction false} SalesNone(x: seq<Txn>, tenant: int, merchant: int)
    requires forall k | 0 <= k < |x| :: x[k].tenant != tenant || x[k].merchant != merchant
    ensures SalesOf(x, tenant, merchant) == []
    decreases |x|
  {
    if x != [] {
      SalesNone(x[..|x| - 1], tenant, merchant);
    }
  }

  lemma {:induction false} SalesListed(x: seq<Txn>, tenant: int, merchant: int, sales: seq<(int, nat)>)
    requires |x| == |sales| && forall k | 0 <= k < |x| ::
      x[k].tenant == tenant && x[k].merchant == merchant && (x[k].saleDate, x[k].amount) == sales[k]
    ensures SalesOf(x, tenant, merchant) == sales
    decreases |x|
  {
    if x != [] {
      SalesListed(x[..|x| - 1], tenant, merchant, sales[..|x| - 1]);
    }
  }

  /** A generation sells the day's draw for its merchant and nothing for any other. */
  lemma GenerationSells(sample: Sampler, db: Db, p: Payload, tenant: int, merchant: int)
    requires p.GenerateDay? && ValidMerchants(db) && Known(db, tenant, merchant)
    ensures SalesOf(Handle(sample, db, p).world.txns, tenant, merchant) == SalesOf(db.txns, tenant, merchant)
              + if Generates(p, tenant, merchant) then DrawnDay(sample, db.merchants[merchant], merchant, p.date) else []
  {
    GenerationIs(sample, db, p.tenant, p.merchant, p.date);
    DayIs(sample, db, p.tenant, p.merchant, p.date);
    hide Handle, Sell, DayAmounts, DayRequests, IsSettlementDate, SalesOf;
    var after := Handle(sample, db, p).world.txns;
    if Known(db, p.tenant, p.merchant) && db.merchants[p.merchant].active {
      var amounts, added := sample(p.tenant, p.merchant, p.date), after[|db.txns|..];
      assert after == db.txns + added;
      SalesConcat(db.txns, added, tenant, merchant);
      forall k | 0 <= k < |added|
        ensures added[k].tenant == p.tenant && added[k].merchant == p.merchant
        ensures (added[k].saleDate, added[k].amount) == (p.date, amounts[k])
      {
        assert added[k] == after[|db.txns| + k];
      }
      if Generates(p, tenant, merchant) {
        SalesListed(added, tenant, merchant, DrawnDay(sample, db.merchants[merchant], merchant, p.date));
      } else {
        SalesNone(added, tenant, merchant);
      }
    }
  }

  lemma SettlementSells(sample: Sampler, db: Db, p: Payload, tenant: int, merchant: int)
    requires p.SettleDay?
    ensures SalesOf(Handle(sample, db, p).world.txns, tenant, merchant) == SalesOf(db.txns, tenant, merchant)
  {
    SettleIs(db, p.tenant, p.merchant, p.date);
    assert Handle(sample, db, p).world == Settle(db, p.tenant, p.merchant, p.date);
    hide Handle, Settle, Idle;
    SalesSame(db.txns, Handle(sample, db, p).world.txns, tenant, merchant);
  }

  lemma DrawnStep(sample: Sampler, m: Merchant, merchant: int, dates: seq<int>, date: int)
    ensures DrawnDays(sample, m, merchant, dates + [date])
         == DrawnDays(sample, m, merchant, dates) + DrawnDay(sample, m, merchant, date)
  {
    assert (dates + [date])[..|dates|] == dates;
  }

  /** Every job that runs keeps the merchant's rows what was drawn for its dates. */
  lemma JobSells(sample: Sampler, s: Sys<Db, Payload>, i: nat, tenant: int, merchant: int)
    requires SoldAsDrawn(sample, s, tenant, merchant) && Logged(s) && ValidMerchants(s.world) && i < |s.jobs|
    ensures var t := RunJob(Handlers(sample), s, i);
            && SoldAsDrawn(sample, t, tenant, merchant) && Logged(t) && ValidMerchants(t.world)
            && t.world.merchants == s.world.merchants && |s.jobs| <= |t.jobs|
  {
    hide Handle, RunJob, Handlers, Dates, SalesOf, DrawnDay, DrawnDays, ValidTerms, Generates;
    var p, t := s.jobs[i].payload, RunJob(Handlers(sample), s, i);
    JobRuns(sample, s, i);
    HandleMerchants(sample, s.world, p);
    DatesKept(s.jobs, t.jobs, s.log, tenant, merchant);
    DatesStep(t.jobs, s.log, Firing(i, s.jobs[i].fireAt, s.clock), tenant, merchant);
    if p.SettleDay? {
      SettlementSells(sample, s.world, p, tenant, merchant);
      NeverGenerates(p, tenant, merchant);
    } else {
      GenerationSells(sample, s.world, p, tenant, merchant);
      DrawnStep(sample, s.world.merchants[merchant], merchant, Dates(s.jobs, s.log, tenant, merchant), p.date);
    }
    if !Generates(p, tenant, merchant) {
      assert Dates(t.jobs, t.log, tenant, merchant) == Dates(s.jobs, s.log, tenant, merchant);
      assert SalesOf(t.world.txns, tenant, merchant) == SalesOf(s.world.txns, tenant, merchant);
    }
  }

  lemma NeverGenerates(p: Payload, tenant: int, merchant: int)
    requires p.SettleDay?
    ensures !Generates(p, tenant, merchant)
  {
  }

  lemma {:induction false} JobsSell(sample: Sampler, s: Sys<Db, Payload>, order: seq<nat>, tenant: int, merchant: int)
    requires SoldAsDrawn(sample, s, tenant, merchant) && Logged(s) && ValidMerchants(s.world) && Ready(s.jobs, order)
    ensures forall p | 0 <= p < |order| :: order[p] < |s.jobs|
    ensures var t := RunJobs(Handlers(sample), s, order);
            && SoldAsDrawn(sample, t, tenant, merchant) && Logged(t) && ValidMerchants(t.world)
            && t.world.merchants == s.world.merchants
    decreases |order|
  {
    hide SoldAsDrawn, Logged, ValidMerchants, Ready, RunJob, Handlers, RunJobs;
    ReadyListed(s.jobs, order);
    if order == [] {
      NoJobs(Handlers(sample), s, order);
    } else {
      ReadyRest(sample, s, order);
      ReadyListed(RunJob(Handlers(sample), s, order[0]).jobs, order[1..]);
      RunFirst(Handlers(sample), s, order);
      JobSells(sample, s, order[0], tenant, merchant);
      JobsSell(sample, RunJob(Handlers(sample), s, order[0]), order[1..], tenant, merchant);
    }
  }

  lemma SoldClock(sample: Sampler, s: Sys<Db, Payload>, tenant: int, merchant: int, clock: int)
    ensures SoldAsDrawn(sample, s.(clock := clock), tenant, merchant) <==> SoldAsDrawn(sample, s, tenant, merchant)
    ensures Logged(s.(clock := clock)) <==> Logged(s)
  {
  }

  lemma OrderReady<P>(jobs: seq<Job<P>>, tenant: int, end: int, order: seq<nat>)
    requires DueOrder(jobs, tenant, end, order)
    ensures Ready(jobs, order)
  {
  }

  /** Over every run of slices, whichever dates they generate: exactly what was drawn for them is sold. */
  lemma {:induction false} SalesFollowDates(
    sample: Sampler, s: Sys<Db, Payload>, turns: seq<Turn>, tenant: int, merchant: int)
    requires SoldAsDrawn(sample, s, tenant, merchant) && Logged(s) && ValidMerchants(s.world)
    requires Legal(Handlers(sample), tenant, s, turns)
    ensures var t := SimScheduler.Exec(Handlers(sample), tenant, s, turns);
            SoldAsDrawn(sample, t, tenant, merchant) && t.world.merchants == s.world.merchants
    decreases |turns|
  {
    hide *;
    if turns == [] {
      NoSlice(Handlers(sample), tenant, s, turns);
    } else {
      FirstSlice(Handlers(sample), tenant, s, turns);
      var end := s.clock + turns[0].length;
      SliceIs(Handlers(sample), tenant, s, turns[0]);
      OrderReady(s.jobs, tenant, end, turns[0].order);
      SoldClock(sample, s, tenant, merchant, end);
      JobsSell(sample, s.(clock := end), turns[0].order, tenant, merchant);
      SalesFollowDates(sample, RunSlice(Handlers(sample), tenant, s, turns[0]), turns[1..], tenant, merchant);
    }
  }

  lemma CreatedSoldNothing(sample: Sampler, s: Sys<Db, Payload>, merchant: int, details: Merchant)
    requires Unheard(s, merchant) && Logged(s) && ValidTerms(details.terms) && ValidMerchants(s.world)
    ensures var t := Created(s, merchant, details);
            && SoldAsDrawn(sample, t, details.tenant, merchant) && Logged(t) && ValidMerchants(t.world)
            && t.world.merchants[merchant] == details
  {
    hide ValidTerms, NewJobs;
    CreatedNone(s, merchant, details);
    SalesNone(s.world.txns, details.tenant, merchant);
  }

  /**
    From its creation on, k slices of one day sell for a merchant exactly what is drawn for today and
    the k - 1 days after it, date by date and amount by amount; nothing if it is inactive.
  */
  lemma {:induction false} CreatedSales(
    sample: Sampler, s: Sys<Db, Payload>, turns: seq<Turn>, merchant: int, details: Merchant)
    requires Unheard(s, merchant) && Logged(s) && ValidTerms(details.terms) && ValidMerchants(s.world)
    requires Legal(Handlers(sample), details.tenant, Created(s, merchant, details), turns) && WholeDaySlices(turns)
    ensures var t := SimScheduler.Exec(Handlers(sample), details.tenant, Created(s, merchant, details), turns);
            SalesOf(t.world.txns, details.tenant, merchant)
            == DrawnDays(sample, details, merchant, seq(|turns|, k => s.clock / DAY + k))
  {
    CreatedSoldNothing(sample, s, merchant, details);
    hide Unheard, Logged, ValidTerms, ValidMerchants, Legal, Created, WholeDaySlices, Exec, SalesOf, DrawnDays,
         Dates, Handlers;
    SalesFollowDates(sample, Created(s, merchant, details), turns, details.tenant, merchant);
    CreatedDates(sample, s, turns, merchant, details);
  }
}
