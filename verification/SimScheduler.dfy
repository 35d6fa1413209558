/**
  Simulated time: `core/sim_scheduler.py` over the clock of `clock.py`.

  Times and durations are in microseconds. The job table only grows, so a job's id is its
  index. `W` is the rest of the database, `P` a job's type and payload. The registry of
  handlers is a value, as in the source; a handler runs in sessions of its own.
*/
module SimScheduler {
  import opened Arithmetic
  import opened Prelude

  const SECOND := 1_000_000
  const DAY := 86_400 * SECOND

  datatype JobStatus = Waiting | Fired | Failed

  datatype Job<P> = Job(tenant: Option<int>, fireAt: int, payload: P, status: JobStatus)

  /** What `schedule_at` is asked for. */
  datatype Request<P> = Request(tenant: Option<int>, fireAt: int, payload: P)

  /** The handler's committed effects, and whether it returned or raised. */
  datatype Outcome<W, P> = Outcome(world: W, requests: seq<Request<P>>, returned: bool)

  datatype Registry<!W, !P> = Registry(known: P -> bool, handle: (int, W, Job<P>) -> Outcome<W, P>)

  /** One job taken up by a slice, and the clock when it was. */
  datatype Firing = Firing(job: nat, fireAt: int, at: int)

  datatype Sys<W, P> = Sys(clock: int, jobs: seq<Job<P>>, world: W, log: seq<Firing>)

  // ---- one slice --------------------------------------------------------

  function NewJobs<P>(requests: seq<Request<P>>): seq<Job<P>> {
    seq(|requests|, k requires 0 <= k < |requests| =>
      Job(requests[k].tenant, requests[k].fireAt, requests[k].payload, Waiting))
  }

  predicate Due<P>(j: Job<P>, tenant: int, end: int) {
    j.status == Waiting && j.fireAt <= end && (j.tenant == None || j.tenant == Some(tenant))
  }

  /** `order` may come back from the query of due jobs: all of them, by `fire_at`. */
  ghost predicate DueOrder<P>(jobs: seq<Job<P>>, tenant: int, end: int, order: seq<nat>) {
    && (forall p | 0 <= p < |order| :: order[p] < |jobs| && Due(jobs[order[p]], tenant, end))
    && (forall i | 0 <= i < |jobs| && Due(jobs[i], tenant, end) :: i in order)
    && (forall p, q | 0 <= p < q < |order| :: order[p] != order[q] && jobs[order[p]].fireAt <= jobs[order[q]].fireAt)
  }

  function RunJob<W, P>(reg: Registry<W, P>, s: Sys<W, P>, i: nat): (t: Sys<W, P>)
    requires i < |s.jobs|
  {
    var j := s.jobs[i];
    var log := s.log + [Firing(i, j.fireAt, s.clock)];
    if !reg.known(j.payload) then
      s.(jobs := s.jobs[i := j.(status := Failed)], log := log)
    else
      var o := reg.handle(s.clock, s.world, j);
      s.(jobs := s.jobs[i := j.(status := if o.returned then Fired else Failed)] + NewJobs(o.requests),
         world := o.world, log := log)
  }

  ghost function RunJobs<W, P>(reg: Registry<W, P>, s: Sys<W, P>, order: seq<nat>): Sys<W, P>
    requires forall p | 0 <= p < |order| :: order[p] < |s.jobs|
    decreases |order|
  {
    if order == [] then s else RunJobs(reg, RunJob(reg, s, order[0]), order[1..])
  }

  /** One slice of an advance: how far, and how the database listed the jobs due. */
  datatype Turn = Turn(length: int, order: seq<nat>)

  ghost predicate Enabled<W, P>(tenant: int, s: Sys<W, P>, turn: Turn) {
    DueOrder(s.jobs, tenant, s.clock + turn.length, turn.order)
  }

  /** `_run_one_slice`. */
  ghost function RunSlice<W, P>(reg: Registry<W, P>, tenant: int, s: Sys<W, P>, turn: Turn): Sys<W, P>
    requires Enabled(tenant, s, turn)
  {
    RunJobs(reg, s.(clock := s.clock + turn.length), turn.order)
  }

  ghost predicate Legal<W, P>(reg: Registry<W, P>, tenant: int, s: Sys<W, P>, turns: seq<Turn>)
    decreases |turns|
  {
    turns == [] ||
    (Enabled(tenant, s, turns[0]) && Legal(reg, tenant, RunSlice(reg, tenant, s, turns[0]), turns[1..]))
  }

  ghost function Exec<W, P>(reg: Registry<W, P>, tenant: int, s: Sys<W, P>, turns: seq<Turn>): Sys<W, P>
    requires Legal(reg, tenant, s, turns)
    decreases |turns|
  {
    if turns == [] then s else Exec(reg, tenant, RunSlice(reg, tenant, s, turns[0]), turns[1..])
  }

  ghost function Lengths(turns: seq<Turn>): seq<int> {
    seq(|turns|, k requires 0 <= k < |turns| => turns[k].length)
  }

  // ---- slicing a duration -----------------------------------------------

  ghost function Slices(d: int, size: int): seq<int>
    requires size > 0
    decreases if d > 0 then d else 0
  {
    if d <= 0 then [] else if d <= size then [d] else [size] + Slices(d - size, size)
  }

  ghost function Sum(durations: seq<int>): int {
    if durations == [] then 0 else durations[0] + Sum(durations[1..])
  }

  /** The slices of a duration add up to it, so the clock ends exactly there. */
  lemma {:induction false} SlicesSum(d: int, size: int)
    requires size > 0 && d >= 0
    ensures Sum(Slices(d, size)) == d
    ensures forall k | 0 <= k < |Slices(d, size)| :: 0 < Slices(d, size)[k] <= size
    ensures forall k | 0 <= k < |Slices(d, size)| - 1 :: Slices(d, size)[k] == size
    decreases d
  {
    if d > size {
      SlicesSum(d - size, size);
      assert Slices(d, size)[1..] == Slices(d - size, size);
    }
  }

  /** The number of slices is the duration divided by the slice size, rounded up. */
  lemma {:induction false} SlicesCount(d: int, size: int)
    requires size > 0 && d >= 0
    ensures |Slices(d, size)| == (d + size - 1) / size
    decreases d
  {
    if d > size {
      SlicesCount(d - size, size);
      DivStep(d - 1, size);
    } else if d > 0 {
      DivOnce(d + size - 1, size);
    } else {
      DivNone(size - 1, size);
    }
  }

  /**
    Advancing a and then b runs the slices of advancing a + b exactly when a is a whole
    number of slices (or b is nothing).
  */
  lemma {:induction false} SlicesCompose(a: int, b: int, size: int)
    requires size > 0 && a >= 0 && b >= 0
    ensures Slices(a, size) + Slices(b, size) == Slices(a + b, size) <==> b == 0 || a % size == 0
    decreases a
  {
    if a == 0 {
      assert Slices(a, size) + Slices(b, size) == Slices(b, size);
    } else if a > size {
      SlicesCompose(a - size, b, size);
      ModStep(a - size, size);
      var x, y, z := Slices(a - size, size), Slices(b, size), Slices(a - size + b, size);
      assert Slices(a + b, size) == [size] + z;
      assert Slices(a, size) + y == [size] + (x + y);
      assert ([size] + (x + y))[1..] == x + y && ([size] + z)[1..] == z;
    } else if b == 0 {
      assert Slices(a, size) + Slices(b, size) == Slices(a, size);
    } else {
      assert (Slices(a, size) + Slices(b, size))[0] == a;
      if a == size {
        assert Slices(a, size) + Slices(b, size) == [size] + Slices(b, size);
        ModStep(0, size);
      } else {
        assert a + b <= size ==> Slices(a + b, size) == [a + b];
        assert Slices(a + b, size)[0] != a;
        ModSmall(a, size);
      }
    }
  }

  lemma {:induction false} ExecConcat<W, P>(
    reg: Registry<W, P>, tenant: int, s: Sys<W, P>, x: seq<Turn>, y: seq<Turn>)
    ensures Legal(reg, tenant, s, x + y) <==>
            Legal(reg, tenant, s, x) && Legal(reg, tenant, Exec(reg, tenant, s, x), y)
    ensures Legal(reg, tenant, s, x + y) ==>
            Exec(reg, tenant, s, x + y) == Exec(reg, tenant, Exec(reg, tenant, s, x), y)
    decreases |x|
  {
    if x == [] {
      assert x + y == y;
    } else {
      assert (x + y)[0] == x[0] && (x + y)[1..] == x[1..] + y;
      hide RunSlice, Enabled;
      if Enabled(tenant, s, x[0]) {
        ExecConcat(reg, tenant, RunSlice(reg, tenant, s, x[0]), x[1..], y);
      }
    }
  }

  /** Some choice of query orders takes s to t in slices of the given lengths. */
  ghost predicate Reaches<W, P>(reg: Registry<W, P>, tenant: int, s: Sys<W, P>, lengths: seq<int>, t: Sys<W, P>) {
    exists turns :: Lengths(turns) == lengths && Legal(reg, tenant, s, turns) && t == Exec(reg, tenant, s, turns)
  }

  lemma ReachesThen<W, P>(
    reg: Registry<W, P>, tenant: int, s: Sys<W, P>, la: seq<int>, m: Sys<W, P>, lb: seq<int>, t: Sys<W, P>)
    requires Reaches(reg, tenant, s, la, m) && Reaches(reg, tenant, m, lb, t)
    ensures Reaches(reg, tenant, s, la + lb, t)
  {
    hide Legal, Exec;
    var x :| Lengths(x) == la && Legal(reg, tenant, s, x) && m == Exec(reg, tenant, s, x);
    var y :| Lengths(y) == lb && Legal(reg, tenant, m, y) && t == Exec(reg, tenant, m, y);
    ExecConcat(reg, tenant, s, x, y);
    assert Lengths(x + y) == la + lb;
  }

  lemma ReachesSplit<W, P>(
    reg: Registry<W, P>, tenant: int, s: Sys<W, P>, la: seq<int>, lb: seq<int>, t: Sys<W, P>) returns (m: Sys<W, P>)
    requires Reaches(reg, tenant, s, la + lb, t)
    ensures Reaches(reg, tenant, s, la, m) && Reaches(reg, tenant, m, lb, t)
  {
    var turns :| Lengths(turns) == la + lb && Legal(reg, tenant, s, turns) && t == Exec(reg, tenant, s, turns);
    var x, y := turns[..|la|], turns[|la|..];
    assert turns == x + y;
    assert Lengths(x) == Lengths(turns)[..|la|] == la;
    assert Lengths(y) == Lengths(turns)[|la|..] == lb;
    hide Legal, Exec;
    ExecConcat(reg, tenant, s, x, y);
    m := Exec(reg, tenant, s, x);
  }

  /** `advance(a); advance(b)` and `advance(a + b)` have the same outcomes when a is whole slices. */
  lemma AdvanceComposes<W(!new), P(!new)>(
    reg: Registry<W, P>, tenant: int, s: Sys<W, P>, a: int, b: int, size: int, t: Sys<W, P>)
    requires size > 0 && a >= 0 && b >= 0 && a % size == 0
    ensures Reaches(reg, tenant, s, Slices(a + b, size), t) <==>
            exists m :: Reaches(reg, tenant, s, Slices(a, size), m) && Reaches(reg, tenant, m, Slices(b, size), t)
  {
    var la, lb := Slices(a, size), Slices(b, size);
    SlicesCompose(a, b, size);
    hide Slices, Reaches;
    if Reaches(reg, tenant, s, la + lb, t) {
      var m := ReachesSplit(reg, tenant, s, la, lb, t);
    }
    forall m | Reaches(reg, tenant, s, la, m) && Reaches(reg, tenant, m, lb, t)
      ensures Reaches(reg, tenant, s, la + lb, t)
    {
      ReachesThen(reg, tenant, s, la, m, lb, t);
    }
  }

  // ---- what a slice does to the job table -------------------------------

  ghost function Firings<P>(jobs: seq<Job<P>>, order: seq<nat>, at: int): seq<Firing>
    requires forall p | 0 <= p < |order| :: order[p] < |jobs|
  {
    seq(|order|, p requires 0 <= p < |order| => Firing(order[p], jobs[order[p]].fireAt, at))
  }

  /** The job i after a slice that took up `order`. */
  ghost predicate Settled<P>(before: Job<P>, after: Job<P>, taken: bool) {
    if taken then after.status != Waiting && after.(status := before.status) == before
    else after == before
  }

  lemma RunJobEffect<W, P>(reg: Registry<W, P>, s: Sys<W, P>, i: nat)
    requires i < |s.jobs|
    ensures var t := RunJob(reg, s, i);
            && t.clock == s.clock && t.log == s.log + [Firing(i, s.jobs[i].fireAt, s.clock)]
            && |s.jobs| <= |t.jobs|
            && (forall k | 0 <= k < |s.jobs| :: Settled(s.jobs[k], t.jobs[k], k == i))
            && (forall k | |s.jobs| <= k < |t.jobs| :: t.jobs[k].status == Waiting)
  {
  }

  /**
    A job whose type no handler knows ends failed, and nothing else changes. Any other is handed the
    world as it is; what its handler commits stays even if it then raises, and the job has fired
    exactly if it returned.
  */
  lemma RunJobOutcome<W, P>(reg: Registry<W, P>, s: Sys<W, P>, i: nat)
    requires i < |s.jobs|
    ensures var t, j := RunJob(reg, s, i), s.jobs[i];
            if !reg.known(j.payload) then
              t.world == s.world && t.jobs == s.jobs[i := j.(status := Failed)]
            else
              var o := reg.handle(s.clock, s.world, j);
              && t.world == o.world && |t.jobs| == |s.jobs| + |o.requests|
              && t.jobs[..|s.jobs|] == s.jobs[i := j.(status := if o.returned then Fired else Failed)]
              && forall q | 0 <= q < |o.requests| ::
                   t.jobs[|s.jobs| + q]
                   == Job(o.requests[q].tenant, o.requests[q].fireAt, o.requests[q].payload, Waiting)
  {
    if reg.known(s.jobs[i].payload) {
      var o := reg.handle(s.clock, s.world, s.jobs[i]);
      assert |NewJobs(o.requests)| == |o.requests|;
    }
  }

  lemma SettledTwice<P>(before: Job<P>, mid: Job<P>, after: Job<P>, x: bool, y: bool)
    requires Settled(before, mid, x) && Settled(mid, after, y) && !(x && y)
    ensures Settled(before, after, x || y)
  {
  }

  lemma {:induction false} RunJobsTable<W, P>(reg: Registry<W, P>, s: Sys<W, P>, order: seq<nat>)
    requires forall p | 0 <= p < |order| :: order[p] < |s.jobs|
    requires forall p, q | 0 <= p < q < |order| :: order[p] != order[q]
    ensures var t := RunJobs(reg, s, order);
            && t.clock == s.clock && |s.jobs| <= |t.jobs|
            && (forall i | 0 <= i < |s.jobs| :: Settled(s.jobs[i], t.jobs[i], i in order))
            && (forall i | |s.jobs| <= i < |t.jobs| :: t.jobs[i].status == Waiting)
    decreases |order|
  {
    if order != [] {
      var i, rest := order[0], order[1..];
      assert order == [i] + rest;
      assert i !in rest;
      var m, t := RunJob(reg, s, i), RunJobs(reg, s, order);
      RunJobEffect(reg, s, i);
      RunJobsTable(reg, m, rest);
      assert t == RunJobs(reg, m, rest);
      hide RunJob, RunJobs;
      forall k | |s.jobs| <= k < |t.jobs| ensures t.jobs[k].status == Waiting {
        if k < |m.jobs| {
          assert k !in rest;
          assert Settled(m.jobs[k], t.jobs[k], k in rest);
        }
      }
      hide Settled;
      forall k | 0 <= k < |s.jobs| ensures Settled(s.jobs[k], t.jobs[k], k in order) {
        SettledTwice(s.jobs[k], m.jobs[k], t.jobs[k], k == i, k in rest);
      }
    }
  }

  lemma {:induction false} RunJobsLog<W, P>(reg: Registry<W, P>, s: Sys<W, P>, order: seq<nat>)
    requires forall p | 0 <= p < |order| :: order[p] < |s.jobs|
    requires forall p, q | 0 <= p < q < |order| :: order[p] != order[q]
    ensures RunJobs(reg, s, order).log == s.log + Firings(s.jobs, order, s.clock)
    decreases |order|
  {
    if order != [] {
      var i, rest := order[0], order[1..];
      var m := RunJob(reg, s, i);
      RunJobEffect(reg, s, i);
      RunJobsLog(reg, m, rest);
      hide RunJob, RunJobs;
      forall p | 0 <= p < |rest| ensures m.jobs[rest[p]].fireAt == s.jobs[rest[p]].fireAt {
        assert Settled(s.jobs[rest[p]], m.jobs[rest[p]], false);
      }
      assert Firings(s.jobs, order, s.clock)
          == [Firing(i, s.jobs[i].fireAt, s.clock)] + Firings(m.jobs, rest, s.clock);
    }
  }

  /** A slice takes up exactly the due jobs; jobs its handlers schedule wait for a later slice. */
  lemma SliceEffect<W, P>(reg: Registry<W, P>, tenant: int, s: Sys<W, P>, turn: Turn)
    requires Enabled(tenant, s, turn)
    ensures var t, end := RunSlice(reg, tenant, s, turn), s.clock + turn.length;
            && t.clock == end && |s.jobs| <= |t.jobs|
            && (forall i | 0 <= i < |s.jobs| :: Settled(s.jobs[i], t.jobs[i], Due(s.jobs[i], tenant, end)))
            && (forall i | |s.jobs| <= i < |t.jobs| :: t.jobs[i].status == Waiting)
            && t.log == s.log + Firings(s.jobs, turn.order, end)
  {
    var s', t := s.(clock := s.clock + turn.length), RunSlice(reg, tenant, s, turn);
    RunJobsTable(reg, s', turn.order);
    RunJobsLog(reg, s', turn.order);
    hide Settled, RunJobs;
    assert t == RunJobs(reg, s', turn.order);
    forall i | 0 <= i < |s.jobs| ensures Settled(s.jobs[i], t.jobs[i], Due(s.jobs[i], tenant, t.clock)) {
      assert i in turn.order <==> Due(s.jobs[i], tenant, t.clock);
    }
  }

  // ---- what a whole advance does ----------------------------------------

  /** The jobs taken up by an advance, in the order they were. */
  ghost function NewFirings<W, P>(reg: Registry<W, P>, tenant: int, s: Sys<W, P>, turns: seq<Turn>): seq<Firing>
    requires Legal(reg, tenant, s, turns)
    decreases |turns|
  {
    if turns == [] then []
    else Firings(s.jobs, turns[0].order, s.clock + turns[0].length)
         + NewFirings(reg, tenant, RunSlice(reg, tenant, s, turns[0]), turns[1..])
  }

  ghost function Total(turns: seq<Turn>): int {
    if turns == [] then 0 else turns[0].length + Total(turns[1..])
  }

  ghost predicate Forward(turns: seq<Turn>) {
    forall k | 0 <= k < |turns| :: turns[k].length >= 0
  }

  lemma {:induction false} TotalForward(turns: seq<Turn>)
    requires Forward(turns)
    ensures Total(turns) >= 0
  {
    if turns != [] {
      TotalForward(turns[1..]);
    }
  }

  lemma {:induction false} TotalIsSum(turns: seq<Turn>)
    ensures Total(turns) == Sum(Lengths(turns))
  {
    if turns != [] {
      TotalIsSum(turns[1..]);
      assert Lengths(turns)[1..] == Lengths(turns[1..]);
    }
  }

  lemma Unfold<W, P>(reg: Registry<W, P>, tenant: int, s: Sys<W, P>, turns: seq<Turn>)
    requires Legal(reg, tenant, s, turns) && turns != []
    ensures Enabled(tenant, s, turns[0])
    ensures var m := RunSlice(reg, tenant, s, turns[0]);
            && Legal(reg, tenant, m, turns[1..])
            && Exec(reg, tenant, s, turns) == Exec(reg, tenant, m, turns[1..])
            && NewFirings(reg, tenant, s, turns)
               == Firings(s.jobs, turns[0].order, s.clock + turns[0].length) + NewFirings(reg, tenant, m, turns[1..])
            && Total(turns) == turns[0].length + Total(turns[1..])
  {
    hide RunSlice, Firings;
  }

  lemma ListedAreJobs<W, P>(tenant: int, s: Sys<W, P>, turn: Turn)
    requires Enabled(tenant, s, turn)
    ensures forall p | 0 <= p < |turn.order| :: turn.order[p] < |s.jobs|
    ensures DueOrder(s.jobs, tenant, s.clock + turn.length, turn.order)
  {
  }

  /** The first slice, and the advance that remains after it. */
  lemma FirstSlice<W, P>(reg: Registry<W, P>, tenant: int, s: Sys<W, P>, turns: seq<Turn>)
    requires Legal(reg, tenant, s, turns) && turns != []
    ensures Enabled(tenant, s, turns[0])
    ensures forall p | 0 <= p < |turns[0].order| :: turns[0].order[p] < |s.jobs|
    ensures var m := RunSlice(reg, tenant, s, turns[0]);
            && Legal(reg, tenant, m, turns[1..])
            && Exec(reg, tenant, s, turns) == Exec(reg, tenant, m, turns[1..])
            && NewFirings(reg, tenant, s, turns)
               == Firings(s.jobs, turns[0].order, m.clock) + NewFirings(reg, tenant, m, turns[1..])
            && m.clock == s.clock + turns[0].length
            && m.clock + Total(turns[1..]) == s.clock + Total(turns)
            && DueOrder(s.jobs, tenant, m.clock, turns[0].order)
            && |s.jobs| <= |m.jobs|
            && m.log == s.log + Firings(s.jobs, turns[0].order, m.clock)
  {
    hide *;
    Unfold(reg, tenant, s, turns);
    ListedAreJobs(tenant, s, turns[0]);
    SliceEffect(reg, tenant, s, turns[0]);
  }

  lemma ForwardRest(turns: seq<Turn>)
    requires Forward(turns) && turns != []
    ensures Forward(turns[1..]) && Total(turns[1..]) >= 0
  {
    TotalForward(turns[1..]);
  }

  lemma NoSlice<W, P>(reg: Registry<W, P>, tenant: int, s: Sys<W, P>, turns: seq<Turn>)
    requires turns == []
    ensures Legal(reg, tenant, s, turns)
    ensures Exec(reg, tenant, s, turns) == s && NewFirings(reg, tenant, s, turns) == [] && Total(turns) == 0
  {
  }

  lemma FirstSliceJob<W, P>(reg: Registry<W, P>, tenant: int, s: Sys<W, P>, turn: Turn, i: nat)
    requires Enabled(tenant, s, turn) && i < |s.jobs|
    ensures i < |RunSlice(reg, tenant, s, turn).jobs|
    ensures RunSlice(reg, tenant, s, turn).clock == s.clock + turn.length
    ensures Settled(s.jobs[i], RunSlice(reg, tenant, s, turn).jobs[i],
                    Due(s.jobs[i], tenant, RunSlice(reg, tenant, s, turn).clock))
    ensures Taken(Firings(s.jobs, turn.order, RunSlice(reg, tenant, s, turn).clock), i) <==>
            Due(s.jobs[i], tenant, RunSlice(reg, tenant, s, turn).clock)
  {
    SliceEffect(reg, tenant, s, turn);
    FiringsTake(s.jobs, tenant, s.clock + turn.length, turn.order, i);
  }

  ghost predicate Taken(log: seq<Firing>, i: nat) {
    exists k | 0 <= k < |log| :: log[k].job == i
  }

  lemma TakenConcat(x: seq<Firing>, y: seq<Firing>, i: nat)
    ensures Taken(x + y, i) <==> Taken(x, i) || Taken(y, i)
  {
    if Taken(x, i) {
      var k :| 0 <= k < |x| && x[k].job == i;
      assert (x + y)[k].job == i;
    }
    if Taken(y, i) {
      var k :| 0 <= k < |y| && y[k].job == i;
      assert (x + y)[|x| + k].job == i;
    }
  }

  lemma NothingTaken(i: nat)
    ensures !Taken([], i)
  {
  }

  lemma SomeSlice<W, P>(reg: Registry<W, P>, tenant: int, s: Sys<W, P>, turns: seq<Turn>)
    requires Legal(reg, tenant, s, turns) && |NewFirings(reg, tenant, s, turns)| > 0
    ensures turns != []
  {
  }

  // How one job looks before and after a slice ending at `end`.

  lemma SettledLater<P>(before: Job<P>, mid: Job<P>, after: Job<P>, tenant: int, end: int, last: int)
    requires Settled(before, mid, Due(before, tenant, end)) && end <= last
    requires Settled(mid, after, Due(mid, tenant, last))
    ensures Settled(before, after, Due(before, tenant, last))
  {
  }

  lemma DueSplits<P>(before: Job<P>, mid: Job<P>, tenant: int, end: int, last: int)
    requires Settled(before, mid, Due(before, tenant, end)) && end <= last
    ensures Due(before, tenant, last) <==> Due(before, tenant, end) || Due(mid, tenant, last)
  {
  }

  lemma DoneNotDue<P>(before: Job<P>, after: Job<P>, tenant: int, end: int)
    requires Settled(before, after, Due(before, tenant, end)) && before.status != Waiting
    ensures !Due(before, tenant, end) && after.status != Waiting
  {
  }

  lemma DueBefore<P>(before: Job<P>, after: Job<P>, tenant: int, end: int)
    requires Settled(before, after, Due(before, tenant, end)) && Due(after, tenant, after.fireAt)
    ensures before == after
  {
  }

  lemma DueFromOrder<P>(jobs: seq<Job<P>>, tenant: int, end: int, order: seq<nat>, k: nat)
    requires DueOrder(jobs, tenant, end, order) && k < |order|
    ensures order[k] < |jobs| && Due(jobs[order[k]], tenant, jobs[order[k]].fireAt)
  {
  }

  lemma FiringsTake<P>(jobs: seq<Job<P>>, tenant: int, end: int, order: seq<nat>, i: nat)
    requires DueOrder(jobs, tenant, end, order)
    ensures Taken(Firings(jobs, order, end), i) <==> i < |jobs| && Due(jobs[i], tenant, end)
  {
    var log := Firings(jobs, order, end);
    if i < |jobs| && Due(jobs[i], tenant, end) {
      var p :| 0 <= p < |order| && order[p] == i;
      assert log[p].job == i;
    }
  }

  /** The clock ends at the end of the last slice, and the log grows by the firings. */
  lemma {:induction false} AdvanceClock<W, P>(reg: Registry<W, P>, tenant: int, s: Sys<W, P>, turns: seq<Turn>)
    requires Legal(reg, tenant, s, turns)
    ensures Exec(reg, tenant, s, turns).clock == s.clock + Total(turns)
    ensures Exec(reg, tenant, s, turns).log == s.log + NewFirings(reg, tenant, s, turns)
    decreases |turns|
  {
    hide *;
    if turns == [] {
      NoSlice(reg, tenant, s, turns);
    } else {
      FirstSlice(reg, tenant, s, turns);
      AdvanceClock(reg, tenant, RunSlice(reg, tenant, s, turns[0]), turns[1..]);
    }
  }

  /**
    Every matching job that was waiting with a fire time up to the end is fired or failed, and
    no other job that existed at the start is touched: not one of another tenant in particular.
  */
  lemma {:induction false} AdvanceTakesDue<W, P>(reg: Registry<W, P>, tenant: int, s: Sys<W, P>, turns: seq<Turn>, i: nat)
    requires Legal(reg, tenant, s, turns) && Forward(turns) && turns != [] && i < |s.jobs|
    ensures i < |Exec(reg, tenant, s, turns).jobs|
    ensures Settled(s.jobs[i], Exec(reg, tenant, s, turns).jobs[i], Due(s.jobs[i], tenant, s.clock + Total(turns)))
    ensures var before, after := s.jobs[i], Exec(reg, tenant, s, turns).jobs[i];
            if before.status == Waiting && before.fireAt <= s.clock + Total(turns)
               && (before.tenant == None || before.tenant == Some(tenant))
            then after == before.(status := after.status) && after.status in {Fired, Failed}
            else after == before
    decreases |turns|
  {
    hide *;
    FirstSlice(reg, tenant, s, turns);
    ForwardRest(turns);
    FirstSliceJob(reg, tenant, s, turns[0], i);
    var m, rest := RunSlice(reg, tenant, s, turns[0]), turns[1..];
    if rest == [] {
      NoSlice(reg, tenant, m, rest);
    } else {
      AdvanceTakesDue(reg, tenant, m, rest, i);
      SettledLater(s.jobs[i], m.jobs[i], Exec(reg, tenant, m, rest).jobs[i], tenant, m.clock, s.clock + Total(turns));
    }
    SettledIs(s.jobs[i], Exec(reg, tenant, s, turns).jobs[i], tenant, s.clock + Total(turns));
  }

  lemma SettledIs<P>(before: Job<P>, after: Job<P>, tenant: int, end: int)
    requires Settled(before, after, Due(before, tenant, end))
    ensures if before.status == Waiting && before.fireAt <= end
               && (before.tenant == None || before.tenant == Some(tenant))
            then after == before.(status := after.status) && after.status in {Fired, Failed}
            else after == before
  {
  }

  /** The log agrees: an existing job is taken up exactly when it was due. */
  lemma {:induction false} AdvanceLogsDue<W, P>(reg: Registry<W, P>, tenant: int, s: Sys<W, P>, turns: seq<Turn>, i: nat)
    requires Legal(reg, tenant, s, turns) && Forward(turns) && turns != [] && i < |s.jobs|
    ensures Taken(NewFirings(reg, tenant, s, turns), i) <==> Due(s.jobs[i], tenant, s.clock + Total(turns))
    decreases |turns|
  {
    hide *;
    FirstSlice(reg, tenant, s, turns);
    ForwardRest(turns);
    FirstSliceJob(reg, tenant, s, turns[0], i);
    var m, rest := RunSlice(reg, tenant, s, turns[0]), turns[1..];
    TakenConcat(Firings(s.jobs, turns[0].order, m.clock), NewFirings(reg, tenant, m, rest), i);
    if rest == [] {
      NoSlice(reg, tenant, m, rest);
      NothingTaken(i);
    } else {
      AdvanceLogsDue(reg, tenant, m, rest, i);
      DueSplits(s.jobs[i], m.jobs[i], tenant, m.clock, s.clock + Total(turns));
    }
  }

  /** A job that has been taken up is not taken up again. */
  lemma {:induction false} DoneStaysDone<W, P>(reg: Registry<W, P>, tenant: int, s: Sys<W, P>, turns: seq<Turn>, i: nat)
    requires Legal(reg, tenant, s, turns) && i < |s.jobs| && s.jobs[i].status != Waiting
    ensures !Taken(NewFirings(reg, tenant, s, turns), i)
    decreases |turns|
  {
    hide *;
    if turns == [] {
      NoSlice(reg, tenant, s, turns);
      NothingTaken(i);
    } else {
      FirstSlice(reg, tenant, s, turns);
      FirstSliceJob(reg, tenant, s, turns[0], i);
      var m, rest := RunSlice(reg, tenant, s, turns[0]), turns[1..];
      TakenConcat(Firings(s.jobs, turns[0].order, m.clock), NewFirings(reg, tenant, m, rest), i);
      DoneNotDue(s.jobs[i], m.jobs[i], tenant, m.clock);
      DoneStaysDone(reg, tenant, m, rest, i);
    }
  }

  lemma FirstFirings<P>(jobs: seq<Job<P>>, tenant: int, end: int, order: seq<nat>, k: nat)
    requires DueOrder(jobs, tenant, end, order) && k < |order|
    ensures var x := Firings(jobs, order, end);
            && |x| == |order| && x[k].job == order[k] < |jobs|
            && x[k].fireAt == jobs[order[k]].fireAt <= x[k].at == end
            && Due(jobs[order[k]], tenant, end)
            && forall j | k < j < |x| :: x[j].job != x[k].job && x[k].fireAt <= x[j].fireAt
  {
  }

  lemma FirstFiringLast<P>(jobs: seq<Job<P>>, tenant: int, end: int, order: seq<nat>, y: seq<Firing>, k: nat, j: nat)
    requires DueOrder(jobs, tenant, end, order) && k < |Firings(jobs, order, end)|
    requires k < j < |Firings(jobs, order, end) + y|
    requires !Taken(y, order[k])
    ensures (Firings(jobs, order, end) + y)[j].job != order[k]
  {
    var x := Firings(jobs, order, end);
    if j < |x| {
      FirstFirings(jobs, tenant, end, order, k);
    } else {
      assert (x + y)[j] == y[j - |x|];
    }
  }

  /** No job, old or newly scheduled, is taken up twice. */
  lemma {:induction false} TakenOnce<W, P>(
    reg: Registry<W, P>, tenant: int, s: Sys<W, P>, turns: seq<Turn>, k: nat, j: nat)
    requires Legal(reg, tenant, s, turns) && k < j < |NewFirings(reg, tenant, s, turns)|
    ensures NewFirings(reg, tenant, s, turns)[j].job != NewFirings(reg, tenant, s, turns)[k].job
    decreases |turns|
  {
    hide *;
    SomeSlice(reg, tenant, s, turns);
    FirstSlice(reg, tenant, s, turns);
    var m, rest := RunSlice(reg, tenant, s, turns[0]), turns[1..];
    var x, y := Firings(s.jobs, turns[0].order, m.clock), NewFirings(reg, tenant, m, rest);
    FiringsLength(s.jobs, turns[0].order, m.clock);
    if k < |x| {
      var i := turns[0].order[k];
      FirstFirings(s.jobs, tenant, m.clock, turns[0].order, k);
      FirstSliceJob(reg, tenant, s, turns[0], i);
      TakenJobDone(s.jobs[i], m.jobs[i], tenant, m.clock);
      DoneStaysDone(reg, tenant, m, rest, i);
      FirstFiringLast(s.jobs, tenant, m.clock, turns[0].order, y, k, j);
    } else {
      TakenOnce(reg, tenant, m, rest, k - |x|, j - |x|);
    }
  }

  lemma TakenJobDone<P>(before: Job<P>, after: Job<P>, tenant: int, end: int)
    requires Settled(before, after, Due(before, tenant, end)) && Due(before, tenant, end)
    ensures after.status != Waiting
  {
  }

  /** No job is taken up before the clock has reached its time. */
  lemma {:induction false} TakenOnTime<W, P>(
    reg: Registry<W, P>, tenant: int, s: Sys<W, P>, turns: seq<Turn>, k: nat)
    requires Legal(reg, tenant, s, turns) && Forward(turns) && k < |NewFirings(reg, tenant, s, turns)|
    ensures var f := NewFirings(reg, tenant, s, turns)[k]; f.fireAt <= f.at <= s.clock + Total(turns)
    decreases |turns|
  {
    hide *;
    SomeSlice(reg, tenant, s, turns);
    FirstSlice(reg, tenant, s, turns);
    ForwardRest(turns);
    var m, rest := RunSlice(reg, tenant, s, turns[0]), turns[1..];
    var x := Firings(s.jobs, turns[0].order, m.clock);
    if k < |x| {
      FiringsLength(s.jobs, turns[0].order, m.clock);
      FirstFirings(s.jobs, tenant, m.clock, turns[0].order, k);
    } else {
      TakenOnTime(reg, tenant, m, rest, k - |x|);
    }
  }

  lemma FiringsLength<P>(jobs: seq<Job<P>>, order: seq<nat>, at: int)
    requires forall p | 0 <= p < |order| :: order[p] < |jobs|
    ensures |Firings(jobs, order, at)| == |order|
  {
  }

  /** An existing job that is taken up matched the tenant, was waiting, and keeps its fire time. */
  lemma {:induction false} TakenWasDue<W, P>(
    reg: Registry<W, P>, tenant: int, s: Sys<W, P>, turns: seq<Turn>, k: nat)
    requires Legal(reg, tenant, s, turns) && k < |NewFirings(reg, tenant, s, turns)|
    requires NewFirings(reg, tenant, s, turns)[k].job < |s.jobs|
    ensures var f := NewFirings(reg, tenant, s, turns)[k]; var j := s.jobs[f.job];
            f.fireAt == j.fireAt && Due(j, tenant, j.fireAt)
    decreases |turns|
  {
    hide *;
    SomeSlice(reg, tenant, s, turns);
    FirstSlice(reg, tenant, s, turns);
    var m, rest, f := RunSlice(reg, tenant, s, turns[0]), turns[1..], NewFirings(reg, tenant, s, turns)[k];
    var x := Firings(s.jobs, turns[0].order, m.clock);
    if k < |x| {
      FiringsLength(s.jobs, turns[0].order, m.clock);
      FirstFirings(s.jobs, tenant, m.clock, turns[0].order, k);
      DueFromOrder(s.jobs, tenant, m.clock, turns[0].order, k);
    } else {
      FirstSliceJob(reg, tenant, s, turns[0], f.job);
      TakenWasDue(reg, tenant, m, rest, k - |x|);
      DueBefore(s.jobs[f.job], m.jobs[f.job], tenant, m.clock);
    }
  }

  lemma DueLater<P>(before: Job<P>, after: Job<P>, tenant: int, end: int)
    requires Settled(before, after, Due(before, tenant, end)) && Due(after, tenant, after.fireAt)
    ensures end < after.fireAt
  {
  }

  /** Jobs that waited at the start are taken up in fire-time order, across all slices. */
  lemma {:induction false} AdvanceInOrder<W, P>(
    reg: Registry<W, P>, tenant: int, s: Sys<W, P>, turns: seq<Turn>, j: nat, k: nat)
    requires Legal(reg, tenant, s, turns) && j < k < |NewFirings(reg, tenant, s, turns)|
    requires NewFirings(reg, tenant, s, turns)[j].job < |s.jobs|
    requires NewFirings(reg, tenant, s, turns)[k].job < |s.jobs|
    ensures NewFirings(reg, tenant, s, turns)[j].fireAt <= NewFirings(reg, tenant, s, turns)[k].fireAt
    decreases |turns|
  {
    hide *;
    SomeSlice(reg, tenant, s, turns);
    FirstSlice(reg, tenant, s, turns);
    var m, rest, log := RunSlice(reg, tenant, s, turns[0]), turns[1..], NewFirings(reg, tenant, s, turns);
    var x := Firings(s.jobs, turns[0].order, m.clock);
    FiringsLength(s.jobs, turns[0].order, m.clock);
    if j < |x| {
      FirstFirings(s.jobs, tenant, m.clock, turns[0].order, j);
      if k >= |x| {
        var i := log[k].job;
        FirstSliceJob(reg, tenant, s, turns[0], i);
        TakenWasDue(reg, tenant, m, rest, k - |x|);
        DueLater(s.jobs[i], m.jobs[i], tenant, m.clock);
      }
    } else {
      AdvanceInOrder(reg, tenant, m, rest, j - |x|, k - |x|);
    }
  }

  /** After a slice, a matching job that is overdue was scheduled during that slice. */
  lemma OverdueIsNew<W, P>(reg: Registry<W, P>, tenant: int, s: Sys<W, P>, turn: Turn, i: nat)
    requires Enabled(tenant, s, turn) && i < |RunSlice(reg, tenant, s, turn).jobs|
    requires Due(RunSlice(reg, tenant, s, turn).jobs[i], tenant, RunSlice(reg, tenant, s, turn).clock)
    ensures |s.jobs| <= i
  {
    if i < |s.jobs| {
      FirstSliceJob(reg, tenant, s, turn, i);
    }
  }

  // ---- the scheduler ----------------------------------------------------

  datatype AdvanceStatus = Pending | Running | Complete

  /** A row of the table of asynchronous advances. */
  datatype AdvanceJob = AdvanceJob(target: int, slicesTotal: int, slicesDone: int, status: AdvanceStatus)

  datatype Reply = Completed(simTime: int) | Accepted(job: nat)

  /** `timedelta.days` and `timedelta.seconds`. */
  function WholeDays(d: int): int { d / DAY }

  function SecondsPart(d: int): int { d % DAY / SECOND }

  function DaysRounded(d: int): int {
    WholeDays(d) + if SecondsPart(d) > 0 then 1 else 0
  }

  lemma DaysRoundedIs(d: int)
    ensures DaysRounded(d) == d / DAY + if d % DAY >= SECOND then 1 else 0
  {
  }

  lemma RunJobsStep<W, P>(reg: Registry<W, P>, s: Sys<W, P>, order: seq<nat>, k: nat)
    requires k < |order| && forall p | 0 <= p < |order| :: order[p] < |s.jobs|
    ensures |s.jobs| <= |RunJob(reg, s, order[k]).jobs|
    ensures RunJobs(reg, s, order[k..]) == RunJobs(reg, RunJob(reg, s, order[k]), order[k + 1..])
  {
    RunJobEffect(reg, s, order[k]);
    hide RunJob;
    assert order[k..][1..] == order[k + 1..];
  }

  lemma RunJobsDone<W, P>(reg: Registry<W, P>, s: Sys<W, P>, order: seq<nat>)
    requires order == []
    ensures RunJobs(reg, s, order) == s
  {
  }

  lemma TurnEnabled<W, P>(tenant: int, s: Sys<W, P>, turn: Turn)
    requires DueOrder(s.jobs, tenant, s.clock + turn.length, turn.order)
    ensures Enabled(tenant, s, turn)
  {
  }

  lemma ReachesNothing<W, P>(reg: Registry<W, P>, tenant: int, s: Sys<W, P>)
    ensures Reaches(reg, tenant, s, [], s)
  {
    assert Lengths([]) == [];
    assert Legal(reg, tenant, s, []) && Exec(reg, tenant, s, []) == s;
  }

  lemma ReachesSlice<W, P>(reg: Registry<W, P>, tenant: int, s: Sys<W, P>, turn: Turn)
    requires Enabled(tenant, s, turn)
    ensures Reaches(reg, tenant, s, [turn.length], RunSlice(reg, tenant, s, turn))
  {
    hide RunSlice, Enabled;
    var t := RunSlice(reg, tenant, s, turn);
    assert [turn][1..] == [];
    assert Legal(reg, tenant, t, []) && Exec(reg, tenant, t, []) == t;
    assert Legal(reg, tenant, s, [turn]) && Exec(reg, tenant, s, [turn]) == t;
    assert Lengths([turn]) == [turn.length];
  }

  /** However an advance is cut, the clock ends at its start plus the slices. */
  lemma ReachesClock<W, P>(reg: Registry<W, P>, tenant: int, s: Sys<W, P>, d: int, size: int, t: Sys<W, P>)
    requires size > 0 && Reaches(reg, tenant, s, Slices(d, size), t)
    ensures t.clock == s.clock + if d > 0 then d else 0
  {
    hide Legal, Exec, Total, Lengths, Slices;
    var turns :| Lengths(turns) == Slices(d, size) && Legal(reg, tenant, s, turns) && t == Exec(reg, tenant, s, turns);
    AdvanceClock(reg, tenant, s, turns);
    TotalIsSum(turns);
    if d > 0 {
      SlicesSum(d, size);
    } else {
      NothingLeft(d, size);
    }
  }

  lemma SliceOff(d: int, size: int)
    requires size > 0 && d > 0
    ensures Slices(d, size) == [if size <= d then size else d] + Slices(d - (if size <= d then size else d), size)
  {
  }

  lemma NothingLeft(d: int, size: int)
    requires size > 0 && d <= 0
    ensures Slices(d, size) == []
  {
  }

  /** What is left when the budget is first found exceeded, after the k-th slice or a later one. */
  ghost function HandOff(remaining: int, size: int, overBudget: nat -> bool, k: nat): Option<int>
    requires size > 0
    decreases if remaining > 0 then remaining else 0
  {
    if remaining <= 0 then None
    else
      var left := remaining - if size <= remaining then size else remaining;
      if overBudget(k + 1) then Some(left) else HandOff(left, size, overBudget, k + 1)
  }

  lemma HandOffStep(remaining: int, size: int, overBudget: nat -> bool, k: nat)
    requires size > 0 && remaining > 0
    ensures var left := remaining - if size <= remaining then size else remaining;
            HandOff(remaining, size, overBudget, k) ==
              if overBudget(k + 1) then Some(left) else HandOff(left, size, overBudget, k + 1)
  {
  }

  lemma NoHandOff(remaining: int, size: int, overBudget: nat -> bool, k: nat)
    requires size > 0 && remaining <= 0
    ensures HandOff(remaining, size, overBudget, k) == None
  {
  }

  /** After the n-th slice the advance is over budget, and not after the k-th up to then. */
  ghost predicate FirstOver(overBudget: nat -> bool, k: nat, n: nat) {
    overBudget(n) && forall m: nat | k < m < n :: !overBudget(m)
  }

  /**
    An advance is handed off after the first slice that ends over budget, and what is handed over
    is the slices that have not run: none, if it was the last. The first of its slices is the k + 1st.
  */
  lemma {:induction false} HandOffIff(d: int, size: int, overBudget: nat -> bool, k: nat)
    requires size > 0 && d >= 0
    ensures HandOff(d, size, overBudget, k) == None <==>
            forall n: nat | k < n <= k + |Slices(d, size)| :: !overBudget(n)
    ensures forall n: nat | k < n <= k + |Slices(d, size)| && FirstOver(overBudget, k, n) ::
              HandOff(d, size, overBudget, k) == Some(Sum(Slices(d, size)[n - k..]))
    decreases d
  {
    if d > 0 {
      var left := d - if size <= d then size else d;
      var x, y := Slices(d, size), Slices(left, size);
      SliceOff(d, size);
      HandOffStep(d, size, overBudget, k);
      HandOffIff(left, size, overBudget, k + 1);
      SlicesSum(left, size);
      hide Slices, HandOff, Sum;
      assert x[1..] == y;
      forall n: nat | k < n <= k + |x| && FirstOver(overBudget, k, n)
        ensures HandOff(d, size, overBudget, k) == Some(Sum(x[n - k..]))
      {
        if n > k + 1 {
          assert x[n - k..] == y[n - (k + 1)..];
          assert !overBudget(k + 1) && FirstOver(overBudget, k + 1, n);
        }
      }
    }
  }

  ghost predicate ByFireTime<P>(jobs: seq<Job<P>>, order: seq<nat>) {
    && (forall p | 0 <= p < |order| :: order[p] < |jobs|)
    && (forall p, q | 0 <= p < q < |order| :: order[p] != order[q] && jobs[order[p]].fireAt <= jobs[order[q]].fireAt)
  }

  /** Insertion of a job into the list of due jobs, after those that fire no later. */
  function Insert<P>(jobs: seq<Job<P>>, order: seq<nat>, j: nat): seq<nat>
    requires j < |jobs| && forall p | 0 <= p < |order| :: order[p] < |jobs|
  {
    if order == [] || jobs[order[|order| - 1]].fireAt <= jobs[j].fireAt then order + [j]
    else Insert(jobs, order[..|order| - 1], j) + [order[|order| - 1]]
  }

  lemma ByFireTimeAppend<P>(jobs: seq<Job<P>>, order: seq<nat>, j: nat)
    requires ByFireTime(jobs, order) && j < |jobs|
    requires forall p | 0 <= p < |order| :: order[p] != j && jobs[order[p]].fireAt <= jobs[j].fireAt
    ensures ByFireTime(jobs, order + [j])
  {
  }

  lemma ByFireTimeFront<P>(jobs: seq<Job<P>>, order: seq<nat>)
    requires ByFireTime(jobs, order) && order != []
    ensures var n := |order| - 1;
            && order == order[..n] + [order[n]] && order[n] < |jobs| && ByFireTime(jobs, order[..n])
            && forall x | x in order[..n] :: x < |jobs| && x != order[n] && jobs[x].fireAt <= jobs[order[n]].fireAt
  {
  }

  lemma InsertLast<P>(jobs: seq<Job<P>>, order: seq<nat>, j: nat)
    requires j < |jobs| && forall p | 0 <= p < |order| :: order[p] < |jobs|
    ensures order == [] || jobs[order[|order| - 1]].fireAt <= jobs[j].fireAt ==> Insert(jobs, order, j) == order + [j]
    ensures order != [] && jobs[order[|order| - 1]].fireAt > jobs[j].fireAt ==>
              Insert(jobs, order, j) == Insert(jobs, order[..|order| - 1], j) + [order[|order| - 1]]
  {
  }

  lemma {:induction false} InsertSorts<P>(jobs: seq<Job<P>>, order: seq<nat>, j: nat)
    requires j < |jobs| && j !in order && ByFireTime(jobs, order)
    ensures ByFireTime(jobs, Insert(jobs, order, j))
    ensures forall x :: x in Insert(jobs, order, j) <==> x in order || x == j
    decreases |order|
  {
    hide Insert;
    InsertLast(jobs, order, j);
    if order == [] {
    } else {
      var n := |order| - 1;
      ByFireTimeFront(jobs, order);
      hide ByFireTime;
      if jobs[order[n]].fireAt <= jobs[j].fireAt {
        assert forall p | 0 <= p < |order| :: order[p] in order[..n] || order[p] == order[n];
        ByFireTimeAppend(jobs, order, j);
      } else {
        var front := Insert(jobs, order[..n], j);
        InsertSorts(jobs, order[..n], j);
        assert forall p | 0 <= p < |front| :: front[p] in front;
        ByFireTimeAppend(jobs, front, order[n]);
      }
    }
  }

  /** `order` lists the due jobs among the first n. */
  ghost predicate DueAmong<P>(jobs: seq<Job<P>>, n: nat, tenant: int, end: int, order: seq<nat>)
    requires n <= |jobs|
  {
    && ByFireTime(jobs, order)
    && (forall p | 0 <= p < |order| :: order[p] < n && Due(jobs[order[p]], tenant, end))
    && (forall i | 0 <= i < n && Due(jobs[i], tenant, end) :: i in order)
  }

  lemma InsertDue<P>(jobs: seq<Job<P>>, tenant: int, end: int, order: seq<nat>, j: nat)
    requires j < |jobs| && DueAmong(jobs, j, tenant, end, order) && Due(jobs[j], tenant, end)
    ensures j !in order && DueAmong(jobs, j + 1, tenant, end, Insert(jobs, order, j))
  {
    InsertSorts(jobs, order, j);
    hide ByFireTime, Due, Insert;
    var r := Insert(jobs, order, j);
    forall p | 0 <= p < |r| ensures r[p] < j + 1 && Due(jobs[r[p]], tenant, end) {
      assert r[p] in r;
    }
  }

  class Simulator<W(!new), P(!new)> {
    const registry: Registry<W, P>
    const sliceSize: int
    const asyncThresholdDays: int
    var clock: int
    var jobs: seq<Job<P>>
    var world: W
    var advances: seq<AdvanceJob>
    ghost var log: seq<Firing>

    ghost function View(): Sys<W, P>
      reads this
    {
      Sys(clock, jobs, world, log)
    }

    constructor (registry: Registry<W, P>, sliceSize: int, asyncThresholdDays: int, clock: int, jobs: seq<Job<P>>, world: W)
      ensures View() == Sys(clock, jobs, world, []) && advances == []
      ensures this.registry == registry && this.sliceSize == sliceSize
      ensures this.asyncThresholdDays == asyncThresholdDays
    {
      this.registry, this.sliceSize, this.asyncThresholdDays := registry, sliceSize, asyncThresholdDays;
      this.clock, this.jobs, this.world, this.advances, this.log := clock, jobs, world, [], [];
    }

    /** `schedule_at`. */
    method ScheduleAt(r: Request<P>)
      modifies this`jobs
      ensures jobs == old(jobs) + [Job(r.tenant, r.fireAt, r.payload, Waiting)]
    {
      jobs := jobs + [Job(r.tenant, r.fireAt, r.payload, Waiting)];
    }

    /** The query of due jobs; its callers rely on nothing about ties. */
    method SelectDue(tenant: int, end: int) returns (order: seq<nat>)
      ensures DueOrder(jobs, tenant, end, order)
    {
      order := [];
      for j := 0 to |jobs|
        invariant DueAmong(jobs, j, tenant, end, order)
      {
        if Due(jobs[j], tenant, end) {
          InsertDue(jobs, tenant, end, order, j);
          order := Insert(jobs, order, j);
        }
      }
    }

    /** One turn of the loop of `_run_one_slice`. */
    method RunNext(i: nat)
      requires i < |jobs|
      modifies this
      ensures View() == RunJob(registry, old(View()), i) && advances == old(advances)
    {
      var job := jobs[i];
      log := log + [Firing(i, job.fireAt, clock)];
      if !registry.known(job.payload) {
        jobs := jobs[i := job.(status := Failed)];
      } else {
        var o := registry.handle(clock, world, job);
        world := o.world;
        jobs := jobs[i := job.(status := if o.returned then Fired else Failed)] + NewJobs(o.requests);
      }
    }

    /** `_run_one_slice`: the clock moves first, then the listed jobs run in turn. */
    method RunOneSlice(tenant: int, length: int) returns (ghost turn: Turn)
      modifies this
      ensures turn.length == length && Enabled(tenant, old(View()), turn)
      ensures View() == RunSlice(registry, tenant, old(View()), turn)
      ensures advances == old(advances)
    {
      hide RunJob, RunJobs, Enabled, DueOrder;
      var order := SelectDue(tenant, clock + length);
      turn := Turn(length, order);
      TurnEnabled(tenant, View(), turn);
      ListedAreJobs(tenant, View(), turn);
      clock := clock + length;
      ghost var start := View();
      var k := 0;
      assert order[0..] == order;
      while k < |order|
        invariant 0 <= k <= |order| && |start.jobs| <= |jobs| && advances == old(advances)
        invariant forall p | 0 <= p < |order| :: order[p] < |start.jobs|
        invariant RunJobs(registry, View(), order[k..]) == RunJobs(registry, start, order)
      {
        RunJobsStep(registry, View(), order, k);
        RunNext(order[k]);
        k := k + 1;
      }
      RunJobsDone(registry, View(), order[k..]);
    }

    /** One turn of either advance loop: the next slice of what remains. */
    method AdvanceSlice(tenant: int, remaining: int, ghost start: Sys<W, P>, ghost lengths: seq<int>)
      returns (length: int)
      requires sliceSize > 0 && remaining > 0 && Reaches(registry, tenant, start, lengths, View())
      modifies this
      ensures length == (if sliceSize <= remaining then sliceSize else remaining) && advances == old(advances)
      ensures Slices(remaining, sliceSize) == [length] + Slices(remaining - length, sliceSize)
      ensures Reaches(registry, tenant, start, lengths + [length], View())
    {
      hide Slices, Reaches, RunSlice, Enabled;
      length := if sliceSize <= remaining then sliceSize else remaining;
      SliceOff(remaining, sliceSize);
      ghost var before := View();
      ghost var turn := RunOneSlice(tenant, length);
      ReachesSlice(registry, tenant, before, turn);
      ReachesThen(registry, tenant, start, lengths, before, [length], View());
    }

    /** `_run_advance_async`, run to its end, for the advance recorded at index j. */
    method RunAdvanceAsync(j: nat, duration: int, tenant: int)
      requires sliceSize > 0 && j < |advances| && advances[j].slicesDone == 0
      modifies this
      ensures Reaches(registry, tenant, old(View()), Slices(duration, sliceSize), View())
      ensures advances ==
              old(advances)[j := old(advances[j]).(status := Complete, slicesDone := |Slices(duration, sliceSize)|)]
    {
      hide Reaches, Slices;
      ghost var start, lengths := View(), [];
      ReachesNothing(registry, tenant, start);
      var remaining, done := duration, 0;
      advances := advances[j := advances[j].(status := Running)];
      while remaining > 0
        invariant Reaches(registry, tenant, start, lengths, View())
        invariant lengths + Slices(remaining, sliceSize) == Slices(duration, sliceSize)
        invariant done == |lengths| && |advances| == old(|advances|)
        invariant advances == old(advances)[j := old(advances[j]).(status := Running, slicesDone := done)]
      {
        var length := AdvanceSlice(tenant, remaining, start, lengths);
        lengths := lengths + [length];
        remaining := remaining - length;
        done := done + 1;
        advances := advances[j := advances[j].(slicesDone := done)];
      }
      NothingLeft(remaining, sliceSize);
      assert lengths + [] == lengths;
      advances := advances[j := advances[j].(status := Complete)];
    }

    /** `_create_advance_job`. */
    method CreateAdvanceJob(remaining: int, total: int) returns (j: nat)
      modifies this`advances
      ensures j == |old(advances)|
      ensures advances == old(advances) + [AdvanceJob(clock + remaining, total, 0, Pending)]
    {
      j := |advances|;
      advances := advances + [AdvanceJob(clock + remaining, total, 0, Pending)];
    }

    /**
      `advance`. `overBudget` answers, after the k-th slice, whether the wall clock is past its
      budget. Whatever it answers, and on the immediate asynchronous path too, the slices run
      are those of the whole duration; a background task is taken to run to its end before
      anything else happens.
    */
    method Advance(duration: int, tenant: int, overBudget: nat -> bool) returns (reply: Reply, ghost handed: int)
      requires sliceSize > 0
      modifies this
      ensures Reaches(registry, tenant, old(View()), Slices(duration, sliceSize), View())
      ensures clock == old(clock) + if duration > 0 then duration else 0
      ensures var days := duration / DAY + if duration % DAY >= SECOND then 1 else 0;
              && (days > asyncThresholdDays ==>
                    && reply.Accepted? && handed == duration && reply.job < |advances|
                    && advances[reply.job].slicesTotal == days)
              && (days <= asyncThresholdDays && reply.Accepted? ==>
                    reply.job < |advances| && advances[reply.job].slicesTotal == handed / DAY + 1)
      ensures DaysRounded(duration) <= asyncThresholdDays ==>
                match HandOff(duration, sliceSize, overBudget, 0)
                case None => reply.Completed?
                case Some(left) => reply.Accepted? && handed == left
      ensures reply.Completed? ==> reply.simTime == clock && advances == old(advances)
      ensures reply.Accepted? ==>
                && reply.job == |old(advances)| && |advances| == |old(advances)| + 1
                && advances[..reply.job] == old(advances)
                && advances[reply.job].status == Complete
                && (handed >= 0 ==> advances[reply.job].target == clock)
                && advances[reply.job].slicesDone == |Slices(handed, sliceSize)|
    {
      hide Reaches, Slices, DaysRounded, HandOff;
      handed := duration;
      DaysRoundedIs(duration);
      if DaysRounded(duration) > asyncThresholdDays {
        var j := CreateAdvanceJob(duration, DaysRounded(duration));
        ghost var start := View();
        RunAdvanceAsync(j, duration, tenant);
        ReachesClock(registry, tenant, start, duration, sliceSize, View());
        return Accepted(j), duration;
      }
      ghost var start, lengths := View(), [];
      ReachesNothing(registry, tenant, start);
      var remaining, k := duration, 0;
      while remaining > 0
        invariant Reaches(registry, tenant, start, lengths, View())
        invariant lengths + Slices(remaining, sliceSize) == Slices(duration, sliceSize)
        invariant advances == old(advances)
        invariant HandOff(remaining, sliceSize, overBudget, k) == HandOff(duration, sliceSize, overBudget, 0)
      {
        HandOffStep(remaining, sliceSize, overBudget, k);
        var length := AdvanceSlice(tenant, remaining, start, lengths);
        lengths := lengths + [length];
        remaining := remaining - length;
        k := k + 1;
        if overBudget(k) {
          ghost var middle := View();
          var j := CreateAdvanceJob(remaining, WholeDays(remaining) + 1);
          RunAdvanceAsync(j, remaining, tenant);
          ReachesThen(registry, tenant, start, lengths, middle, Slices(remaining, sliceSize), View());
          ReachesClock(registry, tenant, middle, remaining, sliceSize, View());
          assert lengths + Slices(remaining, sliceSize) == Slices(duration, sliceSize);
          ReachesClock(registry, tenant, start, duration, sliceSize, View());
          return Accepted(j), remaining;
        }
      }
      NothingLeft(remaining, sliceSize);
      NoHandOff(remaining, sliceSize, overBudget, k);
      assert lengths + [] == lengths;
      ReachesClock(registry, tenant, start, duration, sliceSize, View());
      return Completed(clock), handed;
    }
  }

  // ---- progress counters ------------------------------------------------

  /**
    One-day slices on the always-asynchronous path: `slices_done` ends equal to `slices_total`
    unless the duration ends in a fraction of a second after a whole number of days.
  */
  lemma {:induction false} AsyncProgressIff(d: int)
    requires d >= 0
    ensures |Slices(d, DAY)| == DaysRounded(d) <==> !(0 < d % DAY < SECOND)
  {
    SlicesCount(d, DAY);
  }

  /** On a hand-off, `slices_done` ends one short exactly when whole days remain (none included). */
  lemma {:induction false} HandOffProgressIff(remaining: int)
    requires remaining >= 0
    ensures |Slices(remaining, DAY)| == WholeDays(remaining) + (if remaining % DAY == 0 then 0 else 1)
    ensures |Slices(remaining, DAY)| == WholeDays(remaining) + 1 <==> remaining % DAY != 0
  {
    SlicesCount(remaining, DAY);
  }

  /** Two days advanced, and handed off after the first: one slice is done in the background, of two recorded. */
  lemma TwoDaysHandedOff()
    ensures HandOff(2 * DAY, DAY, k => true, 0) == Some(DAY)
    ensures |Slices(DAY, DAY)| == 1 && WholeDays(DAY) + 1 == 2
  {
    HandOffProgressIff(DAY);
  }

  /** The admin endpoint advances under the all-zero tenant: another tenant's jobs never run. */
  lemma AdminAdvanceSkipsTenants<W, P>(reg: Registry<W, P>, admin: int, s: Sys<W, P>, turns: seq<Turn>, i: nat)
    requires Legal(reg, admin, s, turns) && Forward(turns) && turns != [] && i < |s.jobs|
    requires s.jobs[i].tenant.Some? && s.jobs[i].tenant.value != admin
    ensures i < |Exec(reg, admin, s, turns).jobs| && Exec(reg, admin, s, turns).jobs[i] == s.jobs[i]
    ensures !Taken(NewFirings(reg, admin, s, turns), i)
  {
    hide Legal, Exec, NewFirings, Taken, Forward, Total;
    AdvanceTakesDue(reg, admin, s, turns, i);
    AdvanceLogsDue(reg, admin, s, turns, i);
  }
}
