/**
  The webhook outbox: `core/outbox.py` (enqueue, dispatch, back-off), the single-consumer
  poller of `core/scheduler.py` and the replay endpoint of `admin/api.py`.

  The table is a sequence of rows in insertion order; an event's id is its index. The result
  of an HTTP call is an input of the delivery step. A dispatch can die between two deliveries
  (`Crash`), or after a call has been answered and before that is committed (`Cut`).
*/
module Outbox {
  import opened Prelude

  const MAX_ATTEMPTS := 7
  const DEFAULT_SCHEDULE := [60, 300, 900, 3600, 21600, 86400, 86400]

  datatype Status = Pending | InFlight | Delivered | Retrying | DeadLetter

  /** `partition` is the collation rank of the partition key; `delivered` is `delivered_at`. */
  datatype Row = Row(
    partition: int, created: int, status: Status, attempts: int, due: Option<int>, delivered: Option<int>)

  /** One HTTP call: whose, when it was answered, how, and which attempt of its series it was. */
  datatype Attempt = Attempt(id: nat, at: int, ok: bool, number: int)

  /** `batch` holds the claimed rows that the running dispatch has not delivered yet. */
  datatype State = State(schedule: seq<int>, rows: seq<Row>, batch: seq<nat>, now: int, log: seq<Attempt>)

  datatype Step =
    | Enqueue(partition: int)
    | Claim(limit: nat, ids: seq<nat>)
    | Deliver(ok: bool, elapsed: nat)
    | Replay(id: nat)
    | Wait(elapsed: nat)
    | Crash
    | Cut(ok: bool, elapsed: nat)

  /** An answered call that succeeded. */
  predicate Succeeds(step: Step) {
    (step.Deliver? || step.Cut?) && step.ok
  }

  /** The dispatch ends with its batch undelivered. */
  predicate Dies(step: Step) {
    step.Crash? || step.Cut?
  }

  // ---- one step ---------------------------------------------------------

  /** `_backoff`: attempts beyond the schedule reuse its last delay. */
  function Backoff(schedule: seq<int>, attempt: int): int
    requires schedule != [] && attempt >= 1
  {
    schedule[if attempt - 1 < |schedule| - 1 then attempt - 1 else |schedule| - 1]
  }

  predicate Eligible(r: Row, now: int) {
    (r.status == Pending || r.status == Retrying) && (r.due == None || r.due.value <= now)
  }

  /** ORDER BY partition_key, created_at. */
  predicate Before(a: Row, b: Row) {
    a.partition < b.partition || (a.partition == b.partition && a.created < b.created)
  }

  /** `ids` may come back from the claiming query: eligible rows, in order, cut off at `limit`. */
  ghost predicate Selected(rows: seq<Row>, now: int, limit: nat, ids: seq<nat>) {
    && |ids| <= limit
    && (forall p | 0 <= p < |ids| :: ids[p] < |rows| && Eligible(rows[ids[p]], now))
    && (forall p, q | 0 <= p < q < |ids| :: ids[p] != ids[q] && !Before(rows[ids[q]], rows[ids[p]]))
    && (forall i | 0 <= i < |rows| && Eligible(rows[i], now) && i !in ids ::
          |ids| == limit && forall p | 0 <= p < |ids| :: !Before(rows[i], rows[ids[p]]))
  }

  function Claimed(rows: seq<Row>, ids: seq<nat>): (r: seq<Row>)
    ensures |r| == |rows|
    ensures forall i | 0 <= i < |rows| ::
              r[i] == if i in ids then rows[i].(status := InFlight) else rows[i]
  {
    seq(|rows|, i requires 0 <= i < |rows| => if i in ids then rows[i].(status := InFlight) else rows[i])
  }

  /** `_deliver` after the HTTP call: nothing is asked about the row's current status. */
  function Answered(schedule: seq<int>, r: Row, ok: bool, now: int): (a: Row)
    requires schedule != [] && r.attempts >= 0
    ensures a.partition == r.partition && a.created == r.created && a.status !in {Pending, InFlight}
  {
    var n := r.attempts + 1;
    if ok then r.(attempts := n, status := Delivered, delivered := Some(now))
    else if n >= MAX_ATTEMPTS then r.(attempts := n, status := DeadLetter)
    else r.(attempts := n, status := Retrying, due := Some(now + Backoff(schedule, n)))
  }

  ghost predicate Enabled(s: State, step: Step) {
    match step
    case Claim(limit, ids) => s.batch == [] && Selected(s.rows, s.now, limit, ids)
    case Deliver(_, _) => s.batch != []
    case Cut(_, _) => s.batch != []
    case _ => true
  }

  ghost function Apply(s: State, step: Step): State
    requires Shape(s) && Enabled(s, step)
  {
    match step
    case Enqueue(p) => s.(rows := s.rows + [Row(p, s.now, Pending, 0, None, None)])
    case Claim(_, ids) => s.(rows := Claimed(s.rows, ids), batch := ids)
    case Deliver(ok, elapsed) =>
      var id, now := s.batch[0], s.now + elapsed;
      var r := Answered(s.schedule, s.rows[id], ok, now);
      s.(rows := s.rows[id := r], batch := s.batch[1..], now := now,
         log := s.log + [Attempt(id, now, ok, r.attempts)])
    case Replay(id) =>
      if id < |s.rows| then s.(rows := s.rows[id := s.rows[id].(status := Pending, attempts := 0, due := None)])
      else s
    case Wait(elapsed) => s.(now := s.now + elapsed)
    case Crash => s.(batch := [])
    case Cut(ok, elapsed) =>
      var id, now := s.batch[0], s.now + elapsed;
      s.(batch := [], now := now, log := s.log + [Attempt(id, now, ok, s.rows[id].attempts + 1)])
  }

  /** The table's own constraints: attempt counts, due times and the batch agree with the statuses. */
  ghost predicate Shape(s: State) {
    && s.schedule != []
    && (forall i | 0 <= i < |s.rows| :: RowShape(s.rows[i]))
    && (forall p | 0 <= p < |s.batch| :: s.batch[p] < |s.rows| && s.rows[s.batch[p]].status in {InFlight, Pending})
    && (forall p, q | 0 <= p < q < |s.batch| :: s.batch[p] != s.batch[q])
  }

  predicate RowShape(r: Row) {
    match r.status
    case Pending => r.attempts == 0 && r.due == None
    case Retrying => 1 <= r.attempts < MAX_ATTEMPTS && r.due.Some?
    case InFlight => 0 <= r.attempts < MAX_ATTEMPTS && (r.due == None <==> r.attempts == 0)
    case Delivered => 1 <= r.attempts <= MAX_ATTEMPTS && r.delivered.Some?
    case DeadLetter => r.attempts == MAX_ATTEMPTS
  }

  /** Attempt counts stay in 0..7 and mean what the statuses say, after every step of every run. */
  lemma ShapeKept(s: State, step: Step)
    requires Shape(s) && Enabled(s, step)
    ensures Shape(Apply(s, step))
  {
    if step.Deliver? {
      assert RowShape(s.rows[s.batch[0]]);
      assert forall p | 0 <= p < |s.batch| - 1 :: s.batch[1..][p] == s.batch[p + 1];
      hide Selected;
    } else if step.Claim? {
      ClaimedShape(s, step.limit, step.ids);
    } else {
      hide Selected;
    }
  }

  lemma ClaimedShape(s: State, limit: nat, ids: seq<nat>)
    requires Shape(s) && Enabled(s, Claim(limit, ids))
    ensures Shape(Apply(s, Claim(limit, ids)))
  {
    var t := Apply(s, Claim(limit, ids));
    forall i | 0 <= i < |t.rows| ensures RowShape(t.rows[i]) {
      assert RowShape(s.rows[i]);
    }
  }

  // ---- runs -------------------------------------------------------------

  ghost predicate Legal(s: State, steps: seq<Step>)
    requires Shape(s)
    decreases |steps|
  {
    steps == [] || (Enabled(s, steps[0]) && (ShapeKept(s, steps[0]); Legal(Apply(s, steps[0]), steps[1..])))
  }

  ghost function Exec(s: State, steps: seq<Step>): (t: State)
    requires Shape(s) && Legal(s, steps)
    ensures Shape(t)
    decreases |steps|
  {
    if steps == [] then s else ShapeKept(s, steps[0]); Exec(Apply(s, steps[0]), steps[1..])
  }

  ghost predicate Empty(s: State) {
    s.schedule != [] && s.rows == [] && s.batch == [] && s.log == []
  }

  // ---- first attempts in creation order ---------------------------------

  /** Event i was created strictly before event j of the same partition. */
  ghost predicate Older(rows: seq<Row>, i: int, j: int) {
    && 0 <= i < |rows| && 0 <= j < |rows|
    && rows[i].partition == rows[j].partition && rows[i].created < rows[j].created
  }

  ghost predicate Attempted(log: seq<Attempt>, i: int) {
    exists m | 0 <= m < |log| :: log[m].id == i
  }

  /** Every attempt of an event comes after some attempt of each older event of its partition. */
  ghost predicate AttemptsInOrder(s: State) {
    && (forall k | 0 <= k < |s.log| :: s.log[k].id < |s.rows|)
    && (forall k, i | 0 <= k < |s.log| && Older(s.rows, i, s.log[k].id) :: Attempted(s.log[..k], i))
  }

  /** An untried event is pending or claimed, and a claimed one is in the batch: no crash lost it. */
  ghost predicate NoneLost(s: State) {
    && (forall i | 0 <= i < |s.rows| && !Attempted(s.log, i) :: s.rows[i].status == Pending || i in s.batch)
    && (forall i | 0 <= i < |s.rows| && s.rows[i].status == InFlight :: i in s.batch)
    && (forall i | 0 <= i < |s.rows| :: s.rows[i].created <= s.now)
  }

  /** What is older than a claimed event has been tried or is ahead of it in the batch. */
  ghost predicate BatchInOrder(s: State) {
    && (forall p, i | 0 <= p < |s.batch| && Older(s.rows, i, s.batch[p]) ::
          Attempted(s.log, i) || i in s.batch[..p])
    && (forall p, q | 0 <= p < q < |s.batch| :: !Older(s.rows, s.batch[q], s.batch[p]))
  }

  ghost predicate Ordered(s: State) {
    AttemptsInOrder(s) && NoneLost(s) && BatchInOrder(s)
  }

  lemma SelectedBefore(rows: seq<Row>, now: int, limit: nat, ids: seq<nat>, p: nat, i: nat)
    requires Selected(rows, now, limit, ids) && p < |ids| && ids[p] < |rows|
    requires Older(rows, i, ids[p]) && Eligible(rows[i], now)
    ensures i in ids[..p]
  {
    hide Eligible;
    assert Before(rows[i], rows[ids[p]]);
    assert i in ids;
    var q :| 0 <= q < |ids| && ids[q] == i;
    assert q < p;
    assert ids[..p][q] == i;
  }

  lemma SelectedSorted(rows: seq<Row>, now: int, limit: nat, ids: seq<nat>)
    requires Selected(rows, now, limit, ids)
    ensures forall p | 0 <= p < |ids| :: ids[p] < |rows|
    ensures forall p, q | 0 <= p < q < |ids| :: !Older(rows, ids[q], ids[p])
  {
    hide Eligible;
  }

  lemma UntriedEligible(s: State, i: nat)
    requires Shape(s) && NoneLost(s) && s.batch == [] && i < |s.rows| && !Attempted(s.log, i)
    ensures Eligible(s.rows[i], s.now)
  {
    hide Attempted;
    assert RowShape(s.rows[i]);
  }

  lemma ClaimOlder(s: State, limit: nat, ids: seq<nat>, i: int, j: int)
    requires Shape(s) && Enabled(s, Claim(limit, ids))
    ensures var t := Apply(s, Claim(limit, ids));
            && s.batch == [] && t.batch == ids && t.log == s.log && Selected(s.rows, s.now, limit, ids)
            && (Older(t.rows, i, j) == Older(s.rows, i, j))
  {
    hide Selected;
  }

  lemma ClaimOrdersBatch(s: State, limit: nat, ids: seq<nat>)
    requires Shape(s) && NoneLost(s) && Enabled(s, Claim(limit, ids))
    ensures BatchInOrder(Apply(s, Claim(limit, ids)))
  {
    hide Shape, NoneLost, Enabled, Apply, Selected, Attempted, Eligible;
    var t := Apply(s, Claim(limit, ids));
    ClaimOlder(s, limit, ids, 0, 0);
    SelectedSorted(s.rows, s.now, limit, ids);
    forall p, i | 0 <= p < |ids| && Older(t.rows, i, ids[p])
      ensures Attempted(t.log, i) || i in ids[..p]
    {
      ClaimOlder(s, limit, ids, i, ids[p]);
      if !Attempted(s.log, i) {
        UntriedEligible(s, i);
        SelectedBefore(s.rows, s.now, limit, ids, p, i);
      }
    }
    forall p, q | 0 <= p < q < |ids| ensures !Older(t.rows, ids[q], ids[p]) {
      ClaimOlder(s, limit, ids, ids[q], ids[p]);
    }
  }

  lemma ClaimKeepsOrder(s: State, limit: nat, ids: seq<nat>)
    requires Shape(s) && Ordered(s) && Enabled(s, Claim(limit, ids))
    ensures Ordered(Apply(s, Claim(limit, ids)))
  {
    ClaimOrdersBatch(s, limit, ids);
    hide Shape, Selected, BatchInOrder;
    var t := Apply(s, Claim(limit, ids));
    assert forall i, j :: Older(t.rows, i, j) == Older(s.rows, i, j);
  }

  lemma AttemptedGrows(log: seq<Attempt>, a: Attempt, i: int)
    ensures Attempted(log + [a], i) <==> Attempted(log, i) || a.id == i
  {
    if Attempted(log, i) {
      var m :| 0 <= m < |log| && log[m].id == i;
      assert (log + [a])[m].id == i;
    }
    if a.id == i {
      assert (log + [a])[|log|].id == i;
    }
  }

  lemma DeliverFacts(s: State, ok: bool, elapsed: nat, i: int, j: int)
    requires Shape(s) && Enabled(s, Deliver(ok, elapsed))
    ensures var t := Apply(s, Deliver(ok, elapsed));
            && (Older(t.rows, i, j) == Older(s.rows, i, j))
            && (Attempted(t.log, i) <==> Attempted(s.log, i) || s.batch[0] == i)
  {
    AttemptedGrows(s.log, Apply(s, Deliver(ok, elapsed)).log[|s.log|], i);
  }

  lemma DeliverKeepsAttempts(s: State, ok: bool, elapsed: nat)
    requires Shape(s) && Ordered(s) && Enabled(s, Deliver(ok, elapsed))
    ensures AttemptsInOrder(Apply(s, Deliver(ok, elapsed)))
  {
    var t, n := Apply(s, Deliver(ok, elapsed)), |s.log|;
    assert s.batch[0] < |s.rows|;
    hide Shape, NoneLost, Attempted;
    forall k, i | 0 <= k < |t.log| && Older(t.rows, i, t.log[k].id)
      ensures Attempted(t.log[..k], i)
    {
      DeliverFacts(s, ok, elapsed, i, t.log[k].id);
      assert t.log[..k] == s.log[..k];
      if k == n {
        assert s.log[..n] == s.log;
        assert i !in s.batch[..0];
      }
    }
  }

  lemma DeliverKeepsNoneLost(s: State, ok: bool, elapsed: nat)
    requires Shape(s) && Ordered(s) && Enabled(s, Deliver(ok, elapsed))
    ensures NoneLost(Apply(s, Deliver(ok, elapsed)))
  {
    var t := Apply(s, Deliver(ok, elapsed));
    assert s.batch == [s.batch[0]] + t.batch;
    hide Attempted, BatchInOrder, AttemptsInOrder;
    forall i | 0 <= i < |t.rows| && !Attempted(t.log, i)
      ensures t.rows[i].status == Pending || i in t.batch
    {
      DeliverFacts(s, ok, elapsed, i, i);
    }
  }

  lemma DeliverTakesFirst(s: State, ok: bool, elapsed: nat)
    requires Shape(s) && Enabled(s, Deliver(ok, elapsed))
    ensures s.batch != [] && Apply(s, Deliver(ok, elapsed)).batch == s.batch[1..]
    ensures forall p | 0 <= p < |s.batch| - 1 ::
      s.batch[1..][p] == s.batch[p + 1] && s.batch[..p + 1] == [s.batch[0]] + s.batch[1..][..p]
  {
    hide Shape;
  }

  lemma DeliverKeepsBatch(s: State, ok: bool, elapsed: nat)
    requires Shape(s) && Ordered(s) && Enabled(s, Deliver(ok, elapsed))
    ensures BatchInOrder(Apply(s, Deliver(ok, elapsed)))
  {
    hide Shape, NoneLost, AttemptsInOrder, Attempted, Older, Apply, Enabled;
    var t := Apply(s, Deliver(ok, elapsed));
    DeliverTakesFirst(s, ok, elapsed);
    forall p, i | 0 <= p < |t.batch| && Older(t.rows, i, t.batch[p])
      ensures Attempted(t.log, i) || i in t.batch[..p]
    {
      DeliverFacts(s, ok, elapsed, i, t.batch[p]);
      assert t.batch[p] == s.batch[p + 1];
    }
    forall p, q | 0 <= p < q < |t.batch|
      ensures !Older(t.rows, t.batch[q], t.batch[p])
    {
      DeliverFacts(s, ok, elapsed, t.batch[q], t.batch[p]);
      assert t.batch[p] == s.batch[p + 1] && t.batch[q] == s.batch[q + 1];
    }
  }

  lemma OlderSame(s: State, step: Step, i: int, j: int)
    requires Shape(s) && NoneLost(s) && (step.Enqueue? || step.Replay? || step.Wait?)
    requires 0 <= j < |s.rows|
    ensures Older(Apply(s, step).rows, i, j) == Older(s.rows, i, j)
  {
  }

  lemma OtherKeepsOrder(s: State, step: Step)
    requires Shape(s) && Ordered(s) && (step.Enqueue? || step.Replay? || step.Wait?)
    ensures Ordered(Apply(s, step))
  {
    var t := Apply(s, step);
    assert forall p | 0 <= p < |s.batch| :: s.batch[p] < |s.rows|;
    assert NoneLost(t) by {
      hide Attempted, BatchInOrder;
    }
    hide Attempted, Older, NoneLost, Shape;
    forall k, i | 0 <= k < |t.log| && Older(t.rows, i, t.log[k].id)
      ensures Attempted(t.log[..k], i)
    {
      OlderSame(s, step, i, t.log[k].id);
    }
    forall p, i | 0 <= p < |t.batch| && Older(t.rows, i, t.batch[p])
      ensures Attempted(t.log, i) || i in t.batch[..p]
    {
      OlderSame(s, step, i, t.batch[p]);
    }
    forall p, q | 0 <= p < q < |t.batch|
      ensures !Older(t.rows, t.batch[q], t.batch[p])
    {
      OlderSame(s, step, t.batch[q], t.batch[p]);
    }
  }

  lemma OrderKept(s: State, step: Step)
    requires Shape(s) && Ordered(s) && Enabled(s, step) && !Dies(step)
    ensures Ordered(Apply(s, step))
  {
    hide Shape, AttemptsInOrder, NoneLost, BatchInOrder, Enabled, Apply;
    match step
    case Claim(limit, ids) => ClaimKeepsOrder(s, limit, ids);
    case Deliver(ok, elapsed) =>
      DeliverKeepsAttempts(s, ok, elapsed);
      DeliverKeepsNoneLost(s, ok, elapsed);
      DeliverKeepsBatch(s, ok, elapsed);
    case _ => OtherKeepsOrder(s, step);
  }

  ghost predicate CrashFree(steps: seq<Step>) {
    forall k | 0 <= k < |steps| :: !Dies(steps[k])
  }

  lemma {:induction false} OrderInRun(s: State, steps: seq<Step>)
    requires Shape(s) && Ordered(s) && CrashFree(steps) && Legal(s, steps)
    ensures Ordered(Exec(s, steps))
    decreases |steps|
  {
    hide Ordered, Apply, Enabled;
    if steps != [] {
      ShapeKept(s, steps[0]);
      OrderKept(s, steps[0]);
      assert CrashFree(steps[1..]);
      OrderInRun(Apply(s, steps[0]), steps[1..]);
    }
  }

  /** The position is that of an event's first attempt ever. */
  ghost predicate FirstAttempt(log: seq<Attempt>, k: nat) {
    k < |log| && !Attempted(log[..k], log[k].id)
  }

  /**
    In every crash-free run of enqueues, dispatches of any batch size, successes, failures,
    retries and replays, the first attempts of one partition happen in creation order.
  */
  lemma FirstAttemptsInCreationOrder(s: State, steps: seq<Step>, k: nat, m: nat)
    requires Empty(s) && Shape(s) && CrashFree(steps) && Legal(s, steps)
    requires FirstAttempt(Exec(s, steps).log, k) && FirstAttempt(Exec(s, steps).log, m)
    requires Older(Exec(s, steps).rows, Exec(s, steps).log[k].id, Exec(s, steps).log[m].id)
    ensures k < m
  {
    OrderInRun(s, steps);
    var log := Exec(s, steps).log;
    if m <= k {
      AttemptedEarlier(log, m, k, log[k].id);
    }
  }

  lemma AttemptedEarlier(log: seq<Attempt>, a: nat, b: nat, i: int)
    requires a <= b <= |log| && Attempted(log[..a], i)
    ensures Attempted(log[..b], i)
  {
    var j :| 0 <= j < a && log[..a][j].id == i;
    assert log[..b][j].id == i;
  }

  // ---- arrivals ---------------------------------------------------------

  ghost predicate Arrived(log: seq<Attempt>, i: int) {
    exists m | 0 <= m < |log| :: log[m].id == i && log[m].ok
  }

  /** The ordering contract of the module's documentation: older events of a partition arrive first. */
  ghost predicate ArrivalsInOrder(s: State) {
    forall k, i | 0 <= k < |s.log| && s.log[k].ok && Older(s.rows, i, s.log[k].id) ::
      Arrived(s.log[..k], i)
  }

  /** The head of the batch would pass an older event that has not arrived. */
  ghost predicate Passing(s: State) {
    s.batch != [] && exists i | 0 <= i < |s.rows| :: Older(s.rows, i, s.batch[0]) && !Arrived(s.log, i)
  }

  /** As far as the table tells: an older event has no `delivered_at`. */
  ghost predicate Overtaking(s: State) {
    s.batch != [] && exists i | 0 <= i < |s.rows| :: Older(s.rows, i, s.batch[0]) && s.rows[i].delivered == None
  }

  /** What the table says has arrived has. */
  ghost predicate Told(s: State) {
    && (forall k | 0 <= k < |s.log| :: s.log[k].id < |s.rows|)
    && (forall i | 0 <= i < |s.rows| && s.rows[i].delivered.Some? :: Arrived(s.log, i))
    && (forall i | 0 <= i < |s.rows| :: s.rows[i].created <= s.now)
  }

  /** What has arrived the table says so. */
  ghost predicate TellsAll(s: State) {
    forall i | 0 <= i < |s.rows| && Arrived(s.log, i) :: s.rows[i].delivered.Some?
  }

  lemma ArrivedGrows(log: seq<Attempt>, a: Attempt, i: int)
    ensures Arrived(log + [a], i) <==> Arrived(log, i) || (a.id == i && a.ok)
  {
    if Arrived(log, i) {
      var m :| 0 <= m < |log| && log[m].id == i && log[m].ok;
      assert (log + [a])[m].id == i && (log + [a])[m].ok;
    }
    if a.id == i && a.ok {
      assert (log + [a])[|log|].id == i;
    }
  }

  lemma NotArrivedYet(log: seq<Attempt>, i: nat)
    requires forall k | 0 <= k < |log| :: log[k].id < i
    ensures !Arrived(log, i)
  {
  }

  lemma ToldAnswer(s: State, step: Step)
    requires Shape(s) && Told(s) && Enabled(s, step) && (step.Deliver? || step.Cut?)
    ensures Told(Apply(s, step))
    ensures TellsAll(s) ==>
              (TellsAll(Apply(s, step)) <==> (step.Cut? && step.ok ==> s.rows[s.batch[0]].delivered.Some?))
  {
    var t := Apply(s, step);
    assert s.batch[0] < |s.rows|;
    hide Arrived, Shape;
    forall i | 0 <= i < |t.rows|
      ensures Arrived(t.log, i) <==> Arrived(s.log, i) || (s.batch[0] == i && step.ok)
    {
      ArrivedGrows(s.log, t.log[|s.log|], i);
    }
  }

  /**
    After every step, replays and crashes included, an event with `delivered_at` set has arrived.
    The other way round is kept exactly unless the step cuts a successful call of an event that
    lacks it.
  */
  lemma ToldKept(s: State, step: Step)
    requires Shape(s) && Told(s) && Enabled(s, step)
    ensures Told(Apply(s, step))
    ensures TellsAll(s) ==>
              (TellsAll(Apply(s, step)) <==> (step.Cut? && step.ok ==> s.rows[s.batch[0]].delivered.Some?))
  {
    if step.Deliver? || step.Cut? {
      HeadIsRow(s);
      hide *;
      ToldAnswer(s, step);
    } else if step.Enqueue? {
      NotArrivedYet(s.log, |s.rows|);
      hide Shape, Arrived;
      var t := Apply(s, step);
      assert forall i | 0 <= i < |s.rows| :: t.rows[i] == s.rows[i];
    } else {
      var t := Apply(s, step);
      assert |t.rows| == |s.rows| && t.log == s.log;
      assert forall i | 0 <= i < |s.rows| :: t.rows[i].delivered == s.rows[i].delivered;
      hide Arrived, Shape;
    }
  }

  lemma HeadIsRow(s: State)
    requires Shape(s)
    ensures s.batch != [] ==> s.batch[0] < |s.rows|
  {
  }

  /** A success keeps arrivals in creation order exactly if it passes no older event that has not arrived. */
  lemma SuccessKeepsOrderIff(s: State, step: Step)
    requires Shape(s) && Enabled(s, step) && Succeeds(step)
    ensures ArrivalsInOrder(Apply(s, step)) <==> ArrivalsInOrder(s) && !Passing(s)
  {
    var t, n, head := Apply(s, step), |s.log|, s.batch[0];
    assert t.log[n].id == head && t.log[n].ok && t.log[..n] == s.log && head < |s.rows| && |t.log| == n + 1;
    assert forall k | 0 <= k < n :: t.log[k] == s.log[k] && t.log[..k] == s.log[..k];
    assert forall i, j :: Older(t.rows, i, j) == Older(s.rows, i, j);
    hide Arrived, Shape, Apply, Enabled;
    if ArrivalsInOrder(t) {
      forall i | Older(s.rows, i, head) ensures Arrived(s.log, i) {
        assert Older(t.rows, i, t.log[n].id);
      }
      forall k, i | 0 <= k < n && s.log[k].ok && Older(s.rows, i, s.log[k].id)
        ensures Arrived(s.log[..k], i)
      {
        assert t.log[k].ok && Older(t.rows, i, t.log[k].id);
      }
    }
  }

  /** Overtaking nobody, by the table, is passing nobody; the table is exact while it tells all. */
  lemma OvertakingIs(s: State)
    requires Told(s)
    ensures Passing(s) ==> Overtaking(s)
    ensures TellsAll(s) ==> (Passing(s) <==> Overtaking(s))
  {
    hide Arrived, Older;
  }

  lemma OtherKeepsArrivals(s: State, step: Step)
    requires Shape(s) && Told(s) && Enabled(s, step) && !Succeeds(step)
    ensures ArrivalsInOrder(Apply(s, step)) <==> ArrivalsInOrder(s)
  {
    var t, n := Apply(s, step), |s.log|;
    assert forall k | 0 <= k < n :: t.log[k] == s.log[k] && t.log[..k] == s.log[..k] && s.log[k].id < |s.rows|;
    assert forall i, j | 0 <= j < |s.rows| :: Older(t.rows, i, j) == Older(s.rows, i, j);
    assert n <= |t.log| && forall k | n <= k < |t.log| :: !t.log[k].ok;
    hide Arrived, Shape, Told, Older, Apply, Enabled;
    assert ArrivalsInOrder(t) ==> ArrivalsInOrder(s) by {
      if ArrivalsInOrder(t) {
        forall k, i | 0 <= k < n && s.log[k].ok && Older(s.rows, i, s.log[k].id)
          ensures Arrived(s.log[..k], i)
        {
          assert t.log[k].ok && Older(t.rows, i, t.log[k].id);
        }
      }
    }
  }

  ghost predicate Undisturbed(steps: seq<Step>) {
    forall k | 0 <= k < |steps| :: !Dies(steps[k]) && !steps[k].Replay?
  }

  /** No success of the run passes an older event that has not arrived. */
  ghost predicate NeverPasses(s: State, steps: seq<Step>)
    requires Shape(s) && Legal(s, steps)
    decreases |steps|
  {
    steps == [] ||
    (ShapeKept(s, steps[0]);
     !(Succeeds(steps[0]) && Passing(s)) && NeverPasses(Apply(s, steps[0]), steps[1..]))
  }

  /** No success of the run passes an older event without `delivered_at`. */
  ghost predicate NeverOvertakes(s: State, steps: seq<Step>)
    requires Shape(s) && Legal(s, steps)
    decreases |steps|
  {
    steps == [] ||
    (ShapeKept(s, steps[0]);
     !(Succeeds(steps[0]) && Overtaking(s)) && NeverOvertakes(Apply(s, steps[0]), steps[1..]))
  }

  lemma {:induction false} ArrivalsInRun(s: State, steps: seq<Step>)
    requires Shape(s) && Told(s) && Legal(s, steps)
    ensures ArrivalsInOrder(Exec(s, steps)) <==> ArrivalsInOrder(s) && NeverPasses(s, steps)
    decreases |steps|
  {
    if steps != [] {
      hide Told, ArrivalsInOrder, Apply, Enabled, Passing, TellsAll, Shape;
      ShapeKept(s, steps[0]);
      ToldKept(s, steps[0]);
      if Succeeds(steps[0]) {
        SuccessKeepsOrderIff(s, steps[0]);
      } else {
        OtherKeepsArrivals(s, steps[0]);
      }
      ArrivalsInRun(Apply(s, steps[0]), steps[1..]);
    }
  }

  /** No crash of the run cuts a successful call. */
  ghost predicate NoneCut(steps: seq<Step>) {
    forall k | 0 <= k < |steps| :: !(steps[k].Cut? && steps[k].ok)
  }

  lemma {:induction false} OvertakesInRun(s: State, steps: seq<Step>)
    requires Shape(s) && Told(s) && Legal(s, steps)
    ensures NeverOvertakes(s, steps) ==> NeverPasses(s, steps)
    ensures TellsAll(s) && NoneCut(steps) ==> (NeverOvertakes(s, steps) <==> NeverPasses(s, steps))
    decreases |steps|
  {
    if steps != [] {
      hide Told, Apply, Enabled, Passing, Overtaking, TellsAll, Shape;
      ShapeKept(s, steps[0]);
      ToldKept(s, steps[0]);
      OvertakingIs(s);
      assert NoneCut(steps) ==> NoneCut(steps[1..]);
      OvertakesInRun(Apply(s, steps[0]), steps[1..]);
    }
  }

  /**
    Exact condition of the documented contract, over every run: no success passes an older event
    that has not arrived. That no success passes one without `delivered_at` is sufficient in every
    run, and exact unless a crash cuts a successful call.
  */
  lemma ArrivalsInCreationOrderIff(s: State, steps: seq<Step>)
    requires Empty(s) && Shape(s) && Legal(s, steps)
    ensures ArrivalsInOrder(Exec(s, steps)) <==> NeverPasses(s, steps)
    ensures NeverOvertakes(s, steps) ==> ArrivalsInOrder(Exec(s, steps))
    ensures NoneCut(steps) ==> (ArrivalsInOrder(Exec(s, steps)) <==> NeverOvertakes(s, steps))
  {
    ArrivalsInRun(s, steps);
    OvertakesInRun(s, steps);
  }

  /** The batch is in creation order, and i is not pending while a newer event is in it. */
  ghost predicate NotPassedPending(s: State, i: nat) {
    && (forall p, q | 0 <= p < q < |s.batch| :: !Older(s.rows, s.batch[q], s.batch[p]))
    && (i < |s.rows| && s.rows[i].status == Pending ==> forall p | 0 <= p < |s.batch| :: !Older(s.rows, i, s.batch[p]))
  }

  lemma ClaimPassesNone(s: State, limit: nat, ids: seq<nat>, i: nat)
    requires Shape(s) && Enabled(s, Claim(limit, ids))
    ensures NotPassedPending(Apply(s, Claim(limit, ids)), i)
  {
    var t := Apply(s, Claim(limit, ids));
    if i < |t.rows| && t.rows[i].status == Pending {
      assert i !in ids && Eligible(s.rows[i], s.now);
      forall p | 0 <= p < |ids| ensures !Older(t.rows, i, ids[p]) {
        assert !Before(s.rows[i], s.rows[ids[p]]);
      }
    }
  }

  lemma NotPassedPendingKept(s: State, step: Step, i: nat)
    requires Shape(s) && Told(s) && NotPassedPending(s, i) && Enabled(s, step) && step != Replay(i)
    ensures NotPassedPending(Apply(s, step), i)
  {
    if step.Claim? {
      hide *;
      ClaimPassesNone(s, step.limit, step.ids, i);
    } else {
      var t := Apply(s, step);
      assert forall j, k | 0 <= k < |s.rows| :: Older(t.rows, j, k) == Older(s.rows, j, k);
      assert forall p | 0 <= p < |s.batch| :: s.batch[p] < |s.rows|;
      assert t.batch == s.batch || t.batch == [] || (s.batch != [] && t.batch == s.batch[1..]);
      assert i < |t.rows| && t.rows[i].status == Pending ==> i >= |s.rows| || s.rows[i].status == Pending;
      assert i >= |s.rows| ==> forall j | 0 <= j < |s.rows| :: !Older(t.rows, i, j);
      hide Shape, Told, Apply, Enabled, Older;
    }
  }

  lemma {:induction false} NotPassedPendingInRun(s: State, steps: seq<Step>, i: nat)
    requires Shape(s) && Told(s) && NotPassedPending(s, i) && Legal(s, steps) && Replay(i) !in steps
    ensures NotPassedPending(Exec(s, steps), i)
    decreases |steps|
  {
    if steps != [] {
      hide Told, NotPassedPending, Apply, Enabled;
      ShapeKept(s, steps[0]);
      ToldKept(s, steps[0]);
      assert forall k | 0 <= k < |steps[1..]| :: steps[1..][k] in steps;
      NotPassedPendingKept(s, steps[0], i);
      NotPassedPendingInRun(Apply(s, steps[0]), steps[1..], i);
    }
  }

  /** Who can be overtaken: an event that is backing off, dead, stranded by a crash, or has been replayed. */
  lemma OvertakenAre(s: State, steps: seq<Step>, i: nat)
    requires Empty(s) && Shape(s) && Legal(s, steps) && Exec(s, steps).batch != []
    requires Older(Exec(s, steps).rows, i, Exec(s, steps).batch[0]) && Exec(s, steps).rows[i].delivered == None
    ensures Exec(s, steps).rows[i].status in {Retrying, DeadLetter} || Stranded(Exec(s, steps), i) || Replay(i) in steps
  {
    if Replay(i) !in steps {
      NotPassedPendingInRun(s, steps, i);
      hide Legal, Exec;
      assert RowShape(Exec(s, steps).rows[i]);
    }
  }

  ghost predicate NoneFails(steps: seq<Step>) {
    forall k | 0 <= k < |steps| && (steps[k].Deliver? || steps[k].Cut?) :: steps[k].ok
  }

  ghost predicate AllArrive(log: seq<Attempt>) {
    forall k | 0 <= k < |log| :: log[k].ok
  }

  lemma {:induction false} AllArriveInRun(s: State, steps: seq<Step>)
    requires Shape(s) && AllArrive(s.log) && NoneFails(steps) && Legal(s, steps)
    ensures AllArrive(Exec(s, steps).log)
    decreases |steps|
  {
    if steps != [] {
      ShapeKept(s, steps[0]);
      assert NoneFails(steps[1..]);
      AllArriveInRun(Apply(s, steps[0]), steps[1..]);
    }
  }

  /** If no attempt fails and no crash loses one, arrivals are in creation order, replays or not. */
  lemma FailureFreeArrivalsInOrder(s: State, steps: seq<Step>)
    requires Empty(s) && Shape(s) && CrashFree(steps) && NoneFails(steps) && Legal(s, steps)
    ensures ArrivalsInOrder(Exec(s, steps))
  {
    OrderInRun(s, steps);
    AllArriveInRun(s, steps);
    hide Shape, Legal, Exec;
    var log := Exec(s, steps).log;
    forall k, i | 0 <= k < |log| && Older(Exec(s, steps).rows, i, log[k].id) ensures Arrived(log[..k], i) {
      var m :| 0 <= m < k && log[..k][m].id == i;
      assert log[..k][m].ok;
    }
  }

  lemma ExecFrom(s: State, step: Step, rest: seq<Step>, t: State)
    requires Shape(s) && Enabled(s, step) && Apply(s, step) == t && Shape(t) && Legal(t, rest)
    ensures Legal(s, [step] + rest) && Exec(s, [step] + rest) == Exec(t, rest)
  {
    assert ([step] + rest)[1..] == rest;
  }

  /** Two events of one partition, the second created a second after the first. */
  ghost function Two(schedule: seq<int>, status: Status, batch: seq<nat>): State {
    State(schedule, [Row(1, 0, status, 0, None, None), Row(1, 1, status, 0, None, None)], batch, 1, [])
  }

  lemma BothShaped(schedule: seq<int>)
    requires schedule != []
    ensures Shape(Two(schedule, Pending, [])) && Shape(Two(schedule, InFlight, [0, 1]))
  {
  }

  lemma BothSelected(rows: seq<Row>, now: int)
    requires |rows| == 2 && Eligible(rows[0], now) && Eligible(rows[1], now) && !Before(rows[1], rows[0])
    ensures Selected(rows, now, 50, [0, 1])
  {
    hide Eligible, Before;
    assert [0, 1][0] == 0 && [0, 1][1] == 1;
  }

  lemma BothClaimed(schedule: seq<int>)
    requires schedule != []
    ensures Shape(Two(schedule, Pending, [])) && Shape(Two(schedule, InFlight, [0, 1]))
    ensures Enabled(Two(schedule, Pending, []), Claim(50, [0, 1]))
    ensures Apply(Two(schedule, Pending, []), Claim(50, [0, 1])) == Two(schedule, InFlight, [0, 1])
  {
    hide Shape, Selected;
    BothShaped(schedule);
    var s, t := Two(schedule, Pending, []), Two(schedule, InFlight, [0, 1]);
    assert Claimed(s.rows, [0, 1]) == t.rows;
    BothSelected(s.rows, s.now);
  }

  /** The first event fails, the second is delivered: it has overtaken. */
  lemma NewerPasses(schedule: seq<int>)
    requires schedule != []
    ensures var s := Two(schedule, InFlight, [0, 1]);
            && Shape(s) && Legal(s, [Deliver(false, 0), Deliver(true, 0)])
            && !ArrivalsInOrder(Exec(s, [Deliver(false, 0), Deliver(true, 0)]))
  {
    BothClaimed(schedule);
    var s := Two(schedule, InFlight, [0, 1]);
    var t := Apply(s, Deliver(false, 0));
    ShapeKept(s, Deliver(false, 0));
    var u := Apply(t, Deliver(true, 0));
    ShapeKept(t, Deliver(true, 0));
    assert !ArrivalsInOrder(u) by {
      assert u.log[1].ok && Older(u.rows, 0, u.log[1].id) && !Arrived(u.log[..1], 0);
    }
    assert Enabled(s, Deliver(false, 0)) && Enabled(t, Deliver(true, 0));
    hide Shape, ArrivalsInOrder, Apply, Enabled, Two;
    ExecFrom(t, Deliver(true, 0), [], u);
    ExecFrom(s, Deliver(false, 0), [Deliver(true, 0)], t);
    assert [Deliver(false, 0)] + [Deliver(true, 0)] == [Deliver(false, 0), Deliver(true, 0)];
  }

  lemma FromEmpty(schedule: seq<int>, rest: seq<Step>)
    requires schedule != [] && Shape(Two(schedule, Pending, [])) && Legal(Two(schedule, Pending, []), rest)
    ensures var s, steps := State(schedule, [], [], 0, []), [Enqueue(1)] + ([Wait(1)] + ([Enqueue(1)] + rest));
            Legal(s, steps) && Exec(s, steps) == Exec(Two(schedule, Pending, []), rest)
  {
    var s := State(schedule, [], [], 0, []);
    var s1 := s.(rows := [Row(1, 0, Pending, 0, None, None)]);
    var s2, s3 := s1.(now := 1), Two(schedule, Pending, []);
    assert s2.rows + [Row(1, 1, Pending, 0, None, None)] == s3.rows;
    assert Apply(s2, Enqueue(1)) == s3;
    ExecFrom(s2, Enqueue(1), rest, s3);
    ExecFrom(s1, Wait(1), [Enqueue(1)] + rest, s2);
    ExecFrom(s, Enqueue(1), [Wait(1)] + ([Enqueue(1)] + rest), s1);
  }

  /** Under every schedule the contract can fail: an older event backs off and a newer one arrives. */
  lemma ContractCanFail(schedule: seq<int>) returns (s: State, steps: seq<Step>)
    requires schedule != []
    ensures Empty(s) && Shape(s) && Undisturbed(steps) && Legal(s, steps)
    ensures !ArrivalsInOrder(Exec(s, steps))
  {
    var tail := [Deliver(false, 0), Deliver(true, 0)];
    s := State(schedule, [], [], 0, []);
    assert Empty(s) && Shape(s);
    assert Undisturbed([Enqueue(1)] + ([Wait(1)] + ([Enqueue(1)] + ([Claim(50, [0, 1])] + tail))));
    hide *;
    BothClaimed(schedule);
    NewerPasses(schedule);
    ExecFrom(Two(schedule, Pending, []), Claim(50, [0, 1]), tail, Two(schedule, InFlight, [0, 1]));
    FromEmpty(schedule, [Claim(50, [0, 1])] + tail);
    steps := [Enqueue(1)] + ([Wait(1)] + ([Enqueue(1)] + ([Claim(50, [0, 1])] + tail)));
  }

  // ---- bounded and spaced attempts --------------------------------------

  /** Attempt k follows the event's attempt before it, a failure, by at least the back-off of that attempt. */
  ghost predicate Spaced(schedule: seq<int>, log: seq<Attempt>, k: nat)
    requires schedule != [] && k < |log|
  {
    log[k].number >= 2 ==>
      exists m | 0 <= m < k :: FailedAs(log, m, log[k].id, log[k].number - 1) && NoneSince(log, m, k, log[k].id)
                               && log[m].at + Backoff(schedule, log[k].number - 1) <= log[k].at
  }

  ghost predicate FailedAs(log: seq<Attempt>, m: int, id: int, number: int) {
    0 <= m < |log| && log[m].id == id && log[m].number == number && !log[m].ok
  }

  /** The event is not attempted between positions m and k. */
  ghost predicate NoneSince(log: seq<Attempt>, m: int, k: int, id: int) {
    forall j | m < j < k && 0 <= j < |log| :: log[j].id != id
  }

  /** An unstranded row that failed did so last as its count says; its due time was set then; a claimed row was due. */
  ghost predicate DueSet(s: State, i: nat)
    requires s.schedule != [] && i < |s.rows|
  {
    var r := s.rows[i];
    (r.status in {Retrying, DeadLetter} || (r.status == InFlight && i in s.batch)) && r.attempts >= 1 ==>
      exists m :: FailedAs(s.log, m, i, r.attempts) && NoneSince(s.log, m, |s.log|, i) && DueFrom(s, r, m)
  }

  ghost predicate DueFrom(s: State, r: Row, m: int)
    requires s.schedule != [] && r.attempts >= 1
  {
    r.status != DeadLetter ==>
      && 0 <= m < |s.log| && r.due == Some(s.log[m].at + Backoff(s.schedule, r.attempts))
      && (r.status == InFlight ==> r.due.value <= s.now)
  }

  ghost predicate Timed(s: State)
    requires Shape(s)
  {
    && (forall k | 0 <= k < |s.log| :: s.log[k].number >= 1 && Spaced(s.schedule, s.log, k))
    && (forall k | 0 <= k < |s.log| :: s.log[k].id < |s.rows| && s.rows[s.log[k].id].created <= s.log[k].at <= s.now)
    && (forall i | 0 <= i < |s.rows| :: DueSet(s, i) && s.rows[i].created <= s.now)
  }

  lemma SpacedKept(schedule: seq<int>, log: seq<Attempt>, a: Attempt, k: nat)
    requires schedule != [] && k < |log| && Spaced(schedule, log, k)
    ensures Spaced(schedule, log + [a], k)
  {
    if log[k].number >= 2 {
      var m :| 0 <= m < k && FailedAs(log, m, log[k].id, log[k].number - 1) && NoneSince(log, m, k, log[k].id)
               && log[m].at + Backoff(schedule, log[k].number - 1) <= log[k].at;
      assert FailedAs(log + [a], m, log[k].id, log[k].number - 1);
      assert NoneSince(log + [a], m, k, log[k].id);
    }
  }

  lemma DueSetKept(s: State, t: State, i: nat)
    requires s.schedule == t.schedule != [] && i < |s.rows| && i < |t.rows|
    requires s.rows[i] == t.rows[i] && s.now <= t.now && DueSet(s, i)
    requires |s.log| <= |t.log| && s.log == t.log[..|s.log|] && NoneSince(t.log, |s.log| - 1, |t.log|, i)
    requires i in t.batch ==> i in s.batch
    ensures DueSet(t, i)
  {
    var r := s.rows[i];
    if (r.status in {Retrying, DeadLetter} || (r.status == InFlight && i in t.batch)) && r.attempts >= 1 {
      var m :| FailedAs(s.log, m, i, r.attempts) && NoneSince(s.log, m, |s.log|, i) && DueFrom(s, r, m);
      hide Backoff;
      assert forall j | 0 <= j < |s.log| :: t.log[j] == s.log[j];
      assert FailedAs(t.log, m, i, r.attempts) && NoneSince(t.log, m, |t.log|, i) && DueFrom(t, r, m);
    }
  }

  lemma AnswerSpaced(s: State, step: Step)
    requires Shape(s) && Timed(s) && Enabled(s, step) && (step.Deliver? || step.Cut?)
    ensures var t := Apply(s, step); |t.log| == |s.log| + 1 && Spaced(t.schedule, t.log, |s.log|)
  {
    var t, id := Apply(s, step), s.batch[0];
    var r := s.rows[id];
    assert RowShape(r) && DueSet(s, id);
    if r.attempts >= 1 {
      var m :| FailedAs(s.log, m, id, r.attempts) && NoneSince(s.log, m, |s.log|, id) && DueFrom(s, r, m);
      hide Shape, Timed, Backoff;
      assert forall j | 0 <= j < |s.log| :: t.log[j] == s.log[j];
      assert FailedAs(t.log, m, id, r.attempts) && NoneSince(t.log, m, |s.log|, id);
    }
  }

  /** The log after an answered call, committed or cut. */
  lemma AnswerLog(s: State, step: Step)
    requires Shape(s) && Enabled(s, step) && (step.Deliver? || step.Cut?)
    ensures var t, n := Apply(s, step), |s.log|;
            && s.batch != [] && s.batch[0] < |s.rows| && |t.rows| == |s.rows| && s.now <= t.now
            && |t.log| == n + 1 && t.log[..n] == s.log && t.log[n].id == s.batch[0] && t.log[n].number >= 1
            && t.log[n].at == t.now && t.schedule == s.schedule
            && (forall i | 0 <= i < |s.rows| :: t.rows[i].created == s.rows[i].created)
            && (forall i | 0 <= i < |s.rows| && i != s.batch[0] :: t.rows[i] == s.rows[i])
            && (forall i :: i in t.batch ==> i in s.batch)
  {
    assert RowShape(s.rows[s.batch[0]]);
    assert step.Deliver? ==> forall p | 0 <= p < |s.batch| - 1 :: s.batch[1..][p] in s.batch;
  }

  lemma AnswerTimed(s: State, step: Step)
    requires Shape(s) && Timed(s) && Enabled(s, step) && (step.Deliver? || step.Cut?)
    ensures Shape(Apply(s, step)) && Timed(Apply(s, step))
  {
    var t := Apply(s, step);
    ShapeKept(s, step);
    AnswerLog(s, step);
    AnswerSpaced(s, step);
    var id, n := s.batch[0], |s.log|;
    if step.Deliver? {
      DeliverDue(s, step.ok, step.elapsed);
    } else {
      CutDue(s, step.ok, step.elapsed);
    }
    hide Spaced, Shape, RowShape, DueSet, Apply, Enabled;
    forall k | 0 <= k < n ensures Spaced(t.schedule, t.log, k) {
      SpacedKept(s.schedule, s.log, t.log[n], k);
    }
    forall i | 0 <= i < |t.rows| ensures DueSet(t, i) {
      if i != id {
        DueSetKept(s, t, i);
      }
    }
  }

  lemma CutDue(s: State, ok: bool, elapsed: nat)
    requires Shape(s) && Enabled(s, Cut(ok, elapsed))
    ensures var t := Apply(s, Cut(ok, elapsed)); t.schedule != [] && s.batch[0] < |t.rows| && DueSet(t, s.batch[0])
  {
    assert RowShape(s.rows[s.batch[0]]);
  }

  lemma DeliverDue(s: State, ok: bool, elapsed: nat)
    requires Shape(s) && Enabled(s, Deliver(ok, elapsed))
    ensures var t := Apply(s, Deliver(ok, elapsed)); s.batch[0] < |t.rows| && DueSet(t, s.batch[0])
  {
    var t, n := Apply(s, Deliver(ok, elapsed)), |s.log|;
    var r := t.rows[s.batch[0]];
    assert RowShape(s.rows[s.batch[0]]);
    if !ok {
      hide Shape, Backoff;
      assert FailedAs(t.log, n, s.batch[0], r.attempts) && NoneSince(t.log, n, |t.log|, s.batch[0]);
      assert DueFrom(t, r, n);
    }
  }

  lemma ClaimedDue(s: State, t: State, i: nat)
    requires s.schedule != [] && i < |s.rows| == |t.rows| && DueSet(s, i)
    requires t.schedule == s.schedule && t.log == s.log && t.now == s.now
    requires RowShape(s.rows[i]) && Eligible(s.rows[i], s.now) && t.rows[i] == s.rows[i].(status := InFlight)
    ensures DueSet(t, i)
  {
    hide Backoff;
    var r := s.rows[i];
    assert r.status in {Pending, Retrying};
    if r.attempts >= 1 {
      var m :| FailedAs(s.log, m, i, r.attempts) && NoneSince(s.log, m, |s.log|, i) && DueFrom(s, r, m);
      assert DueFrom(t, t.rows[i], m);
    }
  }

  lemma ClaimEffect(s: State, limit: nat, ids: seq<nat>, i: nat)
    requires Shape(s) && Enabled(s, Claim(limit, ids)) && i < |s.rows|
    ensures var t := Apply(s, Claim(limit, ids));
            && |t.rows| == |s.rows| && t.schedule == s.schedule && t.log == s.log && t.now == s.now
            && RowShape(s.rows[i]) && t.batch == ids
            && (i in ids ==> Eligible(s.rows[i], s.now) && t.rows[i] == s.rows[i].(status := InFlight))
            && (i !in ids ==> t.rows[i] == s.rows[i])
  {
    hide Eligible, RowShape, Before;
  }

  lemma ClaimDue(s: State, limit: nat, ids: seq<nat>, i: nat)
    requires Shape(s) && Timed(s) && Enabled(s, Claim(limit, ids)) && i < |s.rows|
    ensures var t := Apply(s, Claim(limit, ids)); t.schedule != [] && i < |t.rows| && DueSet(t, i)
  {
    hide Shape, DueSet, Apply, Enabled, Spaced, RowShape, Eligible;
    var t := Apply(s, Claim(limit, ids));
    HasSchedule(s);
    ClaimEffect(s, limit, ids, i);
    if i in ids {
      ClaimedDue(s, t, i);
    } else {
      assert t.log == t.log[..|s.log|];
      assert t.batch == ids;
      DueSetKept(s, t, i);
    }
  }

  lemma HasSchedule(s: State)
    requires Shape(s)
    ensures s.schedule != []
  {
  }

  lemma TimedKept(s: State, step: Step)
    requires Shape(s) && Timed(s) && Enabled(s, step)
    ensures Shape(Apply(s, step)) && Timed(Apply(s, step))
  {
    if step.Deliver? || step.Cut? {
      hide *;
      AnswerTimed(s, step);
    } else {
      var t := Apply(s, step);
      ShapeKept(s, step);
      if step.Claim? {
        hide Shape, DueSet, Spaced;
        forall i | 0 <= i < |t.rows| ensures DueSet(t, i) {
          ClaimDue(s, step.limit, step.ids, i);
        }
      } else {
        assert t.log == s.log == t.log[..|s.log|];
        hide Shape, Spaced;
        forall i | 0 <= i < |t.rows| ensures DueSet(t, i) {
          if i < |s.rows| && t.rows[i] == s.rows[i] {
            DueSetKept(s, t, i);
          }
        }
      }
    }
  }

  lemma {:induction false} TimedInRun(s: State, steps: seq<Step>)
    requires Shape(s) && Timed(s) && Legal(s, steps)
    ensures Timed(Exec(s, steps)) && Exec(s, steps).schedule == s.schedule
    decreases |steps|
  {
    if steps != [] {
      ScheduleFixed(s, steps[0]);
      hide Timed, Apply, Enabled;
      TimedKept(s, steps[0]);
      TimedInRun(Apply(s, steps[0]), steps[1..]);
    }
  }

  lemma ScheduleFixed(s: State, step: Step)
    requires Shape(s) && Enabled(s, step)
    ensures Apply(s, step).schedule == s.schedule
  {
  }

  /**
    Of two consecutive attempts of one event, in every run: the later starts a new series, or it
    is the next of the series, the earlier failed, and its back-off lies between them.
  */
  lemma ConsecutiveAttempts(s: State, steps: seq<Step>, j: nat, k: nat)
    requires Empty(s) && Shape(s) && Legal(s, steps) && j < k < |Exec(s, steps).log|
    requires Exec(s, steps).log[j].id == Exec(s, steps).log[k].id
    requires NoneSince(Exec(s, steps).log, j, k, Exec(s, steps).log[k].id)
    ensures var a, b := Exec(s, steps).log[j], Exec(s, steps).log[k];
            && s.schedule != []
            && (b.number != 1 ==>
                  && !a.ok && a.number >= 1 && b.number == a.number + 1
                  && a.at + s.schedule[if a.number <= |s.schedule| then a.number - 1 else |s.schedule| - 1] <= b.at)
  {
    hide *;
    EmptyTimed(s);
    TimedInRun(s, steps);
    TimedSpaced(Exec(s, steps), k);
    TimedSpaced(Exec(s, steps), j);
    HasSchedule(s);
    if Exec(s, steps).log[k].number != 1 {
      SpacedPair(s.schedule, Exec(s, steps).log, j, k);
      BackoffIs(s.schedule, Exec(s, steps).log[j].number);
    }
  }

  /** The n-th failure waits for the n-th delay of the schedule, and later ones for the last. */
  lemma BackoffIs(schedule: seq<int>, n: int)
    requires schedule != [] && n >= 1
    ensures Backoff(schedule, n) == schedule[if n <= |schedule| then n - 1 else |schedule| - 1]
  {
  }

  lemma EmptyTimed(s: State)
    requires Empty(s) && Shape(s)
    ensures Timed(s)
  {
  }

  lemma TimedSpaced(s: State, k: nat)
    requires Shape(s) && Timed(s) && k < |s.log|
    ensures s.schedule != [] && s.log[k].number >= 1 && Spaced(s.schedule, s.log, k)
  {
    hide Spaced, DueSet;
  }

  lemma SpacedPair(schedule: seq<int>, log: seq<Attempt>, j: nat, k: nat)
    requires schedule != [] && j < k < |log| && Spaced(schedule, log, k) && log[k].number >= 1 && log[j].number >= 1
    requires log[j].id == log[k].id && NoneSince(log, j, k, log[k].id) && log[k].number != 1
    ensures !log[j].ok && log[k].number == log[j].number + 1
    ensures log[j].at + Backoff(schedule, log[j].number) <= log[k].at
  {
    hide Backoff;
    var m :| 0 <= m < k && FailedAs(log, m, log[k].id, log[k].number - 1) && NoneSince(log, m, k, log[k].id)
             && log[m].at + Backoff(schedule, log[k].number - 1) <= log[k].at;
    assert m == j;
  }

  /** An event not replayed is in flight while claimed, and has no attempts counted before its first. */
  ghost predicate Counted(s: State, i: nat) {
    && (forall k | 0 <= k < |s.log| :: s.log[k].id < |s.rows|)
    && (i in s.batch ==> i < |s.rows| && s.rows[i].status == InFlight)
    && (i < |s.rows| && s.rows[i].attempts == 0 && !Stranded(s, i) ==> !Attempted(s.log, i))
    && (forall k | 0 <= k < |s.log| && s.log[k].id == i && s.log[k].number == 1 :: !Attempted(s.log[..k], i))
  }

  lemma CountedAnswer(s: State, step: Step, i: nat)
    requires Shape(s) && Counted(s, i) && Enabled(s, step) && (step.Deliver? || step.Cut?)
    ensures Counted(Apply(s, step), i)
  {
    var t, n := Apply(s, step), |s.log|;
    AnswerLog(s, step);
    var id := s.batch[0];
    assert RowShape(s.rows[id]) && t.log[n].number == s.rows[id].attempts + 1;
    assert step.Deliver? ==> t.rows[id].attempts >= 1 && t.batch == s.batch[1..];
    assert step.Deliver? ==> forall p | 0 <= p < |s.batch[1..]| :: s.batch[1..][p] != id;
    assert step.Cut? ==> t.rows == s.rows && t.batch == [];
    assert s.batch == [id] + s.batch[1..];
    hide Attempted, Shape, RowShape, Apply, Enabled;
    AttemptedGrows(s.log, t.log[n], i);
    assert t.log == s.log + [t.log[n]];
    assert forall k | 0 <= k < n :: t.log[k] == s.log[k] && t.log[..k] == s.log[..k];
  }

  lemma CountedKept(s: State, step: Step, i: nat)
    requires Shape(s) && Counted(s, i) && Enabled(s, step) && step != Replay(i)
    ensures Counted(Apply(s, step), i)
  {
    if step.Deliver? || step.Cut? {
      hide *;
      CountedAnswer(s, step, i);
    } else {
      var t := Apply(s, step);
      assert i >= |s.rows| ==> !Attempted(s.log, i);
      assert step.Claim? ==> s.batch == [];
      hide Attempted, Shape;
    }
  }

  lemma {:induction false} CountedInRun(s: State, steps: seq<Step>, i: nat)
    requires Shape(s) && Counted(s, i) && Legal(s, steps) && Replay(i) !in steps
    ensures Counted(Exec(s, steps), i)
    decreases |steps|
  {
    if steps != [] {
      hide Counted, Apply, Enabled;
      ShapeKept(s, steps[0]);
      assert forall k | 0 <= k < |steps[1..]| :: steps[1..][k] in steps;
      CountedKept(s, steps[0], i);
      CountedInRun(Apply(s, steps[0]), steps[1..], i);
    }
  }

  /** An event that is not replayed starts one series only: its consecutive attempts are a back-off apart. */
  lemma AttemptsApart(s: State, steps: seq<Step>, j: nat, k: nat)
    requires Empty(s) && Shape(s) && Legal(s, steps) && j < k < |Exec(s, steps).log|
    requires Exec(s, steps).log[j].id == Exec(s, steps).log[k].id && Replay(Exec(s, steps).log[k].id) !in steps
    requires NoneSince(Exec(s, steps).log, j, k, Exec(s, steps).log[k].id)
    ensures var a, b := Exec(s, steps).log[j], Exec(s, steps).log[k];
            && s.schedule != [] && !a.ok && a.number >= 1 && b.number == a.number + 1
            && a.at + s.schedule[if a.number <= |s.schedule| then a.number - 1 else |s.schedule| - 1] <= b.at
  {
    var i, log := Exec(s, steps).log[k].id, Exec(s, steps).log;
    CountedInRun(s, steps, i);
    assert log[..k][j].id == i;
    hide Exec, Legal, Shape, Backoff, NoneSince;
    assert Attempted(log[..k], i);
    ConsecutiveAttempts(s, steps, j, k);
  }

  /** The default schedule, delay by delay: a minute, five, a quarter of an hour, one hour, six and a day. */
  lemma DefaultDelays(s: State, steps: seq<Step>, j: nat, k: nat)
    requires Empty(s) && Shape(s) && Legal(s, steps) && j < k < |Exec(s, steps).log|
    requires Exec(s, steps).log[j].id == Exec(s, steps).log[k].id && Replay(Exec(s, steps).log[k].id) !in steps
    requires NoneSince(Exec(s, steps).log, j, k, Exec(s, steps).log[k].id)
    requires s.schedule == DEFAULT_SCHEDULE
    ensures var a, b := Exec(s, steps).log[j], Exec(s, steps).log[k];
            && b.number == a.number + 1
            && (a.number == 1 ==> a.at + 60 <= b.at)
            && (a.number == 2 ==> a.at + 300 <= b.at)
            && (a.number == 3 ==> a.at + 900 <= b.at)
            && (a.number == 4 ==> a.at + 3600 <= b.at)
            && (a.number == 5 ==> a.at + 21600 <= b.at)
            && (a.number == 6 ==> a.at + 86400 <= b.at)
  {
    hide Exec, Legal, Shape, NoneSince;
    AttemptsApart(s, steps, j, k);
  }

  /** The back-offs after the first n failed attempts, added up. */
  ghost function TotalBackoff(schedule: seq<int>, n: nat): int
    requires schedule != []
  {
    if n == 0 then 0 else TotalBackoff(schedule, n - 1) + Backoff(schedule, n)
  }

  /** Attempt m is the first of the series that attempt k belongs to. */
  ghost predicate StartsSeries(log: seq<Attempt>, m: nat, k: nat) {
    && m <= k < |log| && log[m].id == log[k].id && log[m].number == 1
    && forall j | m < j <= k && log[j].id == log[k].id :: log[j].number > 1
  }

  /** The attempt that attempt k follows in its series. */
  lemma SeriesBack(schedule: seq<int>, log: seq<Attempt>, k: nat) returns (j: nat)
    requires schedule != [] && k < |log| && Spaced(schedule, log, k) && log[k].number >= 2
    ensures j < k && log[j].id == log[k].id && log[j].number == log[k].number - 1 && NoneSince(log, j, k, log[k].id)
    ensures log[j].at + Backoff(schedule, log[k].number - 1) <= log[k].at
  {
    hide Backoff;
    j :| 0 <= j < k && FailedAs(log, j, log[k].id, log[k].number - 1) && NoneSince(log, j, k, log[k].id)
         && log[j].at + Backoff(schedule, log[k].number - 1) <= log[k].at;
  }

  lemma SeriesGrows(log: seq<Attempt>, m: nat, j: nat, k: nat)
    requires StartsSeries(log, m, j) && j < k < |log| && log[j].id == log[k].id && NoneSince(log, j, k, log[k].id)
    requires log[k].number > 1
    ensures StartsSeries(log, m, k)
  {
  }

  lemma SeriesAlone(log: seq<Attempt>, k: nat)
    requires k < |log| && log[k].number == 1
    ensures StartsSeries(log, k, k)
  {
  }

  lemma TotalStep(schedule: seq<int>, n: nat)
    requires schedule != []
    ensures TotalBackoff(schedule, 0) == 0
    ensures n > 0 ==> TotalBackoff(schedule, n) == TotalBackoff(schedule, n - 1) + Backoff(schedule, n)
  {
  }

  lemma {:induction false} ChainBack(s: State, k: nat) returns (m: nat)
    requires Shape(s) && Timed(s) && k < |s.log|
    ensures s.schedule != [] && s.log[k].number >= 1 && StartsSeries(s.log, m, k)
    ensures m <= k && s.log[m].at + TotalBackoff(s.schedule, s.log[k].number - 1) <= s.log[k].at
    decreases k
  {
    hide *;
    TimedSpaced(s, k);
    TotalStep(s.schedule, s.log[k].number - 1);
    if s.log[k].number >= 2 {
      var j := SeriesBack(s.schedule, s.log, k);
      m := ChainBack(s, j);
      SeriesGrows(s.log, m, j, k);
    } else {
      m := k;
      SeriesAlone(s.log, k);
    }
  }

  /**
    In every run, crashes and replays included: the n-th attempt of an event since it was
    enqueued or last replayed follows the first since then by at least the first n - 1 back-offs.
  */
  lemma AttemptsTakeTime(s: State, steps: seq<Step>, k: nat) returns (m: nat)
    requires Empty(s) && Shape(s) && Legal(s, steps) && k < |Exec(s, steps).log|
    ensures StartsSeries(Exec(s, steps).log, m, k) && Exec(s, steps).log[k].number >= 1
    ensures Exec(s, steps).log[m].at + TotalBackoff(s.schedule, Exec(s, steps).log[k].number - 1)
            <= Exec(s, steps).log[k].at
  {
    hide *;
    EmptyTimed(s);
    TimedInRun(s, steps);
    m := ChainBack(Exec(s, steps), k);
  }

  /**
    In every run a dead event has failed a series of seven attempts, k being its last attempt of
    all and m the first of the series, at least the first six back-offs before; and it was
    created before that.
  */
  lemma DeadLetterTakesTime(s: State, steps: seq<Step>, i: nat) returns (m: nat, k: nat)
    requires Empty(s) && Shape(s) && Legal(s, steps)
    requires i < |Exec(s, steps).rows| && Exec(s, steps).rows[i].status == DeadLetter
    ensures FailedAs(Exec(s, steps).log, k, i, MAX_ATTEMPTS)
    ensures NoneSince(Exec(s, steps).log, k, |Exec(s, steps).log|, i) && StartsSeries(Exec(s, steps).log, m, k)
    ensures Exec(s, steps).rows[i].created <= Exec(s, steps).log[m].at
    ensures Exec(s, steps).log[m].at + TotalBackoff(s.schedule, MAX_ATTEMPTS - 1) <= Exec(s, steps).log[k].at
    ensures Exec(s, steps).log[k].at <= Exec(s, steps).now
  {
    hide *;
    EmptyTimed(s);
    TimedInRun(s, steps);
    k := LastFailure(Exec(s, steps), i);
    FailedIs(Exec(s, steps).log, k, i, MAX_ATTEMPTS);
    HasSchedule(s);
    m := AttemptsTakeTime(s, steps, k);
    SeriesStart(Exec(s, steps).log, m, k);
    TimedAttempt(Exec(s, steps), m);
    TimedAttempt(Exec(s, steps), k);
  }

  lemma LastFailure(t: State, i: nat) returns (k: nat)
    requires Shape(t) && Timed(t) && i < |t.rows| && t.rows[i].status == DeadLetter
    ensures FailedAs(t.log, k, i, MAX_ATTEMPTS) && NoneSince(t.log, k, |t.log|, i)
  {
    assert RowShape(t.rows[i]) && DueSet(t, i);
    k :| FailedAs(t.log, k, i, MAX_ATTEMPTS) && NoneSince(t.log, k, |t.log|, i);
  }

  lemma SeriesStart(log: seq<Attempt>, m: nat, k: nat)
    requires StartsSeries(log, m, k)
    ensures m <= k < |log| && log[m].id == log[k].id && log[m].number == 1
  {
  }

  lemma FailedIs(log: seq<Attempt>, m: int, id: int, number: int)
    requires FailedAs(log, m, id, number)
    ensures 0 <= m < |log| && log[m].id == id && log[m].number == number
  {
  }

  lemma TimedAttempt(t: State, k: nat)
    requires Shape(t) && Timed(t) && k < |t.log|
    ensures t.log[k].id < |t.rows| && t.rows[t.log[k].id].created <= t.log[k].at <= t.now
  {
  }

  lemma DefaultTotal()
    ensures TotalBackoff(DEFAULT_SCHEDULE, MAX_ATTEMPTS - 1) == 112860
  {
    assert TotalBackoff(DEFAULT_SCHEDULE, 3) == 60 + 300 + 900;
    assert TotalBackoff(DEFAULT_SCHEDULE, 5) == TotalBackoff(DEFAULT_SCHEDULE, 3) + 3600 + 21600;
  }

  /** With the default schedule no event is dead sooner than 112860 seconds after its creation and first attempt. */
  lemma DefaultDeadLetterTime(s: State, steps: seq<Step>, i: nat) returns (m: nat)
    requires Empty(s) && Shape(s) && Legal(s, steps) && s.schedule == DEFAULT_SCHEDULE
    requires i < |Exec(s, steps).rows| && Exec(s, steps).rows[i].status == DeadLetter
    ensures m < |Exec(s, steps).log| && Exec(s, steps).log[m].id == i && Exec(s, steps).log[m].number == 1
    ensures Exec(s, steps).rows[i].created + 112860 <= Exec(s, steps).log[m].at + 112860 <= Exec(s, steps).now
  {
    DefaultTotal();
    hide Exec, Legal, Shape, TotalBackoff;
    var k;
    m, k := DeadLetterTakesTime(s, steps, i);
  }

  // ---- what a claim takes -----------------------------------------------

  /**
    A dispatch claims rows never tried or failed before that are due by now, by partition and then
    by creation; it leaves one out only when its batch is full, of rows that are not after it.
  */
  lemma ClaimTakes(s: State, limit: nat, ids: seq<nat>, i: nat)
    requires Shape(s) && Enabled(s, Claim(limit, ids)) && i < |s.rows|
    ensures var r, t := s.rows[i], Apply(s, Claim(limit, ids));
            && t == s.(rows := t.rows, batch := ids) && |t.rows| == |s.rows| && |ids| <= limit
            && (i in ids ==>
                  && t.rows[i] == r.(status := InFlight)
                  && (r.status == Pending || (r.status == Retrying && r.due.Some? && r.due.value <= s.now)))
            && (i !in ids ==>
                  && t.rows[i] == r
                  && (r.status == Pending || (r.status == Retrying && r.due.Some? && r.due.value <= s.now) ==>
                        |ids| == limit && forall p | 0 <= p < |ids| ::
                          && ids[p] < |s.rows|
                          && (s.rows[ids[p]].partition < r.partition
                              || (s.rows[ids[p]].partition == r.partition && s.rows[ids[p]].created <= r.created))))
  {
    assert RowShape(s.rows[i]);
    assert forall p | 0 <= p < |ids| :: ids[p] < |s.rows|;
  }

  /** The claimed rows are distinct and come by partition, and within one by creation. */
  lemma ClaimSorts(s: State, limit: nat, ids: seq<nat>, p: nat, q: nat)
    requires Shape(s) && Enabled(s, Claim(limit, ids)) && p < q < |ids|
    ensures ids[p] < |s.rows| && ids[q] < |s.rows| && ids[p] != ids[q]
    ensures var a, b := s.rows[ids[p]], s.rows[ids[q]];
            a.partition < b.partition || (a.partition == b.partition && a.created <= b.created)
  {
  }

  // ---- progress ---------------------------------------------------------

  predicate Open(r: Row) { r.status in {Pending, InFlight, Retrying} }

  /** Attempts the open events have left. */
  ghost function Left(rows: seq<Row>): int {
    if rows == [] then 0
    else Left(rows[..|rows| - 1]) + RowLeft(rows[|rows| - 1])
  }

  ghost function RowLeft(r: Row): int {
    if Open(r) then MAX_ATTEMPTS - r.attempts else 0
  }

  ghost function OpenCount(rows: seq<Row>): nat {
    if rows == [] then 0
    else OpenCount(rows[..|rows| - 1]) + if Open(rows[|rows| - 1]) then 1 else 0
  }

  lemma {:induction false} LeftUpdate(rows: seq<Row>, i: nat, r: Row)
    requires i < |rows|
    ensures Left(rows[i := r]) == Left(rows) - RowLeft(rows[i]) + RowLeft(r)
  {
    var n := |rows| - 1;
    if i == n {
      assert rows[i := r][..n] == rows[..n];
    } else {
      assert rows[i := r][..n] == rows[..n][i := r];
      LeftUpdate(rows[..n], i, r);
    }
  }

  lemma {:induction false} LeftSame(rows: seq<Row>, rows': seq<Row>)
    requires |rows| == |rows'|
    requires forall i | 0 <= i < |rows| :: RowLeft(rows[i]) == RowLeft(rows'[i])
    ensures Left(rows) == Left(rows')
  {
    if rows != [] {
      LeftSame(rows[..|rows| - 1], rows'[..|rows| - 1]);
    }
  }

  lemma {:induction false} LeftBounds(rows: seq<Row>)
    requires forall i | 0 <= i < |rows| :: RowShape(rows[i])
    ensures OpenCount(rows) <= Left(rows) <= MAX_ATTEMPTS * OpenCount(rows)
  {
    if rows != [] {
      LeftBounds(rows[..|rows| - 1]);
    }
  }

  ghost function Deliveries(steps: seq<Step>): nat {
    if steps == [] then 0 else Deliveries(steps[1..]) + if steps[0].Deliver? then 1 else 0
  }

  ghost predicate NothingNew(steps: seq<Step>) {
    forall k | 0 <= k < |steps| :: !steps[k].Enqueue? && !steps[k].Replay?
  }

  lemma LeftDrops(s: State, step: Step)
    requires Shape(s) && Enabled(s, step) && !step.Enqueue? && !step.Replay?
    ensures if step.Deliver? then Left(Apply(s, step).rows) < Left(s.rows)
            else Left(Apply(s, step).rows) == Left(s.rows)
  {
    match step
    case Deliver(ok, elapsed) =>
      var id, now := s.batch[0], s.now + elapsed;
      assert RowShape(s.rows[id]);
      LeftUpdate(s.rows, id, Answered(s.schedule, s.rows[id], ok, now));
    case Claim(_, ids) =>
      LeftSame(s.rows, Claimed(s.rows, ids));
    case _ =>
  }

  lemma {:induction false} DeliveriesPaidFor(s: State, steps: seq<Step>)
    requires Shape(s) && NothingNew(steps) && Legal(s, steps)
    ensures Deliveries(steps) + Left(Exec(s, steps).rows) <= Left(s.rows)
    decreases |steps|
  {
    if steps != [] {
      hide Apply, Enabled;
      ShapeKept(s, steps[0]);
      LeftDrops(s, steps[0]);
      assert NothingNew(steps[1..]);
      DeliveriesPaidFor(Apply(s, steps[0]), steps[1..]);
    }
  }

  /**
    With nothing enqueued or replayed, n open events take at most 7n deliveries, and whoever
    makes that many has closed them all.
  */
  lemma SevenDeliveriesEach(s: State, steps: seq<Step>)
    requires Shape(s) && NothingNew(steps) && Legal(s, steps)
    ensures Deliveries(steps) <= MAX_ATTEMPTS * OpenCount(s.rows)
    ensures Deliveries(steps) == MAX_ATTEMPTS * OpenCount(s.rows) ==> OpenCount(Exec(s, steps).rows) == 0
  {
    DeliveriesPaidFor(s, steps);
    LeftBounds(s.rows);
    LeftBounds(Exec(s, steps).rows);
  }

  /**
    The idle dispatcher finds work once an open event is due, unless that event is stranded; and
    if it does not claim that event itself, its batch is full.
  */
  lemma ClaimFindsWork(s: State, limit: nat, ids: seq<nat>, i: nat)
    requires Shape(s) && Enabled(s, Claim(limit, ids)) && limit > 0
    requires i < |s.rows| && Open(s.rows[i]) && (s.rows[i].due == None || s.rows[i].due.value <= s.now)
    ensures !Stranded(s, i) ==> ids != [] && (i in ids || |ids| == limit)
    ensures Stranded(s, i) ==> i !in ids
  {
    assert Eligible(s.rows[i], s.now) <==> !Stranded(s, i);
  }

  // ---- crashes ----------------------------------------------------------

  ghost predicate Stranded(s: State, i: nat) {
    i < |s.rows| && s.rows[i].status == InFlight && i !in s.batch
  }

  /** A crash strands the claimed rows still in flight; a replay frees a row; nothing else does either. */
  lemma CrashStrands(s: State, step: Step, i: nat)
    requires Shape(s) && Enabled(s, step)
    ensures Dies(step) ==> Apply(s, step).rows == s.rows && Apply(s, step).batch == []
    ensures step == Crash ==> Apply(s, step).log == s.log && Apply(s, step).now == s.now
    ensures step.Cut? ==>
              && Apply(s, step).now == s.now + step.elapsed
              && Apply(s, step).log
                 == s.log + [Attempt(s.batch[0], s.now + step.elapsed, step.ok, s.rows[s.batch[0]].attempts + 1)]
    ensures Stranded(Apply(s, step), i) <==>
              && step != Replay(i)
              && (Stranded(s, i) || (Dies(step) && i in s.batch && s.rows[i].status == InFlight))
  {
  }

  /** Some crash of the run held i in flight, and i is not replayed after it. */
  ghost predicate LostIn(s: State, steps: seq<Step>, i: nat)
    requires Shape(s) && Legal(s, steps)
    decreases |steps|
  {
    steps != [] &&
    (ShapeKept(s, steps[0]);
     || (Dies(steps[0]) && i in s.batch && s.rows[i].status == InFlight && Replay(i) !in steps[1..])
     || LostIn(Apply(s, steps[0]), steps[1..], i))
  }

  /** Over every run, crashes and replays included: who is stranded at its end. */
  lemma {:induction false} StrandedIff(s: State, steps: seq<Step>, i: nat)
    requires Shape(s) && Legal(s, steps)
    ensures Stranded(Exec(s, steps), i) <==> (Stranded(s, i) && Replay(i) !in steps) || LostIn(s, steps, i)
    decreases |steps|
  {
    if steps != [] {
      ShapeKept(s, steps[0]);
      CrashStrands(s, steps[0], i);
      assert steps == [steps[0]] + steps[1..];
      hide Stranded, Apply, Enabled, Shape;
      StrandedIff(Apply(s, steps[0]), steps[1..], i);
    }
  }

  /** A stranded event is never attempted again by any run that does not replay it. */
  lemma {:induction false} StrandedForGood(s: State, steps: seq<Step>, i: nat, m: nat)
    requires Shape(s) && Legal(s, steps) && Stranded(s, i)
    requires forall k | 0 <= k < |steps| :: steps[k] != Replay(i)
    ensures Stranded(Exec(s, steps), i)
    ensures |s.log| <= m < |Exec(s, steps).log| ==> Exec(s, steps).log[m].id != i
    decreases |steps|
  {
    if steps != [] {
      var t := Apply(s, steps[0]);
      ShapeKept(s, steps[0]);
      StrandedStep(s, steps[0], i);
      LogKept(t, steps[1..]);
      StrandedForGood(t, steps[1..], i, m);
    }
  }

  lemma StrandedStep(s: State, step: Step, i: nat)
    requires Shape(s) && Enabled(s, step) && Stranded(s, i) && step != Replay(i)
    ensures Stranded(Apply(s, step), i)
    ensures |s.log| < |Apply(s, step).log| ==> Apply(s, step).log == s.log + [Apply(s, step).log[|s.log|]]
    ensures |s.log| < |Apply(s, step).log| ==> Apply(s, step).log[|s.log|].id != i
  {
  }

  lemma {:induction false} LogKept(s: State, steps: seq<Step>)
    requires Shape(s) && Legal(s, steps)
    ensures |s.log| <= |Exec(s, steps).log| && Exec(s, steps).log[..|s.log|] == s.log
    decreases |steps|
  {
    if steps != [] {
      var t := Apply(s, steps[0]);
      ShapeKept(s, steps[0]);
      LogKept(t, steps[1..]);
      assert Exec(s, steps).log[..|t.log|][..|s.log|] == Exec(s, steps).log[..|s.log|];
    }
  }

  lemma {:induction false} ExecThen(s: State, steps: seq<Step>, step: Step)
    requires Shape(s) && Legal(s, steps) && Enabled(Exec(s, steps), step)
    ensures Legal(s, steps + [step]) && Exec(s, steps + [step]) == Apply(Exec(s, steps), step)
    decreases |steps|
  {
    if steps == [] {
      ShapeKept(s, step);
      assert (steps + [step])[1..] == [];
    } else {
      ShapeKept(s, steps[0]);
      ExecThen(Apply(s, steps[0]), steps[1..], step);
      assert (steps + [step])[1..] == steps[1..] + [step];
    }
  }

  // ---- at least once ----------------------------------------------------

  /** The first in claiming order of the eligible rows among the first n that are not taken. */
  ghost predicate IsOldest(rows: seq<Row>, n: nat, now: int, taken: seq<nat>, best: Option<nat>)
    requires n <= |rows|
  {
    && (best == None ==> forall i | 0 <= i < n && Eligible(rows[i], now) :: i in taken)
    && (best.Some? ==>
          && best.value < n && Eligible(rows[best.value], now) && best.value !in taken
          && forall i | 0 <= i < n && Eligible(rows[i], now) && i !in taken :: !Before(rows[i], rows[best.value]))
  }

  lemma {:induction false} OldestExists(rows: seq<Row>, n: nat, now: int, taken: seq<nat>) returns (best: Option<nat>)
    requires n <= |rows|
    ensures IsOldest(rows, n, now, taken, best)
  {
    if n == 0 {
      best := None;
    } else {
      best := OldestExists(rows, n - 1, now, taken);
      hide Eligible;
      if Eligible(rows[n - 1], now) && n - 1 !in taken && (best == None || Before(rows[n - 1], rows[best.value])) {
        best := Some(n - 1);
      }
    }
  }

  /** The claiming query always has an answer. */
  lemma {:induction false} SelectionExists(rows: seq<Row>, now: int, limit: nat) returns (ids: seq<nat>)
    ensures Selected(rows, now, limit, ids)
  {
    if limit == 0 {
      ids := [];
    } else {
      ids := SelectionExists(rows, now, limit - 1);
      var best := OldestExists(rows, |rows|, now, ids);
      hide Eligible;
      if |ids| == limit - 1 && best.Some? {
        assert forall p | 0 <= p < |ids| :: ids[p] in ids && !Before(rows[best.value], rows[ids[p]]);
        ids := ids + [best.value];
      }
    }
  }

  /** The dispatcher goes on undisturbed, claiming up to `limit` rows a time. */
  ghost predicate Dispatching(steps: seq<Step>, limit: nat) {
    forall k | 0 <= k < |steps| :: steps[k].Wait? || steps[k].Deliver? || (steps[k].Claim? && steps[k].limit == limit)
  }

  ghost predicate Reaches(s: State, steps: seq<Step>, limit: nat, i: nat)
    requires Shape(s)
  {
    && Dispatching(steps, limit) && Legal(s, steps)
    && i < |Exec(s, steps).rows| && Exec(s, steps).rows[i].status == Delivered
  }

  lemma ReachesFrom(s: State, step: Step, rest: seq<Step>, limit: nat, i: nat)
    requires Shape(s) && Enabled(s, step) && Shape(Apply(s, step)) && Reaches(Apply(s, step), rest, limit, i)
    requires step.Wait? || step.Deliver? || (step.Claim? && step.limit == limit)
    ensures Reaches(s, [step] + rest, limit, i)
  {
    hide Shape, Apply, Enabled;
    ExecFrom(s, step, rest, Apply(s, step));
  }

  lemma DeliverHead(s: State, i: nat)
    requires Shape(s) && s.batch != [] && (i in s.batch || (i < |s.rows| && Eligible(s.rows[i], s.now)))
    ensures var t := Apply(s, Deliver(true, 0));
            && i < |s.rows| && Enabled(s, Deliver(true, 0)) && Shape(t) && |t.rows| == |s.rows|
            && (i == s.batch[0] ==> t.rows[i].status == Delivered)
            && (i != s.batch[0] ==> t.rows[i] == s.rows[i] && t.now == s.now && (i in s.batch ==> i in t.batch))
  {
    ShapeKept(s, Deliver(true, 0));
    hide RowShape, Eligible;
    assert s.batch == [s.batch[0]] + s.batch[1..];
  }

  lemma ClaimNext(s: State, limit: nat, ids: seq<nat>, i: nat)
    requires Shape(s) && s.batch == [] && limit > 0 && Selected(s.rows, s.now, limit, ids)
    requires i < |s.rows| && Eligible(s.rows[i], s.now)
    ensures var t := Apply(s, Claim(limit, ids));
            && Enabled(s, Claim(limit, ids)) && Shape(t) && |t.rows| == |s.rows| && t.now == s.now && t.batch == ids != []
            && (i !in ids ==> t.rows[i] == s.rows[i])
  {
    ShapeKept(s, Claim(limit, ids));
    hide RowShape;
  }

  lemma NothingMore(t: State, limit: nat, i: nat)
    requires Shape(t) && i < |t.rows| && t.rows[i].status == Delivered
    ensures Reaches(t, [], limit, i)
  {
    hide Shape;
  }

  lemma {:induction false} WillArrive(s: State, limit: nat, i: nat) returns (steps: seq<Step>)
    requires Shape(s) && limit > 0 && (i in s.batch || (i < |s.rows| && Eligible(s.rows[i], s.now)))
    ensures Reaches(s, steps, limit, i)
    decreases Left(s.rows), if s.batch == [] then 1 else 0
  {
    LeftNatural(s);
    hide Shape, Selected, Eligible, Apply, Enabled, Reaches;
    if s.batch != [] {
      var d := Deliver(true, 0);
      var t := Apply(s, d);
      DeliverHead(s, i);
      LeftDrops(s, d);
      LeftNatural(t);
      var rest;
      if i == s.batch[0] {
        rest := [];
        NothingMore(t, limit, i);
      } else {
        rest := WillArrive(t, limit, i);
      }
      ReachesFrom(s, d, rest, limit, i);
      steps := [d] + rest;
    } else {
      var ids := SelectionExists(s.rows, s.now, limit);
      var c := Claim(limit, ids);
      ClaimNext(s, limit, ids, i);
      LeftDrops(s, c);
      var rest := WillArrive(Apply(s, c), limit, i);
      ReachesFrom(s, c, rest, limit, i);
      steps := [c] + rest;
    }
  }

  lemma LeftNatural(s: State)
    requires Shape(s)
    ensures Left(s.rows) >= 0
  {
    LeftBounds(s.rows);
  }

  lemma WaitUntilDue(s: State, i: nat)
    requires Shape(s) && i < |s.rows| && Open(s.rows[i]) && !Stranded(s, i) && i !in s.batch
    ensures var d := if s.rows[i].due.Some? && s.rows[i].due.value > s.now then s.rows[i].due.value - s.now else 0;
            var t := Apply(s, Wait(d));
            Shape(t) && t.rows == s.rows && Eligible(t.rows[i], t.now)
  {
    hide RowShape;
  }

  /** For every batch size: dispatching alone can still deliver an open event exactly if it is not stranded. */
  lemma CanStillArriveIff(s: State, limit: nat, i: nat)
    requires Shape(s) && limit > 0 && i < |s.rows| && Open(s.rows[i])
    ensures (exists steps :: Reaches(s, steps, limit, i)) <==> !Stranded(s, i)
  {
    if !Stranded(s, i) {
      if i in s.batch {
        var steps := WillArrive(s, limit, i);
      } else {
        var d: nat := if s.rows[i].due.Some? && s.rows[i].due.value > s.now then s.rows[i].due.value - s.now else 0;
        WaitUntilDue(s, i);
        hide Shape, Open, Stranded, Apply, Eligible, Reaches;
        var rest := WillArrive(Apply(s, Wait(d)), limit, i);
        ReachesFrom(s, Wait(d), rest, limit, i);
      }
    } else {
      forall steps | Reaches(s, steps, limit, i) ensures false {
        StrandedForGood(s, steps, i, 0);
      }
    }
  }

  /**
    The promise of delivery at least once: after every run an event that is neither delivered nor
    dead can still be delivered by dispatching alone exactly if no crash of the run held it in
    flight without a replay after it.
  */
  lemma AtLeastOnceIff(s: State, steps: seq<Step>, limit: nat, i: nat)
    requires Empty(s) && Shape(s) && Legal(s, steps) && limit > 0
    requires i < |Exec(s, steps).rows| && Exec(s, steps).rows[i].status !in {Delivered, DeadLetter}
    ensures (exists more :: Reaches(Exec(s, steps), more, limit, i)) <==> !LostIn(s, steps, i)
  {
    StrandedIff(s, steps, i);
    hide Legal, Exec, Shape, LostIn, Reaches;
    CanStillArriveIff(Exec(s, steps), limit, i);
  }

  ghost function Lone(schedule: seq<int>, status: Status, batch: seq<nat>): State {
    State(schedule, [Row(1, 0, status, 0, None, None)], batch, 0, [])
  }

  lemma LoneClaimed(schedule: seq<int>)
    requires schedule != []
    ensures Shape(Lone(schedule, Pending, [])) && Shape(Lone(schedule, InFlight, [0]))
    ensures Enabled(Lone(schedule, Pending, []), Claim(50, [0]))
    ensures Apply(Lone(schedule, Pending, []), Claim(50, [0])) == Lone(schedule, InFlight, [0])
  {
    var s, t := Lone(schedule, Pending, []), Lone(schedule, InFlight, [0]);
    assert Claimed(s.rows, [0]) == t.rows;
    assert Selected(s.rows, 0, 50, [0]);
  }

  lemma LoneCrashed(schedule: seq<int>)
    requires schedule != []
    ensures Shape(Lone(schedule, InFlight, [])) && Stranded(Lone(schedule, InFlight, []), 0)
    ensures Shape(Lone(schedule, InFlight, [0]))
    ensures Apply(Lone(schedule, InFlight, [0]), Crash) == Lone(schedule, InFlight, [])
    ensures Enabled(Lone(schedule, InFlight, [0]), Crash)
  {
  }

  lemma LoneEnqueued(schedule: seq<int>)
    requires schedule != []
    ensures var s := State(schedule, [], [], 0, []);
            && Empty(s) && Shape(s) && Enabled(s, Enqueue(1)) && Apply(s, Enqueue(1)) == Lone(schedule, Pending, [])
  {
  }

  /** One event, enqueued and claimed, and a crash before its delivery: it is lost. */
  lemma CrashLoses(schedule: seq<int>) returns (s: State, steps: seq<Step>)
    requires schedule != []
    ensures Empty(s) && Shape(s) && steps == [Enqueue(1), Claim(50, [0]), Crash] && Legal(s, steps)
    ensures Stranded(Exec(s, steps), 0)
  {
    hide *;
    s := State(schedule, [], [], 0, []);
    LoneEnqueued(schedule);
    LoneClaimed(schedule);
    LoneCrashed(schedule);
    NoSteps(Lone(schedule, InFlight, []));
    ExecFrom(Lone(schedule, InFlight, [0]), Crash, [], Lone(schedule, InFlight, []));
    ExecFrom(Lone(schedule, Pending, []), Claim(50, [0]), [Crash] + [], Lone(schedule, InFlight, [0]));
    ExecFrom(s, Enqueue(1), [Claim(50, [0])] + ([Crash] + []), Lone(schedule, Pending, []));
    steps := [Enqueue(1)] + ([Claim(50, [0])] + ([Crash] + []));
  }

  ghost function Late(status: Status, batch: seq<nat>, schedule: seq<int>): State {
    State(schedule, [Row(1, 0, InFlight, 0, None, None), Row(1, 1, status, 0, None, None)], batch, 1,
          [Attempt(0, 1, true, 1)])
  }

  lemma LoneCut(schedule: seq<int>)
    requires schedule != []
    ensures var s := Lone(schedule, InFlight, [0]);
            var t := State(schedule, [Row(1, 0, InFlight, 0, None, None)], [], 1, [Attempt(0, 1, true, 1)]);
            && Shape(s) && Shape(t) && Enabled(s, Cut(true, 1)) && Apply(s, Cut(true, 1)) == t
            && Shape(Late(Pending, [], schedule)) && Enabled(t, Enqueue(1))
            && Apply(t, Enqueue(1)) == Late(Pending, [], schedule)
  {
    var t := State(schedule, [Row(1, 0, InFlight, 0, None, None)], [], 1, [Attempt(0, 1, true, 1)]);
    assert t.rows + [Row(1, 1, Pending, 0, None, None)] == Late(Pending, [], schedule).rows;
  }

  lemma LateClaimed(schedule: seq<int>)
    requires schedule != []
    ensures var s, t := Late(Pending, [], schedule), Late(InFlight, [1], schedule);
            && Shape(s) && Shape(t) && Enabled(s, Claim(50, [1])) && Apply(s, Claim(50, [1])) == t
  {
    var s, t := Late(Pending, [], schedule), Late(InFlight, [1], schedule);
    assert Claimed(s.rows, [1]) == t.rows;
    assert Selected(s.rows, 1, 50, [1]);
  }

  lemma LateDelivered(schedule: seq<int>)
    requires schedule != []
    ensures var s := Late(InFlight, [1], schedule);
            && Shape(s) && Enabled(s, Deliver(true, 0)) && Overtaking(s) && !Passing(s)
  {
    var s := Late(InFlight, [1], schedule);
    assert Older(s.rows, 0, 1);
    assert s.log[0].id == 0 && s.log[0].ok;
  }

  lemma NeverFrom(s: State, step: Step, rest: seq<Step>, t: State)
    requires Shape(s) && Enabled(s, step) && Apply(s, step) == t && Shape(t) && Legal(t, rest)
    ensures Legal(s, [step] + rest)
    ensures NeverPasses(s, [step] + rest) <==> !(Succeeds(step) && Passing(s)) && NeverPasses(t, rest)
    ensures NeverOvertakes(s, [step] + rest) <==> !(Succeeds(step) && Overtaking(s)) && NeverOvertakes(t, rest)
  {
    ExecFrom(s, step, rest, t);
    assert ([step] + rest)[1..] == rest;
  }

  /** The call of an event succeeds and is cut, then a newer one arrives: in order, though the table tells otherwise. */
  lemma CutHidesArrival(schedule: seq<int>) returns (s: State, steps: seq<Step>)
    requires schedule != []
    ensures Empty(s) && Shape(s) && Legal(s, steps)
    ensures ArrivalsInOrder(Exec(s, steps)) && !NeverOvertakes(s, steps)
  {
    hide *;
    s := State(schedule, [], [], 0, []);
    var cut := State(schedule, [Row(1, 0, InFlight, 0, None, None)], [], 1, [Attempt(0, 1, true, 1)]);
    LoneEnqueued(schedule);
    LoneClaimed(schedule);
    LoneCut(schedule);
    LateClaimed(schedule);
    LateDelivered(schedule);
    var last := Late(InFlight, [1], schedule);
    ShapeKept(last, Deliver(true, 0));
    NoSteps(Apply(last, Deliver(true, 0)));
    var rest := [Deliver(true, 0)] + [];
    NeverFrom(last, Deliver(true, 0), [], Apply(last, Deliver(true, 0)));
    NeverFrom(Late(Pending, [], schedule), Claim(50, [1]), rest, last);
    rest := [Claim(50, [1])] + rest;
    NeverFrom(cut, Enqueue(1), rest, Late(Pending, [], schedule));
    rest := [Enqueue(1)] + rest;
    NeverFrom(Lone(schedule, InFlight, [0]), Cut(true, 1), rest, cut);
    rest := [Cut(true, 1)] + rest;
    NeverFrom(Lone(schedule, Pending, []), Claim(50, [0]), rest, Lone(schedule, InFlight, [0]));
    rest := [Claim(50, [0])] + rest;
    NeverFrom(s, Enqueue(1), rest, Lone(schedule, Pending, []));
    steps := [Enqueue(1)] + rest;
    NothingCalled(s, Enqueue(1));
    NothingCalled(Lone(schedule, Pending, []), Claim(50, [0]));
    NothingCalled(cut, Enqueue(1));
    NothingCalled(Late(Pending, [], schedule), Claim(50, [1]));
    FirstPassesNone(schedule);
    DeliverSucceeds();
    ArrivalsInCreationOrderIff(s, steps);
  }

  lemma NothingCalled(s: State, step: Step)
    requires step.Enqueue? || step.Claim?
    ensures !Succeeds(step)
  {
  }

  lemma DeliverSucceeds()
    ensures Succeeds(Deliver(true, 0))
  {
  }

  lemma FirstPassesNone(schedule: seq<int>)
    ensures !Passing(Lone(schedule, InFlight, [0]))
  {
  }

  lemma NoSteps(s: State)
    requires Shape(s)
    ensures Legal(s, []) && Exec(s, []) == s && NeverPasses(s, []) && NeverOvertakes(s, [])
  {
  }

  /** A claim followed by its first k deliveries. */
  ghost function Dispatch(limit: nat, ids: seq<nat>, answer: nat -> (bool, nat), k: nat): seq<Step> {
    if k == 0 then [Claim(limit, ids)]
    else Dispatch(limit, ids, answer, k - 1) + [Deliver(answer(k - 1).0, answer(k - 1).1)]
  }

  /** Since `before` the first k of `ids` have been called, in order, and answered as given. */
  ghost predicate Called(before: seq<Attempt>, log: seq<Attempt>, ids: seq<nat>, answer: nat -> (bool, nat), k: nat) {
    && k <= |ids| && |log| == |before| + k && log[..|before|] == before
    && forall j: nat | j < k :: log[|before| + j].id == ids[j] && log[|before| + j].ok == answer(j).0
  }

  lemma CalledNext(
    before: seq<Attempt>, log: seq<Attempt>, a: Attempt, ids: seq<nat>, answer: nat -> (bool, nat), k: nat)
    requires Called(before, log, ids, answer, k) && k < |ids| && a.id == ids[k] && a.ok == answer(k).0
    ensures Called(before, log + [a], ids, answer, k + 1)
  {
  }

  lemma CalledNone(log: seq<Attempt>, ids: seq<nat>, answer: nat -> (bool, nat))
    ensures Called(log, log, ids, answer, 0)
  {
  }

  // ---- the table and its dispatcher -------------------------------------

  class Queue {
    const schedule: seq<int>
    var rows: seq<Row>
    var batch: seq<nat>
    var now: int
    ghost var log: seq<Attempt>

    ghost function View(): State
      reads this
    {
      State(schedule, rows, batch, now, log)
    }

    ghost predicate Valid()
      reads this
    {
      Shape(View())
    }

    constructor (schedule: seq<int>)
      requires schedule != []
      ensures Valid() && Empty(View()) && this.schedule == schedule
    {
      this.schedule := schedule;
      rows, batch, now, log := [], [], 0, [];
    }

    method Enqueue(partition: int) returns (id: nat)
      requires Valid()
      modifies this
      ensures Valid() && id == old(|rows|)
      ensures View() == Apply(old(View()), Step.Enqueue(partition))
      ensures rows == old(rows) + [Row(partition, now, Pending, 0, None, None)]
      ensures batch == old(batch) && now == old(now) && log == old(log)
    {
      id := |rows|;
      rows := rows + [Row(partition, now, Pending, 0, None, None)];
    }

    /** The oldest eligible row not taken yet, in claiming order. */
    method Oldest(taken: seq<nat>) returns (best: Option<nat>)
      ensures IsOldest(rows, |rows|, now, taken, best)
    {
      hide Eligible;
      best := None;
      for j := 0 to |rows|
        invariant IsOldest(rows, j, now, taken, best)
      {
        if Eligible(rows[j], now) && j !in taken && (best == None || Before(rows[j], rows[best.value])) {
          best := Some(j);
        }
      }
    }

    /** The claiming query. */
    method SelectDue(limit: nat) returns (ids: seq<nat>)
      ensures Selected(rows, now, limit, ids)
    {
      ids := [];
      while |ids| < limit
        invariant |ids| <= limit
        invariant forall p | 0 <= p < |ids| :: ids[p] < |rows| && Eligible(rows[ids[p]], now)
        invariant forall p, q | 0 <= p < q < |ids| :: ids[p] != ids[q] && !Before(rows[ids[q]], rows[ids[p]])
        invariant forall i, p | 0 <= i < |rows| && Eligible(rows[i], now) && i !in ids && 0 <= p < |ids| ::
                    !Before(rows[i], rows[ids[p]])
      {
        var best := Oldest(ids);
        if best == None {
          return;
        }
        assert forall p | 0 <= p < |ids| :: ids[p] != best.value;
        ids := ids + [best.value];
      }
    }

    /** `_deliver` for the head of the batch; the answer of the HTTP call is given. */
    method DeliverNext(ok: bool, elapsed: nat)
      requires Valid() && batch != []
      modifies this
      ensures Valid() && batch == old(batch[1..]) && now == old(now) + elapsed
      ensures View() == Apply(old(View()), Step.Deliver(ok, elapsed))
      ensures old(batch[0]) < |old(rows)| == |rows|
      ensures forall i | 0 <= i < |rows| && i != old(batch[0]) :: rows[i] == old(rows[i])
      ensures var id := old(batch[0]);
              var was, r := old(rows)[id], rows[id];
              && log == old(log) + [Attempt(id, now, ok, was.attempts + 1)]
              && r.attempts == was.attempts + 1 <= 7
              && r.partition == was.partition && r.created == was.created
              && r.status == (if ok then Delivered else if r.attempts == 7 then DeadLetter else Retrying)
              && r.delivered == (if ok then Some(now) else was.delivered)
              && (r.status != Retrying ==> r.due == was.due)
              && (r.status == Retrying ==>
                    r.due == Some(now + schedule[if r.attempts <= |schedule| then r.attempts - 1 else |schedule| - 1]))
    {
      ghost var before := View();
      var id := batch[0];
      now := now + elapsed;
      var row := rows[id];
      row := row.(attempts := row.attempts + 1);
      if ok {
        row := row.(status := Delivered, delivered := Some(now));
      } else if row.attempts >= MAX_ATTEMPTS {
        row := row.(status := DeadLetter);
      } else {
        row := row.(status := Retrying, due := Some(now + Backoff(schedule, row.attempts)));
      }
      rows := rows[id := row];
      batch := batch[1..];
      log := log + [Attempt(id, now, ok, row.attempts)];
      ShapeKept(before, Step.Deliver(ok, elapsed));
      assert RowShape(before.rows[id]);
    }

    /** The claiming transaction of `dispatch_batch`. */
    method ClaimBatch(limit: nat) returns (ids: seq<nat>)
      requires Valid() && batch == []
      modifies this
      ensures Valid() && batch == ids && log == old(log)
      ensures Legal(old(View()), [Claim(limit, ids)]) && View() == Exec(old(View()), [Claim(limit, ids)])
    {
      ghost var before := View();
      ids := SelectDue(limit);
      rows := Claimed(rows, ids);
      batch := ids;
      ShapeKept(before, Claim(limit, ids));
      ExecFrom(before, Claim(limit, ids), [], View());
      assert [Claim(limit, ids)] + [] == [Claim(limit, ids)];
    }

    /** One turn of the delivery loop of a dispatch that began in state `start`. */
    method DeliverTurn(ghost start: State, limit: nat, ids: seq<nat>, answer: nat -> (bool, nat), k: nat)
      requires Valid() && Shape(start) && k < |ids| && batch == ids[k..] && Called(start.log, log, ids, answer, k)
      requires Legal(start, Dispatch(limit, ids, answer, k))
      requires View() == Exec(start, Dispatch(limit, ids, answer, k))
      modifies this
      ensures Valid() && batch == ids[k + 1..] && Called(start.log, log, ids, answer, k + 1)
      ensures Legal(start, Dispatch(limit, ids, answer, k + 1))
      ensures View() == Exec(start, Dispatch(limit, ids, answer, k + 1))
    {
      var (ok, elapsed) := answer(k);
      assert Enabled(View(), Step.Deliver(ok, elapsed));
      hide Apply, Shape, Exec, Legal, Enabled, Called;
      ghost var was := log;
      ExecThen(start, Dispatch(limit, ids, answer, k), Step.Deliver(ok, elapsed));
      DeliverNext(ok, elapsed);
      CalledNext(start.log, was, log[|was|], ids, answer, k);
    }

    /** `dispatch_batch` with nothing in between: claim, then deliver every claimed row in turn. */
    method DispatchBatch(limit: nat, answer: nat -> (bool, nat)) returns (ids: seq<nat>)
      requires Valid() && batch == []
      modifies this
      ensures Valid() && batch == []
      ensures Called(old(log), log, ids, answer, |ids|)
      ensures Legal(old(View()), Dispatch(limit, ids, answer, |ids|))
      ensures View() == Exec(old(View()), Dispatch(limit, ids, answer, |ids|))
    {
      ghost var start := View();
      ids := ClaimBatch(limit);
      CalledNone(log, ids, answer);
      hide Apply, Shape, Exec, Legal, Enabled, Called;
      var k := 0;
      while k < |ids|
        invariant 0 <= k <= |ids| && batch == ids[k..] && Valid()
        invariant Called(start.log, log, ids, answer, k)
        invariant Legal(start, Dispatch(limit, ids, answer, k))
        invariant View() == Exec(start, Dispatch(limit, ids, answer, k))
      {
        DeliverTurn(start, limit, ids, answer, k);
        k := k + 1;
      }
    }

    /** `replay_webhook`: resets the row whatever its status, but not `delivered_at`; an unknown id changes nothing. */
    method ReplayEvent(id: nat) returns (found: bool)
      requires Valid()
      modifies this
      ensures Valid() && found == (id < |old(rows)|)
      ensures View() == Apply(old(View()), Step.Replay(id))
      ensures rows == if !found then old(rows)
                      else old(rows)[id := old(rows)[id].(status := Pending, attempts := 0, due := None)]
      ensures batch == old(batch) && now == old(now) && log == old(log)
    {
      ghost var before := View();
      found := id < |rows|;
      if found {
        rows := rows[id := rows[id].(status := Pending, attempts := 0, due := None)];
      }
      ShapeKept(before, Step.Replay(id));
    }
  }
}
