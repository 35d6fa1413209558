/**
  Idempotent endpoints: `core/idempotency.py`, over the sessions of `persistence/database.py` and
  the pruning job of `core/scheduler.py`.

  A key stands for a tenant and its idempotency key, a body for its hash. Sessions run
  concurrently, each seeing only committed rows besides its own; they do not flush on their own
  before a query, so that `complete` finds the session's own new row only if the handler flushed.
  An insert waits while another session has inserted the same key, and fails if it is committed.
*/
module Idempotency {
  import opened Prelude

  /** Times are in seconds. */
  const EXPIRY := 24 * 3600

  /** A row of the table; without a response its status is `pending`. */
  datatype Row = Row(body: int, money: bool, response: Option<int>, expires: Option<int>)

  /** A request between `get_or_start` and its commit: `recorded` says whether `complete` found the row. */
  datatype Session = Session(
    key: int, body: int, money: bool, begun: int, flushed: bool, answer: Option<int>, recorded: bool)

  /** What a committed request did. */
  datatype Effect = Effect(key: int, body: int, money: bool, begun: int, at: int, response: int, recorded: bool)

  datatype State = State(now: int, rows: map<int, Row>, sessions: map<int, Session>, effects: seq<Effect>)

  datatype Reply = Proceed | Cached(response: int) | BodyConflict | InProgress

  datatype Step =
    | Begin(id: int, key: int, body: int, money: bool)
    | Flush(id: int)
    | Complete(id: int, response: int)
    | Commit(id: int)
    | Fail(id: int)
    | Prune
    | Tick(seconds: nat)

  // ---- the steps --------------------------------------------------------

  /** What `get_or_start` answers. */
  function Lookup(s: State, key: int, body: int): Reply {
    if key !in s.rows then Proceed
    else if s.rows[key].body != body then BodyConflict
    else if s.rows[key].response.Some? then Cached(s.rows[key].response.value)
    else InProgress
  }

  /** Another session has inserted the same key and not ended yet. */
  predicate Blocked(s: State, id: int)
    requires id in s.sessions
  {
    exists o | o in s.sessions && o != id :: s.sessions[o].flushed && s.sessions[o].key == s.sessions[id].key
  }

  predicate Enabled(s: State, step: Step) {
    match step
    case Begin(id, _, _, _) => id !in s.sessions
    case Flush(id) => id in s.sessions && !s.sessions[id].flushed && !Blocked(s, id)
    case Complete(id, _) => id in s.sessions && s.sessions[id].answer == None
    case Commit(id) => id in s.sessions && s.sessions[id].answer.Some? && (s.sessions[id].flushed || !Blocked(s, id))
    case Fail(id) => id in s.sessions
    case Prune => true
    case Tick(_) => true
  }

  function Ended(s: State, id: int): State {
    s.(sessions := s.sessions - {id})
  }

  function RowOf(e: Effect): Row {
    Row(e.body, e.money, if e.recorded then Some(e.response) else None, if e.money then None else Some(e.begun + EXPIRY))
  }

  function EffectOf(x: Session, now: int): Effect
    requires x.answer.Some?
  {
    Effect(x.key, x.body, x.money, x.begun, now, x.answer.value, x.recorded)
  }

  predicate Expired(row: Row, now: int) {
    !row.money && row.expires.Some? && row.expires.value <= now
  }

  function Pruned(rows: map<int, Row>, now: int): map<int, Row> {
    map k | k in rows && !Expired(rows[k], now) :: rows[k]
  }

  function Apply(s: State, step: Step): State
    requires Enabled(s, step)
  {
    match step
    case Begin(id, key, body, money) =>
      if Lookup(s, key, body) != Proceed then s
      else s.(sessions := s.sessions[id := Session(key, body, money, s.now, false, None, false)])
    case Flush(id) =>
      if s.sessions[id].key in s.rows then Ended(s, id)
      else s.(sessions := s.sessions[id := s.sessions[id].(flushed := true)])
    case Complete(id, response) =>
      s.(sessions := s.sessions[id := s.sessions[id].(answer := Some(response), recorded := s.sessions[id].flushed)])
    case Commit(id) =>
      var x := s.sessions[id];
      if x.key in s.rows then Ended(s, id)
      else
        var e := EffectOf(x, s.now);
        Ended(s, id).(rows := s.rows[x.key := RowOf(e)], effects := s.effects + [e])
    case Fail(id) => Ended(s, id)
    case Prune => s.(rows := Pruned(s.rows, s.now))
    case Tick(seconds) => s.(now := s.now + seconds)
  }

  ghost predicate Legal(s: State, steps: seq<Step>)
    decreases |steps|
  {
    steps == [] || (Enabled(s, steps[0]) && Legal(Apply(s, steps[0]), steps[1..]))
  }

  ghost function Exec(s: State, steps: seq<Step>): State
    requires Legal(s, steps)
    decreases |steps|
  {
    if steps == [] then s else Exec(Apply(s, steps[0]), steps[1..])
  }

  // ---- the invariant ----------------------------------------------------

  /** The effect's row is there, unless it has expired. */
  ghost predicate Guarded(s: State, e: Effect) {
    || (e.key in s.rows && s.rows[e.key] == RowOf(e))
    || (!e.money && s.now >= e.begun + EXPIRY)
  }

  /** A second effect under one key comes a day or more after the first request began, if that moved no money. */
  ghost predicate Apart(e: Effect, f: Effect) {
    e.key == f.key ==> !e.money && f.at >= e.begun + EXPIRY
  }

  ghost predicate SoleWriter(s: State, id: int) {
    id in s.sessions && s.sessions[id].flushed ==> s.sessions[id].key !in s.rows && !Blocked(s, id)
  }

  ghost predicate Safe(s: State) {
    && (forall i | 0 <= i < |s.effects| :: Guarded(s, s.effects[i]))
    && (forall i, j | 0 <= i < j < |s.effects| :: Apart(s.effects[i], s.effects[j]))
    && (forall id :: SoleWriter(s, id))
  }

  lemma StartSafe(now: int)
    ensures Safe(State(now, map[], map[], []))
  {
  }

  lemma SessionStep(s: State, step: Step, id: int)
    requires Safe(s) && Enabled(s, step)
    ensures SoleWriter(Apply(s, step), id)
  {
    hide Guarded, Apart, RowOf, EffectOf, Expired;
    assert SoleWriter(s, id);
    forall o | o in s.sessions && id in s.sessions && o != id && s.sessions[o].key == s.sessions[id].key
      ensures s.sessions[id].flushed ==> Blocked(s, o)
    {
    }
  }

  lemma GuardStep(s: State, step: Step, e: Effect)
    requires Enabled(s, step) && Guarded(s, e)
    ensures Guarded(Apply(s, step), e)
  {
    hide Blocked, Lookup;
  }

  lemma CommitApart(s: State, step: Step, i: nat)
    requires Safe(s) && Enabled(s, step) && step.Commit? && i < |s.effects|
    requires s.sessions[step.id].key !in s.rows
    ensures Apart(s.effects[i], EffectOf(s.sessions[step.id], s.now))
  {
    hide Blocked, RowOf, SoleWriter;
    assert Guarded(s, s.effects[i]);
  }

  lemma EffectsGrow(s: State, step: Step)
    requires Enabled(s, step)
    ensures var t := Apply(s, step);
            if step.Commit? && s.sessions[step.id].key !in s.rows then
              var e := EffectOf(s.sessions[step.id], s.now);
              t.effects == s.effects + [e] && Guarded(t, e)
            else t.effects == s.effects
  {
    hide Blocked, Lookup;
  }

  lemma StepSafe(s: State, step: Step)
    requires Safe(s) && Enabled(s, step)
    ensures Safe(Apply(s, step)) && s.effects <= Apply(s, step).effects
  {
    hide Apply, Enabled, Guarded, Apart, SoleWriter, EffectOf;
    var t := Apply(s, step);
    EffectsGrow(s, step);
    forall i | 0 <= i < |t.effects| ensures Guarded(t, t.effects[i]) {
      if i < |s.effects| {
        GuardStep(s, step, s.effects[i]);
      }
    }
    forall i, j | 0 <= i < j < |t.effects| ensures Apart(t.effects[i], t.effects[j]) {
      if j >= |s.effects| {
        CommitApart(s, step, i);
      }
    }
    forall id ensures SoleWriter(t, id) {
      SessionStep(s, step, id);
    }
  }

  /**
    Over every run of requests, failures, concurrent first requests, pruning and passing time:
    once a money request has taken effect under a key nothing ever takes effect under it again,
    and two effects of a non-money key are at least 24 hours from the first one's beginning.
  */
  lemma {:induction false} AtMostOnce(s: State, steps: seq<Step>)
    requires Safe(s) && Legal(s, steps)
    ensures Safe(Exec(s, steps)) && s.effects <= Exec(s, steps).effects
    ensures forall i, j | 0 <= i < j < |Exec(s, steps).effects| ::
              var e, f := Exec(s, steps).effects[i], Exec(s, steps).effects[j];
              e.key == f.key ==> !e.money && f.at >= e.begun + 86400
    decreases |steps|
  {
    hide Apply, Enabled, Guarded, SoleWriter;
    if steps != [] {
      StepSafe(s, steps[0]);
      AtMostOnce(Apply(s, steps[0]), steps[1..]);
    }
    assert forall i, j | 0 <= i < j < |Exec(s, steps).effects| ::
      Apart(Exec(s, steps).effects[i], Exec(s, steps).effects[j]);
  }

  /**
    Every call after an effect that moved money: a different body is refused; the same body gets
    the first response exactly if `complete` had found the row, and is refused forever if not.
    Whatever it gets, it changes nothing. For other effects this holds until they expire.
  */
  lemma LaterCalls(s: State, steps: seq<Step>, i: nat, id: int, body: int, money: bool)
    requires Safe(s) && i < |s.effects| && Legal(s, steps) && id !in Exec(s, steps).sessions
    requires s.effects[i].money || Exec(s, steps).now < s.effects[i].begun + 86400
    ensures var t, e := Exec(s, steps), s.effects[i];
            && Lookup(t, e.key, body) ==
                 (if body != e.body then BodyConflict else if e.recorded then Cached(e.response) else InProgress)
            && Apply(t, Begin(id, e.key, body, money)) == t
  {
    AtMostOnce(s, steps);
    hide Legal, Exec, Apart, SoleWriter;
    var t := Exec(s, steps);
    assert t.effects[i] == s.effects[i];
    assert Guarded(t, t.effects[i]);
  }

  // ---- what pruning frees -----------------------------------------------

  /** The row was written by a committed request. */
  ghost predicate Written(s: State, key: int)
    requires key in s.rows
  {
    exists i | 0 <= i < |s.effects| :: s.effects[i].key == key && s.rows[key] == RowOf(s.effects[i])
  }

  ghost predicate AllWritten(s: State) {
    forall key | key in s.rows :: Written(s, key)
  }

  lemma WrittenStep(s: State, step: Step)
    requires AllWritten(s) && Enabled(s, step)
    ensures AllWritten(Apply(s, step))
  {
    var t := Apply(s, step);
    EffectsGrow(s, step);
    hide Enabled, Blocked, RowOf, EffectOf, Guarded, Lookup;
    forall key | key in t.rows ensures Written(t, key) {
      if key in s.rows && t.rows[key] == s.rows[key] {
        assert Written(s, key);
        var i :| 0 <= i < |s.effects| && s.effects[i].key == key && s.rows[key] == RowOf(s.effects[i]);
        assert t.effects[i] == s.effects[i];
      } else {
        assert step.Commit?;
        OwnRow(s, step.id);
        assert t.effects[|s.effects|].key == key;
      }
    }
  }

  lemma OwnRow(s: State, id: int)
    requires Enabled(s, Commit(id)) && s.sessions[id].key !in s.rows
    ensures var t, e := Apply(s, Commit(id)), EffectOf(s.sessions[id], s.now);
            && e.key == s.sessions[id].key && t.effects == s.effects + [e] && t.rows == s.rows[e.key := RowOf(e)]
  {
    hide Blocked;
  }

  lemma {:induction false} WrittenInRun(s: State, steps: seq<Step>)
    requires AllWritten(s) && Legal(s, steps)
    ensures AllWritten(Exec(s, steps))
    decreases |steps|
  {
    hide Apply, Enabled, AllWritten;
    if steps != [] {
      WrittenStep(s, steps[0]);
      WrittenInRun(Apply(s, steps[0]), steps[1..]);
    }
  }

  /**
    After every run from the empty table and a pruning, a key may be used anew if and only if no
    request under it has moved money, and each that took effect began 24 hours ago or earlier.
  */
  lemma PruneFreesIff(now: int, steps: seq<Step>, key: int, body: int)
    requires Legal(State(now, map[], map[], []), steps)
    ensures var s := Exec(State(now, map[], map[], []), steps);
            Lookup(Apply(s, Prune), key, body) == Proceed <==>
            forall i | 0 <= i < |s.effects| && s.effects[i].key == key ::
              !s.effects[i].money && s.effects[i].begun + 86400 <= s.now
  {
    var s0 := State(now, map[], map[], []);
    StartSafe(now);
    AtMostOnce(s0, steps);
    WrittenInRun(s0, steps);
    var s := Exec(s0, steps);
    hide Legal, Exec, Apart, SoleWriter;
    var t := Apply(s, Prune);
    forall i | 0 <= i < |s.effects| ensures Guarded(t, s.effects[i]) {
      GuardStep(s, Prune, s.effects[i]);
    }
    if key in t.rows {
      assert Written(s, key);
    }
  }

  /** The steps of one undisturbed request. */
  ghost function Request(id: int, key: int, body: int, money: bool, flushes: bool, response: int): seq<Step> {
    if flushes then [Begin(id, key, body, money), Flush(id), Complete(id, response), Commit(id)]
    else [Begin(id, key, body, money), Complete(id, response), Commit(id)]
  }

  lemma Unroll(s: State, a: Step, rest: seq<Step>)
    requires Enabled(s, a) && Legal(Apply(s, a), rest)
    ensures Legal(s, [a] + rest) && Exec(s, [a] + rest) == Exec(Apply(s, a), rest)
  {
    assert ([a] + rest)[1..] == rest;
  }

  /**
    A handler that flushes before `complete` has its response recorded, as the payment endpoints
    do; one that does not, as mandate creation, takes effect but leaves the row pending.
  */
  lemma RecordedIffFlushed(s: State, id: int, key: int, body: int, money: bool, flushes: bool, response: int)
    requires id !in s.sessions && key !in s.rows
    requires forall o | o in s.sessions && s.sessions[o].key == key :: !s.sessions[o].flushed
    ensures var steps := Request(id, key, body, money, flushes, response);
            && Legal(s, steps)
            && var t := Exec(s, steps);
               && t.effects == s.effects + [Effect(key, body, money, s.now, s.now, response, flushes)]
               && Lookup(t, key, body) == if flushes then Cached(response) else InProgress
  {
    var a, c := Begin(id, key, body, money), Complete(id, response);
    var s1 := Apply(s, a);
    var s2 := if flushes then Apply(s1, Flush(id)) else s1;
    var s3 := Apply(s2, c);
    assert Enabled(s3, Commit(id));
    var s4 := Apply(s3, Commit(id));
    hide Enabled, Apply;
    assert Legal(s4, []) && Exec(s4, []) == s4;
    Unroll(s3, Commit(id), []);
    Unroll(s2, c, [Commit(id)]);
    assert [Commit(id)] + [] == [Commit(id)];
    assert [c] + [Commit(id)] == [c, Commit(id)];
    if flushes {
      Unroll(s1, Flush(id), [c, Commit(id)]);
      assert [Flush(id)] + [c, Commit(id)] == [Flush(id), c, Commit(id)];
      Unroll(s, a, [Flush(id), c, Commit(id)]);
      assert [a] + [Flush(id), c, Commit(id)] == Request(id, key, body, money, flushes, response);
    } else {
      Unroll(s, a, [c, Commit(id)]);
      assert [a] + [c, Commit(id)] == Request(id, key, body, money, flushes, response);
    }
  }

  /** Of two first requests in flight together, the one that commits second takes no effect. */
  lemma SecondCommitRollsBack(s: State, first: int, second: int)
    requires Safe(s) && Enabled(s, Commit(first)) && second in s.sessions && second != first
    requires s.sessions[second].key == s.sessions[first].key
    requires s.sessions[first].key !in s.rows
    requires Enabled(Apply(s, Commit(first)), Commit(second))
    ensures var t := Apply(s, Commit(first));
            && |t.effects| == |s.effects| + 1
            && Apply(t, Commit(second)).effects == t.effects && Apply(t, Commit(second)).rows == t.rows
  {
  }

  // ---- which responses are recorded, in interleaved runs ----------------

  /** Session id flushes after step a and before step c. */
  ghost predicate FlushedBetween(h: seq<Step>, a: int, c: int, id: int) {
    exists b | 0 <= b < |h| && a < b < c :: h[b] == Flush(id)
  }

  /** Nothing begins or ends session id after step a and before step d. */
  ghost predicate SameSession(h: seq<Step>, a: int, d: int, id: int) {
    forall j | 0 <= j < |h| && a < j < d :: h[j] != Commit(id) && h[j] != Fail(id) && !(h[j].Begin? && h[j].id == id)
  }

  /** At step c the session begun at a completed with the response; it had flushed by then if it was recorded. */
  ghost predicate CompletedAt(h: seq<Step>, a: int, c: int, id: int, response: int, recorded: bool) {
    0 <= a < c < |h| && h[c] == Complete(id, response) && (recorded <==> FlushedBetween(h, a, c, id))
  }

  /** The history h has brought session id where x is, from its beginning at a. */
  ghost predicate Lived(h: seq<Step>, a: int, id: int, x: Session) {
    && 0 <= a < |h| && h[a] == Begin(id, x.key, x.body, x.money) && SameSession(h, a, |h|, id)
    && (x.flushed <==> FlushedBetween(h, a, |h|, id))
    && (x.answer.Some? ==> exists c :: CompletedAt(h, a, c, id, x.answer.value, x.recorded))
  }

  /** The history h holds a session that brought the effect about. */
  ghost predicate Caused(h: seq<Step>, e: Effect, id: int, a: int, c: int, d: int) {
    && 0 <= a < c < d < |h| && h[a] == Begin(id, e.key, e.body, e.money) && h[d] == Commit(id)
    && SameSession(h, a, d, id) && CompletedAt(h, a, c, id, e.response, e.recorded)
  }

  ghost predicate Alive(h: seq<Step>, id: int, x: Session) {
    exists a :: Lived(h, a, id, x)
  }

  ghost predicate HasCause(h: seq<Step>, e: Effect) {
    exists id, a, c, d :: Caused(h, e, id, a, c, d)
  }

  ghost predicate Traced(h: seq<Step>, s: State) {
    && (forall id | id in s.sessions :: Alive(h, id, s.sessions[id]))
    && (forall k | 0 <= k < |s.effects| :: HasCause(h, s.effects[k]))
  }

  lemma FlushedLater(h: seq<Step>, step: Step, a: int, c: int, id: int)
    ensures c <= |h| ==> (FlushedBetween(h + [step], a, c, id) <==> FlushedBetween(h, a, c, id))
    ensures 0 <= a < |h| ==>
              (FlushedBetween(h + [step], a, |h| + 1, id) <==> FlushedBetween(h, a, |h|, id) || step == Flush(id))
  {
    var g := h + [step];
    forall b | 0 <= b < |h| ensures g[b] == h[b] {
    }
    if FlushedBetween(h, a, |h|, id) {
      var b :| 0 <= b < |h| && a < b < |h| && h[b] == Flush(id);
      assert g[b] == Flush(id);
    }
    if FlushedBetween(h, a, c, id) {
      var b :| 0 <= b < |h| && a < b < c && h[b] == Flush(id);
      assert g[b] == Flush(id);
    }
    if step == Flush(id) {
      assert g[|h|] == Flush(id);
    }
  }

  lemma CompletedLater(h: seq<Step>, step: Step, a: int, c: int, id: int, response: int, recorded: bool)
    requires CompletedAt(h, a, c, id, response, recorded)
    ensures CompletedAt(h + [step], a, c, id, response, recorded)
  {
    FlushedLater(h, step, a, c, id);
    hide FlushedBetween;
  }

  lemma SameSessionLater(h: seq<Step>, step: Step, a: int, d: int, id: int)
    requires SameSession(h, a, d, id) && d <= |h|
    ensures SameSession(h + [step], a, d, id)
    ensures d == |h| && step != Commit(id) && step != Fail(id) && !(step.Begin? && step.id == id) ==>
              SameSession(h + [step], a, |h| + 1, id)
  {
    assert forall j | 0 <= j < |h| :: (h + [step])[j] == h[j];
  }

  lemma CausedLater(h: seq<Step>, step: Step, e: Effect, id: int, a: int, c: int, d: int)
    requires Caused(h, e, id, a, c, d)
    ensures Caused(h + [step], e, id, a, c, d)
  {
    CompletedLater(h, step, a, c, id, e.response, e.recorded);
    SameSessionLater(h, step, a, d, id);
    hide CompletedAt, SameSession;
  }

  /** A step of another session, or of none, leaves a session as it was. */
  lemma LivedOn(h: seq<Step>, step: Step, a: int, id: int, x: Session)
    requires Lived(h, a, id, x) && !About(step, id)
    ensures Lived(h + [step], a, id, x)
  {
    SameSessionLater(h, step, a, |h|, id);
    FlushedLater(h, step, a, |h|, id);
    if x.answer.Some? {
      var c :| CompletedAt(h, a, c, id, x.answer.value, x.recorded);
      CompletedLater(h, step, a, c, id, x.answer.value, x.recorded);
    }
    hide FlushedBetween, CompletedAt, SameSession;
    assert (h + [step])[a] == h[a];
  }

  lemma LivedFlush(h: seq<Step>, a: int, id: int, x: Session)
    requires Lived(h, a, id, x)
    ensures Lived(h + [Flush(id)], a, id, x.(flushed := true))
  {
    SameSessionLater(h, Flush(id), a, |h|, id);
    FlushedLater(h, Flush(id), a, |h|, id);
    if x.answer.Some? {
      var c :| CompletedAt(h, a, c, id, x.answer.value, x.recorded);
      CompletedLater(h, Flush(id), a, c, id, x.answer.value, x.recorded);
    }
    hide FlushedBetween, CompletedAt, SameSession;
    assert (h + [Flush(id)])[a] == h[a];
  }

  lemma LivedComplete(h: seq<Step>, a: int, id: int, x: Session, response: int)
    requires Lived(h, a, id, x)
    ensures Lived(h + [Complete(id, response)], a, id, x.(answer := Some(response), recorded := x.flushed))
  {
    var step := Complete(id, response);
    SameSessionLater(h, step, a, |h|, id);
    FlushedLater(h, step, a, |h|, id);
    hide FlushedBetween, SameSession;
    assert (h + [step])[a] == h[a] && (h + [step])[|h|] == step;
    assert CompletedAt(h + [step], a, |h|, id, response, x.flushed);
  }

  lemma LivedBegin(h: seq<Step>, id: int, key: int, body: int, money: bool, now: int)
    ensures Lived(h + [Begin(id, key, body, money)], |h|, id, Session(key, body, money, now, false, None, false))
  {
  }

  lemma CausedCommit(h: seq<Step>, a: int, id: int, x: Session, now: int) returns (c: int)
    requires Lived(h, a, id, x) && x.answer.Some?
    ensures Caused(h + [Commit(id)], EffectOf(x, now), id, a, c, |h|)
  {
    c :| CompletedAt(h, a, c, id, x.answer.value, x.recorded);
    CompletedLater(h, Commit(id), a, c, id, x.answer.value, x.recorded);
    SameSessionLater(h, Commit(id), a, |h|, id);
    assert c < |h|;
    hide CompletedAt, SameSession, FlushedBetween;
    assert (h + [Commit(id)])[a] == h[a];
  }

  /** What a step leaves of the sessions it is not about. */
  lemma SessionsAfter(s: State, step: Step, id: int)
    requires Enabled(s, step) && id in Apply(s, step).sessions && !About(step, id)
    ensures id in s.sessions && Apply(s, step).sessions[id] == s.sessions[id]
  {
    hide Blocked, Lookup;
  }

  lemma TracedSession(h: seq<Step>, s: State, step: Step, id: int)
    requires Traced(h, s) && Enabled(s, step) && id in Apply(s, step).sessions
    ensures Alive(h + [step], id, Apply(s, step).sessions[id])
  {
    assert id in s.sessions ==> Alive(h, id, s.sessions[id]);
    var t := Apply(s, step);
    if !About(step, id) {
      SessionsAfter(s, step, id);
      hide Lived, Apply, Enabled, About;
      var a :| Lived(h, a, id, s.sessions[id]);
      LivedOn(h, step, a, id, s.sessions[id]);
    } else if step.Begin? {
      LivedBegin(h, id, step.key, step.body, step.money, s.now);
    } else {
      assert step.Flush? || step.Complete?;
      var x := s.sessions[id];
      hide Lived, Blocked;
      var a :| Lived(h, a, id, x);
      if step.Flush? {
        LivedFlush(h, a, id, x);
      } else {
        LivedComplete(h, a, id, x, step.response);
      }
    }
  }

  lemma CauseKept(h: seq<Step>, step: Step, e: Effect)
    requires HasCause(h, e)
    ensures HasCause(h + [step], e)
  {
    hide Caused;
    var id, a, c, d :| Caused(h, e, id, a, c, d);
    CausedLater(h, step, e, id, a, c, d);
  }

  lemma CommitIsCause(h: seq<Step>, id: int, x: Session, now: int)
    requires Alive(h, id, x) && x.answer.Some?
    ensures HasCause(h + [Commit(id)], EffectOf(x, now))
  {
    hide Lived, Caused, EffectOf;
    var a :| Lived(h, a, id, x);
    var c := CausedCommit(h, a, id, x, now);
  }

  lemma CommitAnswered(s: State, id: int)
    requires Enabled(s, Commit(id))
    ensures id in s.sessions && s.sessions[id].answer.Some?
  {
  }

  lemma TracedStep(h: seq<Step>, s: State, step: Step)
    requires Traced(h, s) && Enabled(s, step)
    ensures Traced(h + [step], Apply(s, step))
  {
    hide Alive, HasCause, Apply, Enabled, EffectOf, Guarded;
    var t := Apply(s, step);
    forall id | id in t.sessions ensures Alive(h + [step], id, t.sessions[id]) {
      TracedSession(h, s, step, id);
    }
    EffectsGrow(s, step);
    forall k | 0 <= k < |t.effects| ensures HasCause(h + [step], t.effects[k]) {
      if k < |s.effects| {
        CauseKept(h, step, s.effects[k]);
      } else {
        CommitAnswered(s, step.id);
        CommitIsCause(h, step.id, s.sessions[step.id], s.now);
      }
    }
  }

  lemma {:induction false} TracedInRun(h: seq<Step>, s: State, steps: seq<Step>)
    requires Traced(h, s) && Legal(s, steps)
    ensures Traced(h + steps, Exec(s, steps))
    decreases |steps|
  {
    hide Traced, Apply, Enabled;
    if steps == [] {
      assert h + steps == h;
    } else {
      TracedStep(h, s, steps[0]);
      TracedInRun(h + [steps[0]], Apply(s, steps[0]), steps[1..]);
      assert h + [steps[0]] + steps[1..] == h + steps;
    }
  }

  /**
    Over every run from the empty table, however requests interleave: each effect was brought about
    by one session, begun at a, completed at c and committed at d with the effect's key, body and
    response; and its response is recorded if and only if that session flushed between a and c.
  */
  lemma EffectsRecordedIff(now: int, steps: seq<Step>, k: nat) returns (id: int, a: int, c: int, d: int)
    requires Legal(State(now, map[], map[], []), steps) && k < |Exec(State(now, map[], map[], []), steps).effects|
    ensures var e := Exec(State(now, map[], map[], []), steps).effects[k];
            && 0 <= a < c < d < |steps|
            && steps[a] == Begin(id, e.key, e.body, e.money) && steps[c] == Complete(id, e.response)
            && steps[d] == Commit(id) && SameSession(steps, a, d, id)
            && (e.recorded <==> exists b | a < b < c :: steps[b] == Flush(id))
  {
    var s := State(now, map[], map[], []);
    assert Traced([], s);
    hide Traced, Legal, Exec, SameSession;
    TracedInRun([], s, steps);
    assert [] + steps == steps;
    id, a, c, d := CauseOf(steps, Exec(s, steps), k);
  }

  lemma CauseOf(h: seq<Step>, s: State, k: nat) returns (id: int, a: int, c: int, d: int)
    requires Traced(h, s) && k < |s.effects|
    ensures Caused(h, s.effects[k], id, a, c, d)
  {
    hide Caused, Alive;
    assert HasCause(h, s.effects[k]);
    id, a, c, d :| Caused(h, s.effects[k], id, a, c, d);
  }

  // ---- failed requests --------------------------------------------------

  predicate About(step: Step, id: int) {
    match step
    case Begin(i, _, _, _) => i == id
    case Flush(i) => i == id
    case Complete(i, _) => i == id
    case Commit(i) => i == id
    case Fail(i) => i == id
    case _ => false
  }

  ghost function Others(steps: seq<Step>, id: int): seq<Step> {
    if steps == [] then []
    else (if About(steps[0], id) then [] else [steps[0]]) + Others(steps[1..], id)
  }

  lemma OwnStep(s: State, step: Step, id: int)
    requires Enabled(s, step) && About(step, id) && step != Commit(id)
    ensures Ended(Apply(s, step), id) == Ended(s, id)
  {
    hide Lookup, Blocked;
  }

  lemma OtherStep(s: State, step: Step, id: int)
    requires Enabled(s, step) && !About(step, id)
    ensures Enabled(Ended(s, id), step) && Apply(Ended(s, id), step) == Ended(Apply(s, step), id)
  {
    var t := Ended(s, id);
    assert Enabled(t, step);
    hide Lookup, Blocked, RowOf, EffectOf;
    assert Apply(t, step).sessions == Ended(Apply(s, step), id).sessions;
  }

  /**
    Requests that fail leave no trace: whatever a session that never commits has begun, flushed
    or completed in between, the run of all the others alone is possible too, and ends with the
    same rows, effects and sessions.
  */
  lemma {:induction false} FailureUndone(s: State, steps: seq<Step>, id: int)
    requires Legal(s, steps) && Commit(id) !in steps
    ensures Legal(Ended(s, id), Others(steps, id))
    ensures Exec(Ended(s, id), Others(steps, id)) == Ended(Exec(s, steps), id)
    decreases |steps|
  {
    hide Apply, Enabled, Ended, About;
    if steps != [] {
      var t, rest := Apply(s, steps[0]), Others(steps[1..], id);
      assert forall k | 0 <= k < |steps[1..]| :: steps[1..][k] in steps;
      FailureUndone(t, steps[1..], id);
      if About(steps[0], id) {
        OwnStep(s, steps[0], id);
        assert Others(steps, id) == rest;
      } else {
        OtherStep(s, steps[0], id);
        Unroll(Ended(s, id), steps[0], rest);
      }
    }
  }

  // ---- the store --------------------------------------------------------

  class Store {
    var now: int
    var rows: map<int, Row>
    var sessions: map<int, Session>
    ghost var effects: seq<Effect>

    ghost function View(): State
      reads this
    {
      State(now, rows, sessions, effects)
    }

    constructor (now: int)
      ensures View() == State(now, map[], map[], [])
    {
      this.now, this.rows, this.sessions, this.effects := now, map[], map[], [];
    }

    /** `get_or_start`; a session that is answered at once is over. */
    method GetOrStart(id: int, key: int, body: int, money: bool) returns (reply: Reply)
      requires Enabled(View(), Begin(id, key, body, money))
      modifies this
      ensures View() == Apply(old(View()), Begin(id, key, body, money))
      ensures reply == Lookup(old(View()), key, body)
      ensures now == old(now) && rows == old(rows) && effects == old(effects)
      ensures reply == Proceed <==> key !in rows
      ensures reply == BodyConflict <==> key in rows && rows[key].body != body
      ensures reply == InProgress <==> key in rows && rows[key].body == body && rows[key].response == None
      ensures reply.Cached? ==> key in rows && rows[key].body == body && rows[key].response == Some(reply.response)
      ensures sessions ==
                if reply == Proceed then old(sessions)[id := Session(key, body, money, now, false, None, false)]
                else old(sessions)
    {
      if key !in rows {
        sessions := sessions[id := Session(key, body, money, now, false, None, false)];
        return Proceed;
      }
      var existing := rows[key];
      if existing.body != body {
        return BodyConflict;
      }
      if existing.response.Some? {
        return Cached(existing.response.value);
      }
      return InProgress;
    }

    /** The handler's flush: on a violated unique constraint the session is rolled back. */
    method FlushSession(id: int) returns (ok: bool)
      requires Enabled(View(), Flush(id))
      modifies this
      ensures View() == Apply(old(View()), Flush(id))
      ensures ok <==> old(sessions)[id].key !in rows
      ensures now == old(now) && rows == old(rows) && effects == old(effects)
      ensures sessions == if ok then old(sessions)[id := old(sessions)[id].(flushed := true)] else old(sessions) - {id}
    {
      var x := sessions[id];
      ok := x.key !in rows;
      if ok {
        sessions := sessions[id := x.(flushed := true)];
      } else {
        sessions := sessions - {id};
      }
    }

    /** `complete`: it finds the session's row only once that has been flushed. */
    method CompleteSession(id: int, response: int)
      requires Enabled(View(), Complete(id, response))
      modifies this
      ensures View() == Apply(old(View()), Complete(id, response))
      ensures now == old(now) && rows == old(rows) && effects == old(effects)
      ensures var x := old(sessions)[id];
              sessions == old(sessions)[id := x.(answer := Some(response), recorded := x.flushed)]
    {
      var x := sessions[id].(answer := Some(response));
      if x.flushed {
        x := x.(recorded := true);
      } else {
        x := x.(recorded := false);
      }
      sessions := sessions[id := x];
    }

    /** The commit of `get_session`, which flushes what has not been flushed. */
    method CommitSession(id: int) returns (ok: bool)
      requires Enabled(View(), Commit(id))
      modifies this
      ensures View() == Apply(old(View()), Commit(id))
      ensures ok <==> old(sessions)[id].key !in old(rows)
      ensures now == old(now) && sessions == old(sessions) - {id}
      ensures !ok ==> rows == old(rows) && effects == old(effects)
      ensures ok ==>
                var x := old(sessions)[id];
                && rows == old(rows)[x.key := Row(x.body, x.money, if x.recorded then x.answer else None,
                                                  if x.money then None else Some(x.begun + 86400))]
                && x.answer.Some?
                && effects == old(effects)
                     + [Effect(x.key, x.body, x.money, x.begun, now, x.answer.value, x.recorded)]
    {
      var x := sessions[id];
      sessions := sessions - {id};
      if x.key in rows {
        return false;
      }
      var expires := if x.money then None else Some(x.begun + EXPIRY);
      rows := rows[x.key := Row(x.body, x.money, if x.recorded then x.answer else None, expires)];
      effects := effects + [EffectOf(x, now)];
      return true;
    }

    /** The rollback of `get_session`. */
    method RollbackSession(id: int)
      requires Enabled(View(), Fail(id))
      modifies this
      ensures View() == Apply(old(View()), Fail(id))
      ensures now == old(now) && rows == old(rows) && effects == old(effects) && sessions == old(sessions) - {id}
    {
      sessions := sessions - {id};
    }

    /** `_prune_idempotency_records`: one bulk delete. */
    method PruneRecords()
      modifies this
      ensures View() == Apply(old(View()), Prune)
      ensures now == old(now) && sessions == old(sessions) && effects == old(effects)
      ensures forall k :: k in rows <==>
                && k in old(rows)
                && (old(rows)[k].money || old(rows)[k].expires == None || now < old(rows)[k].expires.value)
      ensures forall k | k in rows :: rows[k] == old(rows)[k]
    {
      rows := map k | k in rows && !Expired(rows[k], now) :: rows[k];
    }
  }
}
