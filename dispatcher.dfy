/** The deep-crawl dispatcher: a circuit breaker per platform, the selection
    of pending crawl tasks, and the bookkeeping after one task has run. The
    clock, the worker's result and the crawl-task collection (keyed by
    `task_id`) are parameters or fields; MySQL mirroring, locks and the
    polling loop are not part of this model. */
module Dispatcher {
  import opened Common
  import opened Json
  import Alert

  /** `ALL_PLATFORMS` */
  const AllPlatforms: seq<string> := ["xhs", "dy", "bili", "wb", "ks", "tieba", "zhihu"]

  /** `CIRCUIT_THRESHOLD` */
  const CircuitThreshold: int := 3
  /** `CIRCUIT_RESET_SEC` */
  const CircuitResetSec: real := 1800.0
  /** `MAX_ATTEMPTS` */
  const MaxAttempts: int := 3
  /** `RETRY_BACKOFF` */
  const RetryBackoff: seq<int> := [120, 240, 480]

  /** The reason `_execute_one` gives when it trips a circuit. */
  const CircuitReason: string := "连续 3 次失败"

  /** Python `int(t)` for a clock value: truncation toward zero. */
  function IntPart(t: real): (r: int)
    ensures t >= 0.0 ==> r as real <= t < r as real + 1.0
  {
    if t >= 0.0 then t.Floor else -((-t).Floor)
  }

  // ---------------------------------------------------------------------------
  // The circuit breaker of one platform
  // ---------------------------------------------------------------------------

  /** A platform's entries in `failure_counts` and `circuit_open_until`. */
  datatype Breaker = Breaker(failures: int, openUntil: real)

  const Closed: Breaker := Breaker(0, 0.0)

  /** `_is_circuit_open`: open while 0 < until and now < until; once a set
      deadline has passed, both entries go back to 0. */
  function Check(b: Breaker, now: real): (r: (bool, Breaker))
    ensures r.0 <==> 0.0 < b.openUntil && now < b.openUntil
    ensures r.0 || b.openUntil <= 0.0 ==> r.1 == b
    ensures !r.0 && b.openUntil > 0.0 ==> r.1 == Closed
  {
    if 0.0 < b.openUntil && now < b.openUntil then (true, b)
    else if 0.0 < b.openUntil then (false, Closed)
    else (false, b)
  }

  /** `_trip_circuit` */
  function Trip(b: Breaker, now: real): Breaker {
    b.(openUntil := now + CircuitResetSec)
  }

  /** A successful task resets the count. */
  function AfterSuccess(b: Breaker): Breaker { b.(failures := 0) }

  /** A failed task counts one more failure and trips the circuit at the
      threshold. */
  function AfterFailure(b: Breaker, now: real): (r: Breaker)
    ensures r.failures == b.failures + 1
    ensures r.failures >= CircuitThreshold ==> r.openUntil == now + CircuitResetSec
    ensures r.failures < CircuitThreshold ==> r.openUntil == b.openUntil
  {
    var counted := b.(failures := b.failures + 1);
    if counted.failures >= CircuitThreshold then Trip(counted, now) else counted
  }

  /** Checking twice at the same moment is checking once. */
  lemma CheckIdempotent(b: Breaker, now: real)
    ensures Check(Check(b, now).1, now) == Check(b, now)
  {
  }

  /** A tripped circuit is open for the reset period and then closes, with
      the failure count cleared. */
  lemma TripWindow(b: Breaker, t: real, now: real)
    requires t >= 0.0
    ensures Check(Trip(b, t), now).0 <==> now < t + CircuitResetSec
    ensures now >= t + CircuitResetSec ==> Check(Trip(b, t), now).1 == Closed
  {
  }

  /** Three failures in a row from a closed circuit open it from the third
      failure for the reset period; a success between them prevents that. */
  lemma {:induction false} ThreeFailuresTrip(t1: real, t2: real, t3: real, now: real)
    requires 0.0 <= t3 <= now < t3 + CircuitResetSec
    ensures Check(AfterFailure(AfterFailure(AfterFailure(Closed, t1), t2), t3), now).0
    ensures !Check(AfterFailure(AfterSuccess(AfterFailure(AfterFailure(Closed, t1), t2)), t3), now).0
  {
    var b2 := AfterFailure(AfterFailure(Closed, t1), t2);
    assert b2 == Breaker(2, 0.0);
    assert AfterFailure(b2, t3) == Breaker(3, t3 + CircuitResetSec);
    assert AfterFailure(AfterSuccess(b2), t3) == Breaker(1, 0.0);
  }

  function CountOf(counts: map<string, int>, p: string): int {
    if p in counts then counts[p] else 0
  }

  function UntilOf(until: map<string, real>, p: string): real {
    if p in until then until[p] else 0.0
  }

  /** The breaker of a platform, read from the two dicts with `.get(p, 0)`. */
  function BreakerOf(counts: map<string, int>, until: map<string, real>, p: string): Breaker {
    Breaker(CountOf(counts, p), UntilOf(until, p))
  }

  // ---------------------------------------------------------------------------
  // Pending tasks
  // ---------------------------------------------------------------------------

  /** A numeric field as MongoDB compares it; a missing field (or one that
      is not a number) is None, which sorts before every number. */
  function NumField(d: Dict, k: string): Option<real> {
    if k in d && d[k].JInt? then Some(d[k].i as real)
    else if k in d && d[k].JFloat? then Some(d[k].f)
    else None
  }

  predicate KeyLe(a: Option<real>, b: Option<real>) {
    a.None? || (b.Some? && a.value <= b.value)
  }

  /** The query of `_fetch_pending_tasks`: status "pending" and no
      `next_retry_at` or one that is due. */
  predicate Due(d: Dict, now: int) {
    "status" in d && d["status"] == JStr("pending") &&
    ("next_retry_at" !in d || (NumField(d, "next_retry_at").Some? && NumField(d, "next_retry_at").value <= now as real))
  }

  /** The sort `priority` descending, then `created_at` ascending. */
  predicate TaskLe(a: Dict, b: Dict) {
    var pa := NumField(a, "priority");
    var pb := NumField(b, "priority");
    if pa != pb then KeyLe(pb, pa) else KeyLe(NumField(a, "created_at"), NumField(b, "created_at"))
  }

  lemma TaskLeTotal(a: Dict, b: Dict)
    ensures TaskLe(a, b) || TaskLe(b, a)
  {
  }

  lemma TaskLeTrans(a: Dict, b: Dict, c: Dict)
    requires TaskLe(a, b) && TaskLe(b, c)
    ensures TaskLe(a, c)
  {
  }

  ghost predicate SortedTasks(s: seq<Dict>) {
    forall i, j :: 0 <= i < j < |s| ==> TaskLe(s[i], s[j])
  }

  function InsertTask(s: seq<Dict>, d: Dict): (r: seq<Dict>)
    ensures multiset(r) == multiset(s) + multiset{d}
    ensures forall x :: x in r <==> x == d || x in s
  {
    if s == [] then [d]
    else if TaskLe(d, s[0]) then [d] + s
    else
      assert s == [s[0]] + s[1..];
      [s[0]] + InsertTask(s[1..], d)
  }

  lemma ConsSorted(x: Dict, t: seq<Dict>)
    requires SortedTasks(t)
    requires forall e :: e in t ==> TaskLe(x, e)
    ensures SortedTasks([x] + t)
  {
    var r := [x] + t;
    forall i, j | 0 <= i < j < |r| ensures TaskLe(r[i], r[j]) {
      if i > 0 {
        assert r[i] == t[i - 1] && r[j] == t[j - 1];
      } else {
        assert r[j] == t[j - 1] && r[j] in t;
      }
    }
  }

  lemma HeadFirst(s: seq<Dict>)
    requires SortedTasks(s) && s != []
    ensures SortedTasks(s[1..])
    ensures forall e :: e in s ==> TaskLe(s[0], e)
  {
    forall e | e in s ensures TaskLe(s[0], e) {
      var k :| 0 <= k < |s| && s[k] == e;
      if k == 0 {
        TaskLeTotal(e, e);
      }
    }
  }

  lemma {:induction false} InsertTaskSorted(s: seq<Dict>, d: Dict)
    requires SortedTasks(s)
    ensures SortedTasks(InsertTask(s, d))
  {
    if s == [] {
    } else if TaskLe(d, s[0]) {
      HeadFirst(s);
      forall e | e in s ensures TaskLe(d, e) {
        TaskLeTrans(d, s[0], e);
      }
      ConsSorted(d, s);
    } else {
      HeadFirst(s);
      InsertTaskSorted(s[1..], d);
      TaskLeTotal(d, s[0]);
      forall e | e in InsertTask(s[1..], d) ensures TaskLe(s[0], e) {
        if e != d {
          assert e in s;
        }
      }
      ConsSorted(s[0], InsertTask(s[1..], d));
    }
  }

  function SortTasks(s: seq<Dict>): seq<Dict> {
    if s == [] then [] else InsertTask(SortTasks(s[..|s| - 1]), s[|s| - 1])
  }

  lemma {:induction false} SortTasksProps(s: seq<Dict>)
    ensures SortedTasks(SortTasks(s)) && multiset(SortTasks(s)) == multiset(s)
  {
    if s != [] {
      SortTasksProps(s[..|s| - 1]);
      InsertTaskSorted(SortTasks(s[..|s| - 1]), s[|s| - 1]);
      assert s == s[..|s| - 1] + [s[|s| - 1]];
    }
  }

  /** `_fetch_pending_tasks` over the collection's documents. */
  function FetchPending(docs: seq<Dict>, now: int): seq<Dict> {
    SortTasks(Filter(docs, d => Due(d, now)))
  }

  /** The fetched tasks are exactly the due documents, in priority order. */
  lemma FetchPendingProps(docs: seq<Dict>, now: int)
    ensures var r := FetchPending(docs, now);
      SortedTasks(r) && multiset(r) == multiset(Filter(docs, d => Due(d, now))) &&
      (forall d :: d in r <==> d in docs && Due(d, now))
  {
    var f := Filter(docs, d => Due(d, now));
    SortTasksProps(f);
    FilterMembers(docs, d => Due(d, now));
    var r := FetchPending(docs, now);
    forall d ensures d in r <==> d in f {
      assert d in r <==> d in multiset(r);
      assert d in f <==> d in multiset(f);
    }
  }

  // ---------------------------------------------------------------------------
  // After a task has run
  // ---------------------------------------------------------------------------

  /** `task.get("attempts", 0) + 1`: None when the addition raises
      TypeError (text, None, a list or a dict); a bool adds as 0 or 1 and a
      float stays a float. */
  function NextAttempts(task: Dict): (r: Option<Json>)
    ensures r.Some? <==> (var a := GetOr(task, "attempts", JInt(0)); a.JInt? || a.JBool? || a.JFloat?)
    ensures r.Some? ==> r.value.JInt? || r.value.JFloat?
  {
    match GetOr(task, "attempts", JInt(0))
    case JInt(i) => Some(JInt(i + 1))
    case JBool(b) => Some(JInt(if b then 2 else 1))
    case JFloat(f) => Some(JFloat(f + 1.0))
    case _ => None
  }

  /** `RETRY_BACKOFF[min(attempts - 1, 2)]` with Python indexing: negative
      indices count from the end, and below -3 it raises IndexError. */
  function Backoff(attempts: int): (r: Option<int>)
    ensures 1 <= attempts ==> r.Some? && r.value == RetryBackoff[if attempts - 1 < 2 then attempts - 1 else 2]
    ensures attempts <= -3 ==> r.None?
  {
    var i := if attempts - 1 < 2 then attempts - 1 else 2;
    if i >= 0 then Some(RetryBackoff[i])
    else if i >= -3 then Some(RetryBackoff[3 + i])
    else None
  }

  /** `update_one({"task_id": id}, {"$set": updates})`: no upsert. */
  function SetTask(tasks: map<Json, Dict>, id: Json, updates: Dict): (r: map<Json, Dict>)
    ensures r.Keys == tasks.Keys
    ensures id in tasks ==> r[id] == tasks[id] + updates
    ensures forall k :: k in tasks && k != id ==> r[k] == tasks[k]
  {
    if id in tasks then tasks[id := tasks[id] + updates] else tasks
  }

  function Running(now: real): Dict {
    map["status" := JStr("running"), "started_at" := JInt(IntPart(now))]
  }

  function Completed(now: real): Dict {
    map["status" := JStr("completed"), "completed_at" := JInt(IntPart(now))]
  }

  /** `result.get("error", "unknown")` */
  function ErrorOf(result: Dict): Json { GetOr(result, "error", JStr("unknown")) }

  /** The update of a failed task from its new attempt count: failed for
      good at `MAX_ATTEMPTS`, else pending again after the back-off. A
      back-off index below -3 raises IndexError, and a float count below the
      limit raises TypeError as a list index. */
  function FailureUpdate(attempts: Json, result: Dict, now: real): (r: Result<Dict, string>)
    ensures r.Ok? ==> "status" in r.value && "attempts" in r.value
    ensures attempts.JInt? && attempts.i >= MaxAttempts ==>
      r.Ok? && r.value["status"] == JStr("failed") && r.value["attempts"] == attempts
    ensures attempts.JInt? && 1 <= attempts.i < MaxAttempts ==>
      r.Ok? && r.value["status"] == JStr("pending") && r.value["attempts"] == attempts &&
      "next_retry_at" in r.value && r.value["next_retry_at"] == JInt(IntPart(now) + RetryBackoff[attempts.i - 1])
    ensures attempts.JInt? && attempts.i <= -3 ==> r == Err("IndexError")
    ensures attempts.JFloat? ==> (r.Ok? <==> attempts.f >= MaxAttempts as real)
    ensures attempts.JFloat? && r.Ok? ==> r.value["status"] == JStr("failed") && r.value["attempts"] == attempts
    ensures !attempts.JInt? && !attempts.JFloat? ==> r == Err("TypeError")
  {
    match attempts
    case JInt(a) =>
      if a >= MaxAttempts then
        Ok(map["status" := JStr("failed"), "attempts" := attempts, "error" := ErrorOf(result),
          "end_time" := JInt(IntPart(now))])
      else (match Backoff(a)
        case None => Err("IndexError")
        case Some(backoff) =>
          Ok(map["status" := JStr("pending"), "attempts" := attempts,
            "next_retry_at" := JInt(IntPart(now) + backoff), "last_error" := ErrorOf(result)]))
    case JFloat(x) =>
      if x >= MaxAttempts as real then
        Ok(map["status" := JStr("failed"), "attempts" := attempts, "error" := ErrorOf(result),
          "end_time" := JInt(IntPart(now))])
      else Err("TypeError")
    case _ => Err("TypeError")
  }

  /** The failure update of a task as stored: None when reading its count
      raises. */
  function FailureOf(task: Dict, result: Dict, now: real): Option<Result<Dict, string>> {
    match NextAttempts(task)
    case None => None
    case Some(a) => Some(FailureUpdate(a, result, now))
  }

  /** A task retried from no attempts is back in the queue after 120 s, then
      after 240 s, and is failed for good at the third failure. */
  lemma RetrySchedule(task: Dict, result: Dict, t1: real, t2: real, t3: real)
    requires "attempts" !in task
    ensures var u1 := FailureOf(task, result, t1);
      u1.Some? && u1.value.Ok? && u1.value.value["attempts"] == JInt(1) &&
      u1.value.value["next_retry_at"] == JInt(IntPart(t1) + 120) &&
      var u2 := FailureOf(task + u1.value.value, result, t2);
      u2.Some? && u2.value.Ok? && u2.value.value["attempts"] == JInt(2) &&
      u2.value.value["next_retry_at"] == JInt(IntPart(t2) + 240) &&
      var u3 := FailureOf(task + u1.value.value + u2.value.value, result, t3);
      u3.Some? && u3.value.Ok? && u3.value.value["status"] == JStr("failed") && u3.value.value["attempts"] == JInt(3)
  {
    var u1 := FailureUpdate(JInt(1), result, t1).value;
    assert NextAttempts(task) == Some(JInt(1));
    assert NextAttempts(task + u1) == Some(JInt(2));
    var u2 := FailureUpdate(JInt(2), result, t2).value;
    assert NextAttempts(task + u1 + u2) == Some(JInt(3));
  }

  /** The dispatcher's state. */
  datatype State = State(counts: map<string, int>, until: map<string, real>, tasks: map<Json, Dict>)

  /** One task, from "running" to its final bookkeeping, given the worker's
      result: the state afterwards, or the exception that stopped it. */
  function Execute(platforms: seq<string>, dryRun: bool, s: State, task: Dict, result: Dict, now: real)
    : (r: (Result<(), string>, State))
    requires "platform" in task && "task_id" in task
  {
    var platform := task["platform"];
    var id := task["task_id"];
    if dryRun then (Ok(()), s)
    else
      var tasks := SetTask(s.tasks, id, Running(now));
      if !(platform.JStr? && platform.s in platforms) then
        (Ok(()), s.(tasks := SetTask(tasks, id, map["status" := JStr("failed"), "error" := JStr("no_worker")])))
      else
        var p := platform.s;
        var status := GetOr(result, "status", JStr("failed"));
        if status == JStr("success") then
          (Ok(()), State(s.counts[p := 0], s.until, SetTask(tasks, id, Completed(now))))
        else if status == JStr("blocked") then
          (Ok(()), s.(tasks := SetTask(tasks, id, map["status" := JStr("pending")])))
        else Fail(s.(tasks := tasks), p, id, task, result, now)
  }

  /** The failure path of `_execute_one` for a served platform `p`: the
      attempts are counted, the platform's failure count grows, and the task
      goes back to pending or fails for good. */
  function Fail(s: State, p: string, id: Json, task: Dict, result: Dict, now: real): (Result<(), string>, State)
  {
    match NextAttempts(task)
    case None => (Err("TypeError"), s)
    case Some(attempts) =>
      var b := AfterFailure(BreakerOf(s.counts, s.until, p), now);
      var counts := s.counts[p := b.failures];
      match FailureUpdate(attempts, result, now)
      case Err(e) => (Err(e), State(counts, s.until, s.tasks))
      case Ok(u) =>
        var until := if b.failures >= CircuitThreshold then s.until[p := b.openUntil] else s.until;
        (Ok(()), State(counts, until, SetTask(s.tasks, id, u)))
  }

  /** Whether the failure path trips the circuit of `p`. */
  predicate FailTrips(counts: map<string, int>, p: string, task: Dict, result: Dict, now: real) {
    match NextAttempts(task)
    case None => false
    case Some(a) => FailureUpdate(a, result, now).Ok? && CountOf(counts, p) + 1 >= CircuitThreshold
  }

  /** A successful task closes the count of its platform and completes the
      task; a blocked one goes back to pending without counting. */
  lemma ExecuteSuccessBlocked(platforms: seq<string>, s: State, task: Dict, result: Dict, now: real)
    requires "platform" in task && "task_id" in task
    requires task["platform"].JStr? && task["platform"].s in platforms
    requires task["task_id"] in s.tasks
    ensures var status := GetOr(result, "status", JStr("failed"));
      var r := Execute(platforms, false, s, task, result, now).1;
      var p := task["platform"].s;
      var id := task["task_id"];
      (status == JStr("success") ==> r.counts[p] == 0 && r.tasks[id]["status"] == JStr("completed")) &&
      (status == JStr("blocked") ==>
        r.counts == s.counts && r.until == s.until && r.tasks[id]["status"] == JStr("pending"))
  {
    var id := task["task_id"];
    var tasks := SetTask(s.tasks, id, Running(now));
    var status := GetOr(result, "status", JStr("failed"));
    if status == JStr("success") {
      UpdatedStatus(tasks, id, Completed(now));
    } else if status == JStr("blocked") {
      UpdatedStatus(tasks, id, map["status" := JStr("pending")]);
    }
  }

  /** The status a task update writes is the task's status afterwards. */
  lemma UpdatedStatus(tasks: map<Json, Dict>, id: Json, updates: Dict)
    requires id in tasks && "status" in updates
    ensures var r := SetTask(tasks, id, updates); id in r && "status" in r[id] && r[id]["status"] == updates["status"]
  {
  }

  /** A failure counts against the platform and trips its circuit at the
      threshold; any status other than success and blocked is a failure. */
  lemma ExecuteFailure(platforms: seq<string>, s: State, task: Dict, result: Dict, now: real)
    requires "platform" in task && "task_id" in task
    requires task["platform"].JStr? && task["platform"].s in platforms
    requires GetOr(result, "status", JStr("failed")) !in {JStr("success"), JStr("blocked")}
    requires GetOr(task, "attempts", JInt(0)).JInt? && GetOr(task, "attempts", JInt(0)).i >= 0 && now >= 0.0
    ensures var (res, r) := Execute(platforms, false, s, task, result, now);
      var p := task["platform"].s;
      res.Ok? &&
      r.counts[p] == CountOf(s.counts, p) + 1 &&
      (r.counts[p] >= CircuitThreshold ==> Check(BreakerOf(r.counts, r.until, p), now).0) &&
      (r.counts[p] < CircuitThreshold ==> UntilOf(r.until, p) == UntilOf(s.until, p))
  {
  }

  /** An `attempts` that cannot be added to raises before the failure is
      counted; a float count below the limit is counted and then raises at
      the back-off index. Either way the task stays "running". */
  lemma ExecuteBadAttempts(platforms: seq<string>, s: State, task: Dict, result: Dict, now: real)
    requires "platform" in task && "task_id" in task
    requires task["platform"].JStr? && task["platform"].s in platforms
    requires GetOr(result, "status", JStr("failed")) !in {JStr("success"), JStr("blocked")}
    ensures var a := GetOr(task, "attempts", JInt(0));
      var (res, r) := Execute(platforms, false, s, task, result, now);
      var p := task["platform"].s;
      var running := SetTask(s.tasks, task["task_id"], Running(now));
      (!a.JInt? && !a.JBool? && !a.JFloat? ==> res == Err("TypeError") && r == s.(tasks := running)) &&
      (a.JFloat? && a.f + 1.0 < MaxAttempts as real ==>
        res == Err("TypeError") && r.counts[p] == CountOf(s.counts, p) + 1 && r.until == s.until && r.tasks == running)
  {
  }

  /** The platform whose circuit `_execute_one` trips, if any: a counted
      failure that reaches the threshold without raising. */
  function Tripped(platforms: seq<string>, dryRun: bool, s: State, task: Dict, result: Dict, now: real): Option<string>
    requires "platform" in task && "task_id" in task
  {
    var platform := task["platform"];
    var status := GetOr(result, "status", JStr("failed"));
    if dryRun || !(platform.JStr? && platform.s in platforms) || status == JStr("success") || status == JStr("blocked")
    then None
    else if FailTrips(s.counts, platform.s, task, result, now) then Some(platform.s) else None
  }

  /** A tripped platform is the one whose circuit the step opens for the
      reset period; without a trip no deadline changes. */
  lemma TrippedOpens(platforms: seq<string>, dryRun: bool, s: State, task: Dict, result: Dict, now: real)
    requires "platform" in task && "task_id" in task
    ensures var (res, r) := Execute(platforms, dryRun, s, task, result, now);
      match Tripped(platforms, dryRun, s, task, result, now)
      case Some(p) => res.Ok? && r.until == s.until[p := now + CircuitResetSec]
      case None => r.until == s.until
  {
  }

  /** A dry run changes nothing. */
  lemma ExecuteDryRun(platforms: seq<string>, s: State, task: Dict, result: Dict, now: real)
    requires "platform" in task && "task_id" in task
    ensures Execute(platforms, true, s, task, result, now) == (Ok(()), s)
  {
  }

  // ---------------------------------------------------------------------------
  // One dispatch round
  // ---------------------------------------------------------------------------

  /** `task["platform"]`, read without raising (tasks carry one). */
  function PlatformField(t: Dict): Json { GetOr(t, "platform", JNull) }

  /** A fetched task that the round starts: its platform is served and its
      circuit is closed at `now`. */
  predicate Starts(platforms: seq<string>, counts: map<string, int>, until: map<string, real>, now: real, t: Dict) {
    var pf := PlatformField(t);
    pf.JStr? && pf.s in platforms && !Check(BreakerOf(counts, until, pf.s), now).0
  }

  function StartsAt(platforms: seq<string>, counts: map<string, int>, until: map<string, real>, now: real): Dict -> bool {
    t => Starts(platforms, counts, until, now, t)
  }

  /** Some task of the round is for served platform p, so its circuit is
      checked. */
  predicate Visited(pending: seq<Dict>, platforms: seq<string>, p: string) {
    p in platforms && exists k :: 0 <= k < |pending| && PlatformField(pending[k]) == JStr(p)
  }

  lemma VisitedSnoc(s: seq<Dict>, t: Dict, platforms: seq<string>)
    ensures forall p :: Visited(s + [t], platforms, p) <==>
      Visited(s, platforms, p) || (p in platforms && PlatformField(t) == JStr(p))
  {
    forall p | Visited(s + [t], platforms, p) && !(p in platforms && PlatformField(t) == JStr(p))
      ensures Visited(s, platforms, p)
    {
      var k :| 0 <= k < |s + [t]| && PlatformField((s + [t])[k]) == JStr(p);
      assert k < |s| && (s + [t])[k] == s[k];
    }
    forall p | Visited(s, platforms, p) ensures Visited(s + [t], platforms, p) {
      var k :| 0 <= k < |s| && PlatformField(s[k]) == JStr(p);
      assert (s + [t])[k] == s[k];
    }
    forall p | p in platforms && PlatformField(t) == JStr(p) ensures Visited(s + [t], platforms, p) {
      assert (s + [t])[|s|] == t;
    }
  }

  /** Starting only the tasks of served platforms whose circuit is closed:
      a task of a platform tripped less than the reset period ago is never
      started. */
  lemma RoundSkipsOpen(pending: seq<Dict>, platforms: seq<string>, counts: map<string, int>, until: map<string, real>,
                       now: real, t: Dict, tripped: real)
    requires t in pending && PlatformField(t).JStr?
    requires UntilOf(until, PlatformField(t).s) == tripped + CircuitResetSec && 0.0 <= tripped <= now < tripped + CircuitResetSec
    ensures t !in Filter(pending, StartsAt(platforms, counts, until, now))
  {
    FilterMembers(pending, StartsAt(platforms, counts, until, now));
  }

  class TaskDispatcher {
    var platforms: seq<string>
    var dryRun: bool
    var failureCounts: map<string, int>
    var circuitOpenUntil: map<string, real>
    /** The `crawl_tasks` collection, by `task_id`. */
    var tasks: map<Json, Dict>

    function Snapshot(): State
      reads this
    {
      State(failureCounts, circuitOpenUntil, tasks)
    }

    /** `__init__`: the given platforms (all of them when none are given),
        each with a closed circuit and no failures. */
    constructor(given: seq<string>, dry: bool, store: map<Json, Dict>)
      ensures platforms == (if given == [] then AllPlatforms else given)
      ensures forall p :: p in failureCounts <==> p in platforms
      ensures forall p :: p in circuitOpenUntil <==> p in platforms
      ensures forall p :: p in platforms ==> BreakerOf(failureCounts, circuitOpenUntil, p) == Closed
      ensures dryRun == dry && tasks == store
    {
      var plats := if given == [] then AllPlatforms else given;
      var counts: map<string, int> := map[];
      var until: map<string, real> := map[];
      for k := 0 to |plats|
        invariant forall p :: p in counts <==> p in plats[..k]
        invariant forall p :: p in until <==> p in plats[..k]
        invariant forall p :: p in counts ==> counts[p] == 0 && until[p] == 0.0
      {
        assert plats[..k + 1] == plats[..k] + [plats[k]];
        counts := counts[plats[k] := 0];
        until := until[plats[k] := 0.0];
      }
      assert plats[..|plats|] == plats;
      platforms := plats;
      dryRun := dry;
      tasks := store;
      failureCounts := counts;
      circuitOpenUntil := until;
    }

    /** `_is_circuit_open` */
    method IsCircuitOpen(p: string, now: real) returns (open: bool)
      modifies this
      ensures var (o, b) := Check(BreakerOf(old(failureCounts), old(circuitOpenUntil), p), now);
        open == o &&
        (if !o && UntilOf(old(circuitOpenUntil), p) > 0.0
         then failureCounts == old(failureCounts)[p := 0] && circuitOpenUntil == old(circuitOpenUntil)[p := 0.0]
         else failureCounts == old(failureCounts) && circuitOpenUntil == old(circuitOpenUntil))
      ensures tasks == old(tasks) && platforms == old(platforms) && dryRun == old(dryRun)
    {
      var until := UntilOf(circuitOpenUntil, p);
      if until > 0.0 && now < until {
        return true;
      }
      if until > 0.0 {
        circuitOpenUntil := circuitOpenUntil[p := 0.0];
        failureCounts := failureCounts[p := 0];
      }
      open := false;
    }

    /** `_trip_circuit`: the deadline is now plus the reset period, and
        `alert_circuit_open` goes out through `alerter` (`reply` is the push
        service's answer). */
    method TripCircuit(p: string, now: real, alerter: Alert.Alerter, reply: Option<Dict>)
      modifies this, alerter
      ensures circuitOpenUntil == old(circuitOpenUntil)[p := now + CircuitResetSec]
      ensures failureCounts == old(failureCounts) && tasks == old(tasks)
      ensures platforms == old(platforms) && dryRun == old(dryRun)
      ensures alerter.last == Alert.AfterAlert(alerter.key, old(alerter.last), p, now)
    {
      circuitOpenUntil := circuitOpenUntil[p := now + CircuitResetSec];
      var sent := alerter.AlertCircuitOpen(p, CircuitReason, now, reply);
    }

    /** `_execute_one` after the worker has returned `result`; a circuit it
        trips sends its alert through `alerter`, whose push service answers
        `reply`. */
    method ExecuteOne(task: Dict, result: Dict, now: real, alerter: Alert.Alerter, reply: Option<Dict>)
      returns (r: Result<(), string>)
      requires "platform" in task && "task_id" in task
      modifies this, alerter
      ensures (r, Snapshot()) == Execute(old(platforms), old(dryRun), old(Snapshot()), task, result, now)
      ensures platforms == old(platforms) && dryRun == old(dryRun)
      ensures alerter.last == match Tripped(old(platforms), old(dryRun), old(Snapshot()), task, result, now)
        case Some(p) => Alert.AfterAlert(alerter.key, old(alerter.last), p, now)
        case None => old(alerter.last)
    {
      var platform := task["platform"];
      var id := task["task_id"];
      if dryRun {
        return Ok(());
      }
      tasks := SetTask(tasks, id, Running(now));
      if !(platform.JStr? && platform.s in platforms) {
        tasks := SetTask(tasks, id, map["status" := JStr("failed"), "error" := JStr("no_worker")]);
        return Ok(());
      }
      var p := platform.s;
      var status := GetOr(result, "status", JStr("failed"));
      if status == JStr("success") {
        tasks := SetTask(tasks, id, Completed(now));
        failureCounts := failureCounts[p := 0];
        return Ok(());
      }
      if status == JStr("blocked") {
        tasks := SetTask(tasks, id, map["status" := JStr("pending")]);
        return Ok(());
      }
      r := RecordFailure(p, id, task, result, now, alerter, reply);
    }

    /** The failure path of `_execute_one` for the served platform `p`. */
    method RecordFailure(p: string, id: Json, task: Dict, result: Dict, now: real, alerter: Alert.Alerter,
                         reply: Option<Dict>) returns (r: Result<(), string>)
      modifies this, alerter
      ensures (r, Snapshot()) == Fail(old(Snapshot()), p, id, task, result, now)
      ensures platforms == old(platforms) && dryRun == old(dryRun)
      ensures alerter.last == if FailTrips(old(failureCounts), p, task, result, now)
        then Alert.AfterAlert(alerter.key, old(alerter.last), p, now) else old(alerter.last)
    {
      var trips;
      r, trips := CountFailure(p, id, task, result, now);
      if trips {
        TripCircuit(p, now, alerter, reply);
      }
    }

    /** The failure path up to the circuit: the attempts are counted, the
        platform's failure count grows and the task is updated; `trips`
        says the count has reached the threshold. */
    method CountFailure(p: string, id: Json, task: Dict, result: Dict, now: real) returns (r: Result<(), string>, trips: bool)
      modifies this
      ensures trips == FailTrips(old(failureCounts), p, task, result, now)
      ensures (r, State(failureCounts, if trips then circuitOpenUntil[p := now + CircuitResetSec] else circuitOpenUntil, tasks))
        == Fail(old(Snapshot()), p, id, task, result, now)
      ensures circuitOpenUntil == old(circuitOpenUntil)
      ensures platforms == old(platforms) && dryRun == old(dryRun)
    {
      trips := false;
      var attempts := NextAttempts(task);
      if attempts.None? {
        return Err("TypeError"), false;
      }
      var b := AfterFailure(BreakerOf(failureCounts, circuitOpenUntil, p), now);
      failureCounts := failureCounts[p := b.failures];
      var update := FailureUpdate(attempts.value, result, now);
      if update.Err? {
        return Err(update.error), false;
      }
      tasks := SetTask(tasks, id, update.value);
      trips := b.failures >= CircuitThreshold;
      r := Ok(());
    }

    /** The selection of `_dispatch_round`: the fetched tasks whose platform
        is served and whose circuit is closed, in order. Every served
        platform that has a task gets its circuit checked, which resets a
        circuit whose deadline has passed. The started coroutines only run
        at the `gather`, so no platform lock is held during the loop and the
        lock test never skips a task. */
    method SelectRound(pending: seq<Dict>, now: real) returns (chosen: seq<Dict>)
      requires forall t :: t in pending ==> "platform" in t
      modifies this
      ensures chosen == Filter(pending, StartsAt(old(platforms), old(failureCounts), old(circuitOpenUntil), now))
      ensures forall p :: (BreakerOf(failureCounts, circuitOpenUntil, p) ==
        if Visited(pending, old(platforms), p) then Check(BreakerOf(old(failureCounts), old(circuitOpenUntil), p), now).1
        else BreakerOf(old(failureCounts), old(circuitOpenUntil), p))
      ensures tasks == old(tasks) && platforms == old(platforms) && dryRun == old(dryRun)
    {
      ghost var counts0, until0 := failureCounts, circuitOpenUntil;
      var starts := StartsAt(platforms, counts0, until0, now);
      chosen := [];
      for i := 0 to |pending|
        invariant chosen == Filter(pending[..i], starts)
        invariant forall p :: (BreakerOf(failureCounts, circuitOpenUntil, p) ==
          if Visited(pending[..i], platforms, p) then Check(BreakerOf(counts0, until0, p), now).1
          else BreakerOf(counts0, until0, p))
        invariant tasks == old(tasks) && platforms == old(platforms) && dryRun == old(dryRun)
      {
        var t := pending[i];
        TakeSnoc(pending, i);
        FilterSnoc(pending[..i], t, starts);
        VisitedSnoc(pending[..i], t, platforms);
        var pf := PlatformField(t);
        if !(pf.JStr? && pf.s in platforms) {
          continue;
        }
        var p := pf.s;
        CheckIdempotent(BreakerOf(counts0, until0, p), now);
        var open := IsCircuitOpen(p, now);
        if open {
          continue;
        }
        chosen := chosen + [t];
      }
      assert pending[..|pending|] == pending;
    }
  }
}
