/** The deep-crawl task queue: a Redis sorted set (member = prefixed task id,
    score = priority) beside a Redis hash (prefixed task id -> task). The
    sorted set is modelled as Redis keeps it, a sequence of entries ordered
    by score and then by member; the hash as a map. The clock is a
    parameter of the pushing methods. */
module TaskQueues {
  import opened Common
  import opened Json

  datatype Entry = Entry(member: string, score: real)

  /** Redis order of a sorted set: by score, ties by member. */
  predicate Before(a: Entry, b: Entry) {
    a.score < b.score || (a.score == b.score && a.member != b.member && StrLe(a.member, b.member))
  }

  lemma BeforeTrans(a: Entry, b: Entry, c: Entry)
    requires Before(a, b) && Before(b, c)
    ensures Before(a, c)
  {
    if a.score == b.score == c.score {
      StrLeTrans(a.member, b.member, c.member);
      if a.member == c.member {
        StrLeAntisym(a.member, b.member);
      }
    }
  }

  lemma BeforeTotal(a: Entry, b: Entry)
    requires a.member != b.member
    ensures Before(a, b) || Before(b, a)
  {
    StrLeTotal(a.member, b.member);
  }

  function Members(zs: seq<Entry>): (r: seq<string>)
    ensures |r| == |zs|
    ensures forall i :: 0 <= i < |zs| ==> r[i] == zs[i].member
  {
    if zs == [] then [] else [zs[0].member] + Members(zs[1..])
  }

  /** A well-formed sorted set: strictly ordered, one entry per member. */
  predicate ValidZ(zs: seq<Entry>) {
    (forall i, j :: 0 <= i < j < |zs| ==> Before(zs[i], zs[j])) &&
    (forall i, j :: 0 <= i < j < |zs| ==> zs[i].member != zs[j].member)
  }

  lemma ConsValid(x: Entry, t: seq<Entry>)
    requires ValidZ(t)
    requires forall e :: e in t ==> Before(x, e) && e.member != x.member
    ensures ValidZ([x] + t)
  {
    var s := [x] + t;
    forall i, j | 0 <= i < j < |s| ensures Before(s[i], s[j]) && s[i].member != s[j].member {
      if i > 0 {
        assert s[i] == t[i - 1] && s[j] == t[j - 1];
      } else {
        assert s[j] == t[j - 1] && s[j] in t;
      }
    }
  }

  lemma TailValid(zs: seq<Entry>)
    requires ValidZ(zs) && zs != []
    ensures ValidZ(zs[1..])
    ensures forall e :: e in zs[1..] ==> Before(zs[0], e) && e.member != zs[0].member
  {
    forall e | e in zs[1..] ensures Before(zs[0], e) && e.member != zs[0].member {
      var k :| 0 <= k < |zs[1..]| && zs[1..][k] == e;
      assert zs[k + 1] == e;
    }
  }

  /** ZREM of one member. */
  function Remove(zs: seq<Entry>, m: string): (r: seq<Entry>)
    ensures forall e :: e in r <==> e in zs && e.member != m
    ensures |r| <= |zs|
  {
    if zs == [] then [] else (if zs[0].member == m then [] else [zs[0]]) + Remove(zs[1..], m)
  }

  /** Removing a member keeps the set well formed, and shortens it by one
      exactly when the member was present. */
  lemma {:induction false} RemoveProps(zs: seq<Entry>, m: string)
    requires ValidZ(zs)
    ensures ValidZ(Remove(zs, m))
    ensures |Remove(zs, m)| == if m in Members(zs) then |zs| - 1 else |zs|
    ensures forall k :: k in Members(Remove(zs, m)) <==> k in Members(zs) && k != m
  {
    RemoveMembers(zs, m);
    RemoveValid(zs, m);
  }

  lemma RemoveMembers(zs: seq<Entry>, m: string)
    ensures forall k :: k in Members(Remove(zs, m)) <==> k in Members(zs) && k != m
  {
    forall k ensures k in Members(Remove(zs, m)) <==> k in Members(zs) && k != m {
      RemoveMember(zs, m, k);
    }
  }

  lemma RemoveMember(zs: seq<Entry>, m: string, k: string)
    ensures k in Members(Remove(zs, m)) <==> k in Members(zs) && k != m
  {
    var r := Remove(zs, m);
    if k in Members(r) {
      var e := MemberEntry(r, k);
      assert e in zs;
      EntryMember(zs, e);
    }
    if k in Members(zs) && k != m {
      var e := MemberEntry(zs, k);
      assert e in r;
      EntryMember(r, e);
    }
  }

  /** The entry behind a member. */
  lemma MemberEntry(zs: seq<Entry>, k: string) returns (e: Entry)
    requires k in Members(zs)
    ensures e in zs && e.member == k
  {
    var i :| 0 <= i < |zs| && Members(zs)[i] == k;
    e := zs[i];
  }

  /** The member of an entry. */
  lemma EntryMember(zs: seq<Entry>, e: Entry)
    requires e in zs
    ensures e.member in Members(zs)
  {
    var i :| 0 <= i < |zs| && zs[i] == e;
    assert Members(zs)[i] == e.member;
  }

  lemma {:induction false} RemoveValid(zs: seq<Entry>, m: string)
    requires ValidZ(zs)
    ensures ValidZ(Remove(zs, m))
    ensures |Remove(zs, m)| == if m in Members(zs) then |zs| - 1 else |zs|
  {
    if zs != [] {
      var r := Remove(zs, m);
      TailValid(zs);
      RemoveValid(zs[1..], m);
      assert Members(zs) == [zs[0].member] + Members(zs[1..]);
      if zs[0].member == m {
        assert r == Remove(zs[1..], m);
        assert m !in Members(zs[1..]);
      } else {
        assert r == [zs[0]] + Remove(zs[1..], m);
        ConsValid(zs[0], Remove(zs[1..], m));
      }
    }
  }

  /** Insertion at the entry's place in the order. */
  function Insert(zs: seq<Entry>, e: Entry): (r: seq<Entry>)
    ensures forall x :: x in r <==> x == e || x in zs
    ensures |r| == |zs| + 1
  {
    if zs == [] then [e]
    else if Before(e, zs[0]) then [e] + zs
    else [zs[0]] + Insert(zs[1..], e)
  }

  lemma {:induction false} InsertValid(zs: seq<Entry>, e: Entry)
    requires ValidZ(zs) && e.member !in Members(zs)
    ensures ValidZ(Insert(zs, e))
  {
    if zs != [] {
      TailValid(zs);
      assert Members(zs) == [zs[0].member] + Members(zs[1..]);
      if Before(e, zs[0]) {
        forall x | x in zs ensures Before(e, x) && x.member != e.member {
          if x != zs[0] {
            BeforeTrans(e, zs[0], x);
          }
          var j :| 0 <= j < |zs| && zs[j] == x;
          assert Members(zs)[j] == x.member;
        }
        ConsValid(e, zs);
      } else {
        BeforeTotal(e, zs[0]);
        InsertValid(zs[1..], e);
        ConsValid(zs[0], Insert(zs[1..], e));
      }
    }
  }

  /** ZADD: the member's entry, at its new score, replaces any old one. */
  /** HDEL then HSET of the same field is HSET alone. */
  lemma RemovePut<V>(m: map<string, V>, k: string, v: V)
    ensures (m - {k})[k := v] == m[k := v]
  {
  }

  function ZAdd(zs: seq<Entry>, m: string, s: real): seq<Entry> {
    Insert(Remove(zs, m), Entry(m, s))
  }

  /** After ZADD the set is well formed, holds the member once at the given
      score, keeps every other entry, and grows only for a new member. */
  lemma ZAddProps(zs: seq<Entry>, m: string, s: real)
    requires ValidZ(zs)
    ensures ValidZ(ZAdd(zs, m, s))
    ensures forall e :: e in ZAdd(zs, m, s) <==> e == Entry(m, s) || (e in zs && e.member != m)
    ensures |ZAdd(zs, m, s)| == if m in Members(zs) then |zs| else |zs| + 1
  {
    RemoveProps(zs, m);
    InsertValid(Remove(zs, m), Entry(m, s));
  }

  /** The entry of a member, if any. */
  function ScoreOf(zs: seq<Entry>, m: string): (r: Option<real>)
    ensures r.Some? <==> m in Members(zs)
    ensures r.Some? ==> Entry(m, r.value) in zs
  {
    if zs == [] then None
    else if zs[0].member == m then Some(zs[0].score)
    else ScoreOf(zs[1..], m)
  }

  /** In a well-formed set a member has one score. */
  lemma {:induction false} ScoreOfUnique(zs: seq<Entry>, e: Entry)
    requires ValidZ(zs) && e in zs
    ensures ScoreOf(zs, e.member) == Some(e.score)
  {
    if zs[0] != e {
      TailValid(zs);
      assert e in zs[1..];
      ScoreOfUnique(zs[1..], e);
    }
  }

  // ---------------------------------------------------------------------------
  // Priority tiers
  // ---------------------------------------------------------------------------

  /** `1e10`, the gap between tiers. */
  const TierGap: real := 10000000000.0

  /** `TIER_USER * 1e10 + ts` */
  function UserScore(now: real): real { 0.0 * TierGap + now }

  /** `TIER_CANDIDATE * 1e10 + ts` */
  function CandidateScore(now: real): real { 1.0 * TierGap + now }

  /** With clock values in [0, 1e10), every user entry comes before every
      candidate entry, whatever the push times. */
  lemma UserBeforeCandidate(zs: seq<Entry>, i: nat, j: nat, t1: real, t2: real)
    requires ValidZ(zs) && i < |zs| && j < |zs|
    requires 0.0 <= t1 < TierGap && 0.0 <= t2 < TierGap
    requires zs[i].score == UserScore(t1) && zs[j].score == CandidateScore(t2)
    ensures i < j
  {
  }

  /** Within a tier, an earlier push comes first. */
  lemma FifoWithinTier(zs: seq<Entry>, i: nat, j: nat, t1: real, t2: real, tier: real)
    requires ValidZ(zs) && i < |zs| && j < |zs|
    requires t1 < t2
    requires zs[i].score == tier * TierGap + t1 && zs[j].score == tier * TierGap + t2
    ensures i < j
  {
  }

  // ---------------------------------------------------------------------------
  // Task annotations
  // ---------------------------------------------------------------------------

  /** `prefixed_id.split(":")[0]` */
  function SourceOf(pid: string): string { Split(pid, ':')[0] }

  /** The three internal fields `pop_task` and `peek_tasks` add. */
  function Annotate(task: Dict, pid: string, score: real): Dict {
    task["_source" := JStr(SourceOf(pid))]["_redis_score" := JFloat(score)]["_prefixed_id" := JStr(pid)]
  }

  function UserId(taskId: string): string { "user:" + taskId }

  function CandidateId(status: string, taskId: string): string { "candidate:" + status + ":" + taskId }

  /** The source tag of a pushed task is its tier's name. */
  lemma SourceOfPushed(taskId: string, status: string)
    ensures SourceOf(UserId(taskId)) == "user"
    ensures SourceOf(CandidateId(status, taskId)) == "candidate"
  {
    SplitAt("user", taskId, ':');
    assert UserId(taskId) == "user" + [':'] + taskId;
    SplitAt("candidate", status + ":" + taskId, ':');
    assert CandidateId(status, taskId) == "candidate" + [':'] + (status + ":" + taskId);
  }

  /** An annotated task keeps the task's own fields and carries its id,
      score and source; dropping the "_" fields gives back a task that had
      none. */
  lemma AnnotateProps(task: Dict, pid: string, score: real)
    ensures var a := Annotate(task, pid, score);
      a["_prefixed_id"] == JStr(pid) && a["_redis_score"] == JFloat(score) &&
      a["_source"] == JStr(SourceOf(pid)) &&
      (forall k :: k in task && !StartsWith(k, "_") ==> k in a && a[k] == task[k])
    ensures (forall k :: k in task ==> !StartsWith(k, "_")) ==>
      DropKeysWithPrefix(Annotate(task, pid, score), "_") == task
  {
    var a := Annotate(task, pid, score);
    if forall k :: k in task ==> !StartsWith(k, "_") {
      var d := DropKeysWithPrefix(a, "_");
      assert forall k :: k in d <==> k in task;
    }
  }

  /** `task.get("task_id")`, when truthy. */
  function TaskId(task: Dict): (r: Option<string>)
    ensures r.Some? <==> Truthy(GetNull(task, "task_id"))
  {
    var v := GetNull(task, "task_id");
    if Truthy(v) then Some(ToStr(v)) else None
  }

  // ---------------------------------------------------------------------------
  // Peek
  // ---------------------------------------------------------------------------

  /** How many entries `ZRANGE key 0 (limit - 1)` returns from a set of n:
      Redis reads a negative stop index from the end. */
  function RangeCount(n: nat, limit: int): (r: nat)
    ensures r <= n
  {
    var stop := limit - 1;
    if stop >= 0 then (if stop + 1 < n then stop + 1 else n)
    else if n + stop + 1 > 0 then n + stop + 1 else 0
  }

  /** The annotated tasks of the given entries that still have data. */
  function Peeked(zs: seq<Entry>, data: map<string, Dict>): (r: seq<Dict>)
    ensures |r| <= |zs|
  {
    if zs == [] then []
    else
      var init := Peeked(zs[..|zs| - 1], data);
      var e := zs[|zs| - 1];
      if e.member in data then init + [Annotate(data[e.member], e.member, e.score)] else init
  }

  /** `peek_tasks(limit)` as written returns at most `limit` tasks only for a
      positive limit: a limit of 0 turns the range into `0 .. -1`, the whole
      set. */
  lemma PeekZeroReturnsAll(zs: seq<Entry>, data: map<string, Dict>)
    ensures Peeked(zs[..RangeCount(|zs|, 0)], data) == Peeked(zs, data)
  {
    assert zs[..|zs|] == zs;
  }

  lemma PeekPositive(n: nat, limit: int)
    requires limit >= 1
    ensures RangeCount(n, limit) <= limit
  {
  }

  /** The evidently intended peek: the first `limit` entries, none for a
      limit below one. */
  function PeekIntended(zs: seq<Entry>, data: map<string, Dict>, limit: int): (r: seq<Dict>)
    ensures |r| <= if limit > 0 then limit else 0
  {
    Peeked(Take(zs, if limit > 0 then limit else 0), data)
  }

  /** The intended peek and the one as written agree on every positive limit. */
  lemma PeekAgreesWhenPositive(zs: seq<Entry>, data: map<string, Dict>, limit: int)
    requires limit >= 1
    ensures PeekIntended(zs, data, limit) == Peeked(zs[..RangeCount(|zs|, limit)], data)
  {
  }

  // ---------------------------------------------------------------------------
  // remove_task
  // ---------------------------------------------------------------------------

  /** The prefixed ids `remove_task` tries. */
  function Patterns(taskId: string, prefix: string): (r: seq<string>)
    ensures |r| == if prefix == "candidate" then 4 else 1
    ensures r[0] == prefix + ":" + taskId
    ensures prefix == "candidate" ==>
      CandidateId("exploded", taskId) in r && CandidateId("confirmed", taskId) in r && CandidateId("rising", taskId) in r
  {
    [prefix + ":" + taskId] +
    (if prefix == "candidate"
     then [CandidateId("exploded", taskId), CandidateId("confirmed", taskId), CandidateId("rising", taskId)]
     else [])
  }

  /** ZREM of several members, one after the other. */
  function RemoveEach(zs: seq<Entry>, ps: seq<string>): seq<Entry> {
    if ps == [] then zs else Remove(RemoveEach(zs, ps[..|ps| - 1]), ps[|ps| - 1])
  }

  lemma {:induction false} RemoveEachProps(zs: seq<Entry>, ps: seq<string>)
    requires ValidZ(zs)
    ensures ValidZ(RemoveEach(zs, ps))
    ensures forall e :: e in RemoveEach(zs, ps) <==> e in zs && e.member !in ps
  {
    if ps != [] {
      var init := ps[..|ps| - 1];
      var last := ps[|ps| - 1];
      RemoveEachProps(zs, init);
      RemoveProps(RemoveEach(zs, init), last);
      forall e ensures e in RemoveEach(zs, ps) <==> e in zs && e.member !in ps {
        assert e.member in ps <==> e.member in init || e.member == last;
      }
    }
  }

  /** Which members are left after removing several. */
  lemma RemoveEachMembers(zs: seq<Entry>, ps: seq<string>, k: string)
    requires ValidZ(zs)
    ensures k in Members(RemoveEach(zs, ps)) <==> k in Members(zs) && k !in ps
  {
    var r := RemoveEach(zs, ps);
    RemoveEachProps(zs, ps);
    if k in Members(r) {
      var i :| 0 <= i < |r| && Members(r)[i] == k;
      assert r[i] in r;
      var j :| 0 <= j < |zs| && zs[j] == r[i];
      assert Members(zs)[j] == k;
    }
    if k in Members(zs) && k !in ps {
      var j :| 0 <= j < |zs| && Members(zs)[j] == k;
      assert zs[j] in r;
      var i :| 0 <= i < |r| && r[i] == zs[j];
      assert Members(r)[i] == k;
    }
  }

  /** The patterns that name a member of the set. */
  function RemovedIds(ps: seq<string>, present: seq<string>): set<string> {
    if ps == [] then {}
    else RemovedIds(ps[..|ps| - 1], present) + (if ps[|ps| - 1] in present then {ps[|ps| - 1]} else {})
  }

  lemma {:induction false} RemovedIdsProps(ps: seq<string>, present: seq<string>)
    ensures forall p :: p in RemovedIds(ps, present) <==> p in ps && p in present
  {
    if ps != [] {
      RemovedIdsProps(ps[..|ps| - 1], present);
      assert ps == ps[..|ps| - 1] + [ps[|ps| - 1]];
    }
  }

  /** One pattern more: what the hash and the flag become. */
  lemma RemovedStep(d0: map<string, Dict>, gone: set<string>, x: string, hit: bool, present: seq<string>)
    requires hit == (x in present && x !in gone)
    ensures var gone' := gone + (if x in present then {x} else {});
      (if hit then (d0 - gone) - {x} else d0 - gone) == d0 - gone' &&
      (gone' != {}) == (gone != {} || hit)
  {
  }

  // ---------------------------------------------------------------------------
  // The queue
  // ---------------------------------------------------------------------------

  class TaskQueue {
    /** The sorted set `mindspider:task_queue`. */
    var queue: seq<Entry>
    /** The hash `mindspider:task_data`. */
    var data: map<string, Dict>

    ghost predicate Valid()
      reads this
    {
      ValidZ(queue)
    }

    /** A queue over the store's current contents. */
    constructor(entries: seq<Entry>, stored: map<string, Dict>)
      requires ValidZ(entries)
      ensures Valid() && queue == entries && data == stored
    {
      queue := entries;
      data := stored;
    }

    /** The pipeline shared by both push methods: ZREM, HDEL, ZADD, HSET. */
    method Store(pid: string, score: real, task: Dict)
      requires Valid()
      modifies this
      ensures Valid()
      ensures queue == ZAdd(old(queue), pid, score) && data == old(data)[pid := task]
    {
      queue := Remove(queue, pid);
      data := data - {pid};
      RemoveProps(old(queue), pid);
      InsertValid(queue, Entry(pid, score));
      queue := Insert(queue, Entry(pid, score));
      RemovePut(old(data), pid, task);
      data := data[pid := task];
    }

    /** `push_user_task`: a task without a truthy `task_id` is refused
        (ValueError) and nothing changes. */
    method PushUserTask(task: Dict, now: real) returns (r: Result<string, string>)
      requires Valid()
      modifies this
      ensures Valid()
      ensures TaskId(task).None? ==> r.Err? && queue == old(queue) && data == old(data)
      ensures TaskId(task).Some? ==>
        r == Ok(TaskId(task).value) &&
        queue == ZAdd(old(queue), UserId(r.value), UserScore(now)) &&
        data == old(data)[UserId(r.value) := task]
    {
      var id := TaskId(task);
      if id.None? {
        return Err("task_id must not be empty");
      }
      Store(UserId(id.value), UserScore(now), task);
      r := Ok(id.value);
    }

    /** `push_candidate_task` */
    method PushCandidateTask(candidateId: string, status: string, task: Dict, now: real)
      returns (r: Result<string, string>)
      requires Valid()
      modifies this
      ensures Valid()
      ensures TaskId(task).None? ==> r.Err? && queue == old(queue) && data == old(data)
      ensures TaskId(task).Some? ==>
        r == Ok(TaskId(task).value) &&
        queue == ZAdd(old(queue), CandidateId(status, r.value), CandidateScore(now)) &&
        data == old(data)[CandidateId(status, r.value) := task]
    {
      var id := TaskId(task);
      if id.None? {
        return Err("task_id must not be empty");
      }
      Store(CandidateId(status, id.value), CandidateScore(now), task);
      r := Ok(id.value);
    }

    /** `pop_task`: ZPOPMIN, then HGET and HDEL of that member. */
    method PopTask() returns (r: Option<Dict>)
      requires Valid()
      modifies this
      ensures Valid()
      ensures old(queue) == [] ==> r.None? && queue == old(queue) && data == old(data)
      ensures old(queue) != [] ==>
        var e := old(queue)[0];
        queue == old(queue)[1..] && data == old(data) - {e.member} &&
        r == (if e.member in old(data) then Some(Annotate(old(data)[e.member], e.member, e.score)) else None)
    {
      if queue == [] {
        return None;
      }
      var e := queue[0];
      TailValid(queue);
      queue := queue[1..];
      var stored := if e.member in data then Some(data[e.member]) else None;
      data := data - {e.member};
      if stored.None? {
        return None;
      }
      r := Some(Annotate(stored.value, e.member, e.score));
    }

    /** `push_back`: without a truthy `_prefixed_id` nothing changes;
        otherwise the task, without its "_" fields, is stored at the score. */
    method PushBack(task: Dict, score: real)
      requires Valid()
      modifies this
      ensures Valid()
      ensures !Truthy(GetNull(task, "_prefixed_id")) ==> queue == old(queue) && data == old(data)
      ensures Truthy(GetNull(task, "_prefixed_id")) ==>
        var pid := ToStr(task["_prefixed_id"]);
        queue == ZAdd(old(queue), pid, score) && data == old(data)[pid := DropKeysWithPrefix(task, "_")]
    {
      var p := GetNull(task, "_prefixed_id");
      if !Truthy(p) {
        return;
      }
      var pid := ToStr(p);
      ZAddProps(queue, pid, score);
      queue := ZAdd(queue, pid, score);
      data := data[pid := DropKeysWithPrefix(task, "_")];
    }

    /** `peek_tasks`: reads the first entries of the range and annotates
        those that still have data; nothing changes. */
    method PeekTasks(limit: int) returns (r: seq<Dict>)
      ensures r == Peeked(queue[..RangeCount(|queue|, limit)], data)
    {
      var range := queue[..RangeCount(|queue|, limit)];
      r := [];
      for k := 0 to |range|
        invariant r == Peeked(range[..k], data)
      {
        assert range[..k + 1][..k] == range[..k];
        var e := range[k];
        if e.member in data {
          r := r + [Annotate(data[e.member], e.member, e.score)];
        }
      }
      assert range[..|range|] == range;
    }

    /** `get_queue_size`: ZCARD. */
    method QueueSize() returns (n: nat)
      ensures n == |queue|
    {
      n := |queue|;
    }

    /** `remove_task`: every pattern present in the set is removed from both
        structures; the result says whether any was. */
    method RemoveTask(taskId: string, prefix: string) returns (removed: bool)
      requires Valid()
      modifies this
      ensures Valid()
      ensures var gone := RemovedIds(Patterns(taskId, prefix), Members(old(queue)));
        removed == (gone != {}) &&
        queue == RemoveEach(old(queue), Patterns(taskId, prefix)) &&
        data == old(data) - gone
    {
      var ps := Patterns(taskId, prefix);
      removed := false;
      for k := 0 to |ps|
        invariant ValidZ(queue)
        invariant queue == RemoveEach(old(queue), ps[..k])
        invariant data == old(data) - RemovedIds(ps[..k], Members(old(queue)))
        invariant removed == (RemovedIds(ps[..k], Members(old(queue))) != {})
      {
        removed := RemovePattern(ps, k, old(queue), old(data), removed);
      }
      assert ps[..|ps|] == ps;
    }

    /** The body of the `remove_task` loop: the k-th pattern. */
    method RemovePattern(ps: seq<string>, k: nat, ghost q0: seq<Entry>, ghost d0: map<string, Dict>, removed: bool)
      returns (removed': bool)
      requires k < |ps| && Valid() && ValidZ(q0)
      requires queue == RemoveEach(q0, ps[..k]) && data == d0 - RemovedIds(ps[..k], Members(q0))
      requires removed == (RemovedIds(ps[..k], Members(q0)) != {})
      modifies this
      ensures Valid()
      ensures queue == RemoveEach(q0, ps[..k + 1]) && data == d0 - RemovedIds(ps[..k + 1], Members(q0))
      ensures removed' == (RemovedIds(ps[..k + 1], Members(q0)) != {})
    {
      ghost var present := Members(q0);
      ghost var gone := RemovedIds(ps[..k], present);
      RemoveEachMembers(q0, ps[..k], ps[k]);
      assert ps[..k + 1][..k] == ps[..k];
      RemovedIdsProps(ps[..k], present);
      var hit := RemoveOne(ps[k]);
      RemovedStep(d0, gone, ps[k], hit, present);
      removed' := removed || hit;
    }

    /** One ZREM, and the HDEL when the ZREM removed something. */
    method RemoveOne(pid: string) returns (hit: bool)
      requires Valid()
      modifies this
      ensures Valid()
      ensures hit == (pid in Members(old(queue)))
      ensures queue == Remove(old(queue), pid)
      ensures data == if hit then old(data) - {pid} else old(data)
    {
      hit := pid in Members(queue);
      RemoveProps(queue, pid);
      if hit {
        queue := Remove(queue, pid);
        data := data - {pid};
      } else {
        RemoveSame(queue, pid);
      }
    }

    /** `clear_queue`: the prior size; the hash is deleted only when the set
        was not empty. */
    method ClearQueue() returns (size: nat)
      requires Valid()
      modifies this
      ensures Valid()
      ensures size == |old(queue)| && queue == []
      ensures data == if size > 0 then map[] else old(data)
    {
      size := |queue|;
      if size > 0 {
        queue := [];
        data := map[];
      }
    }
  }

  /** Adding the head entry back to the rest of a set gives the set. */
  lemma ReinsertHead(zs: seq<Entry>)
    requires ValidZ(zs) && zs != []
    ensures ZAdd(zs[1..], zs[0].member, zs[0].score) == zs
  {
    TailValid(zs);
    assert zs[0].member !in Members(zs[1..]);
    RemoveSame(zs[1..], zs[0].member);
    assert zs == [zs[0]] + zs[1..];
  }

  /** Pushing a popped task back with the score it was popped at restores
      the queue and the hash, as the "keep the original score" contract of
      `push_back` promises for tasks without internal fields. */
  lemma PopPushBackRoundTrip(zs: seq<Entry>, data: map<string, Dict>)
    requires ValidZ(zs) && zs != [] && zs[0].member in data
    requires forall k :: k in data[zs[0].member] ==> !StartsWith(k, "_")
    ensures var e := zs[0];
      var popped := Annotate(data[e.member], e.member, e.score);
      ZAdd(zs[1..], ToStr(popped["_prefixed_id"]), popped["_redis_score"].f) == zs &&
      (data - {e.member})[e.member := DropKeysWithPrefix(popped, "_")] == data
  {
    var e := zs[0];
    AnnotateProps(data[e.member], e.member, e.score);
    ReinsertHead(zs);
  }

  /** Removing an absent member changes nothing. */
  lemma {:induction false} RemoveSame(zs: seq<Entry>, m: string)
    requires m !in Members(zs)
    ensures Remove(zs, m) == zs
  {
    if zs != [] {
      assert Members(zs) == [zs[0].member] + Members(zs[1..]);
      RemoveSame(zs[1..], m);
    }
  }
}
