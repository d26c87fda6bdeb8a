/** Conflict-aware planning of offline workers, and the gate their candidates pass. */
module Scheduler {
  import opened Domain
  import opened Paths

  datatype TaskStatus =
    | Proposed | Triaged | Ready | Running | Verification | Passed | Failed | Blocked
    | MergeCandidate | Merged | Released | Measured

  predicate Verified(s: TaskStatus) { s in {Passed, MergeCandidate, Merged, Released, Measured} }

  /** `priority` counts from 0, the most urgent. */
  datatype Task = Task(
    id: string, priority: nat, status: TaskStatus, dependencies: seq<string>, allowed: seq<string>,
    protected: seq<string>)

  predicate Conflict(left: Task, right: Task) {
    || left.id == right.id
    || left.allowed == [] || right.allowed == []
    || exists l, r | l in left.allowed && r in right.allowed :: MayOverlap(l, r)
  }

  /** Tasks conflict that are one, that may touch anything, or of which two rules may overlap; nothing else does. */
  lemma ConflictExactly(left: Task, right: Task)
    ensures Conflict(left, right) <==>
              left.id != right.id ==> |left.allowed| * |right.allowed| > 0 ==>
                exists i, j :: 0 <= i < |left.allowed| && 0 <= j < |right.allowed| && MayOverlap(left.allowed[i], right.allowed[j])
  {
    hide MayOverlap;
    if left.allowed != [] && right.allowed != [] { assert |left.allowed| * |right.allowed| > 0; }
    assert forall i | 0 <= i < |left.allowed| :: left.allowed[i] in left.allowed;
    assert forall j | 0 <= j < |right.allowed| :: right.allowed[j] in right.allowed;
  }

  datatype Deferral = NotReady | DependencyNotVerified | WorkerLimit | ResourceConflict

  datatype Decision = Decision(scheduled: seq<string>, deferred: map<string, Deferral>)

  // ----- order -----

  /** The order of strings by their characters. */
  predicate Precedes(a: string, b: string)
    decreases |a|
  {
    a == "" || (b != "" && (a[0] < b[0] || (a[0] == b[0] && Precedes(a[1..], b[1..]))))
  }

  predicate Before(a: Task, b: Task) {
    a.priority < b.priority || (a.priority == b.priority && Precedes(a.id, b.id))
  }

  ghost predicate Sorted(ts: seq<Task>) { forall i, j | 0 <= i < j < |ts| :: Before(ts[i], ts[j]) }

  lemma {:induction false} PrecedesTotal(a: string, b: string)
    ensures Precedes(a, b) || Precedes(b, a)
    decreases |a|
  {
    if a != "" && b != "" && a[0] == b[0] { PrecedesTotal(a[1..], b[1..]); }
  }

  lemma {:induction false} PrecedesTransitive(a: string, b: string, c: string)
    requires Precedes(a, b) && Precedes(b, c)
    ensures Precedes(a, c)
    decreases |a|
  {
    if a != "" && a[0] == b[0] == c[0] { PrecedesTransitive(a[1..], b[1..], c[1..]); }
  }

  lemma BeforeTransitive(a: Task, b: Task, c: Task)
    requires Before(a, b) && Before(b, c)
    ensures Before(a, c)
  {
    if a.priority == b.priority == c.priority { PrecedesTransitive(a.id, b.id, c.id); }
  }

  function Insert(ts: seq<Task>, t: Task): seq<Task> {
    if ts == [] || Before(ts[|ts| - 1], t) then ts + [t]
    else Insert(ts[..|ts| - 1], t) + [ts[|ts| - 1]]
  }

  function Sort(ts: seq<Task>): seq<Task> {
    if ts == [] then [] else Insert(Sort(ts[..|ts| - 1]), ts[|ts| - 1])
  }

  lemma {:induction false} InsertSorts(ts: seq<Task>, t: Task)
    requires Sorted(ts)
    ensures Sorted(Insert(ts, t)) && multiset(Insert(ts, t)) == multiset(ts) + multiset{t}
  {
    if ts != [] {
      var last := ts[|ts| - 1];
      var front := ts[..|ts| - 1];
      assert ts == front + [last];
      PrecedesTotal(last.id, t.id);
      if Before(last, t) {
        forall i | 0 <= i < |front| ensures Before(ts[i], t) { BeforeTransitive(ts[i], last, t); }
      } else {
        InsertSorts(front, t);
        var r := Insert(front, t);
        forall i | 0 <= i < |r| ensures Before(r[i], last) {
          assert r[i] in multiset(r);
          if r[i] != t { assert r[i] in front; }
        }
      }
    }
  }

  /** Sorting keeps the tasks and puts them in order. */
  lemma {:induction false} SortSorts(ts: seq<Task>)
    ensures Sorted(Sort(ts)) && multiset(Sort(ts)) == multiset(ts)
  {
    if ts != [] {
      var front := ts[..|ts| - 1];
      SortSorts(front);
      InsertSorts(Sort(front), ts[|ts| - 1]);
      assert ts == front + [ts[|ts| - 1]];
    }
  }

  // ----- planning -----

  function ById(ts: seq<Task>): map<string, Task> {
    if ts == [] then map[] else ById(ts[..|ts| - 1])[ts[|ts| - 1].id := ts[|ts| - 1]]
  }

  predicate Resolved(byId: map<string, Task>, t: Task) {
    forall d | d in t.dependencies :: d in byId && Verified(byId[d].status)
  }

  predicate AnyConflict(t: Task, peers: seq<Task>) { exists p | p in peers :: Conflict(t, p) }

  /** Why a task waits, given the tasks that run or are already scheduled; `None` schedules it. */
  function Objection(byId: map<string, Task>, capacity: nat, running: seq<Task>, scheduled: seq<Task>, t: Task): Option<Deferral> {
    if !t.status.Ready? then Some(NotReady)
    else if !Resolved(byId, t) then Some(DependencyNotVerified)
    else if |scheduled| >= capacity then Some(WorkerLimit)
    else if AnyConflict(t, running + scheduled) then Some(ResourceConflict)
    else None
  }

  /** The tasks scheduled out of an ordered list. */
  function Pick(byId: map<string, Task>, capacity: nat, running: seq<Task>, ordered: seq<Task>): seq<Task> {
    if ordered == [] then []
    else
      var picked := Pick(byId, capacity, running, ordered[..|ordered| - 1]);
      var t := ordered[|ordered| - 1];
      if Objection(byId, capacity, running, picked, t).None? then picked + [t] else picked
  }

  function Deferred(byId: map<string, Task>, capacity: nat, running: seq<Task>, ordered: seq<Task>): map<string, Deferral> {
    if ordered == [] then map[]
    else
      var front := ordered[..|ordered| - 1];
      var t := ordered[|ordered| - 1];
      var objection := Objection(byId, capacity, running, Pick(byId, capacity, running, front), t);
      var deferred := Deferred(byId, capacity, running, front);
      if objection.Some? then deferred[t.id := objection.value] else deferred
  }

  function Capacity(maximum: nat, running: seq<Task>): nat { if |running| >= maximum then 0 else maximum - |running| }

  function Chosen(maximum: nat, tasks: seq<Task>, running: seq<Task>, known: seq<Task>): seq<Task> {
    Pick(ById(known + tasks + running), Capacity(maximum, running), running, Sort(tasks))
  }

  function TaskIds(ts: seq<Task>): seq<string> {
    if ts == [] then [] else TaskIds(ts[..|ts| - 1]) + [ts[|ts| - 1].id]
  }

  class ConservativeTaskScheduler {
    const maximumParallelWorkers: nat

    constructor (maximumParallelWorkers: nat)
      requires 1 <= maximumParallelWorkers <= 3
      ensures this.maximumParallelWorkers == maximumParallelWorkers
    {
      this.maximumParallelWorkers := maximumParallelWorkers;
    }

    method Plan(tasks: seq<Task>, running: seq<Task>, known: seq<Task>) returns (decision: Decision)
      ensures decision.scheduled == TaskIds(Chosen(maximumParallelWorkers, tasks, running, known))
      ensures decision.deferred
              == Deferred(ById(known + tasks + running), Capacity(maximumParallelWorkers, running), running, Sort(tasks))
    {
      hide AnyConflict, Resolved, Sort, ById;
      var byId := Index(known + tasks + running);
      var capacity: nat := if |running| >= maximumParallelWorkers then 0 else maximumParallelWorkers - |running|;
      var ordered := Sort(tasks);
      var scheduled: seq<Task>, deferred: map<string, Deferral>, ids: seq<string> := [], map[], [];
      for i := 0 to |ordered|
        invariant scheduled == Pick(byId, capacity, running, ordered[..i])
        invariant deferred == Deferred(byId, capacity, running, ordered[..i])
        invariant ids == TaskIds(scheduled)
      {
        assert ordered[..i + 1][..i] == ordered[..i];
        var task := ordered[i];
        if !task.status.Ready? {
          deferred := deferred[task.id := NotReady];
        } else if !Resolved(byId, task) {
          deferred := deferred[task.id := DependencyNotVerified];
        } else if |scheduled| >= capacity {
          deferred := deferred[task.id := WorkerLimit];
        } else if AnyConflict(task, running + scheduled) {
          deferred := deferred[task.id := ResourceConflict];
        } else {
          scheduled := scheduled + [task];
          ids := ids + [task.id];
        }
      }
      assert ordered[..|ordered|] == ordered;
      decision := Decision(ids, deferred);
    }

    /** Tasks by id; of two with the same id the later one counts. */
    method Index(tasks: seq<Task>) returns (byId: map<string, Task>)
      ensures byId == ById(tasks)
    {
      byId := map[];
      for i := 0 to |tasks|
        invariant byId == ById(tasks[..i])
      {
        assert tasks[..i + 1][..i] == tasks[..i];
        byId := byId[tasks[i].id := tasks[i]];
      }
      assert tasks[..|tasks|] == tasks;
    }
  }

  // ----- what a plan promises -----

  /** Everything scheduled is ready, has its dependencies verified and conflicts with nobody. */
  ghost predicate Sound(byId: map<string, Task>, capacity: nat, running: seq<Task>, scheduled: seq<Task>) {
    && |scheduled| <= capacity
    && (forall t | t in scheduled :: t.status.Ready? && Resolved(byId, t))
    && (forall i, p | 0 <= i < |scheduled| && p in running :: !Conflict(scheduled[i], p))
    && (forall i, j | 0 <= i < j < |scheduled| :: !Conflict(scheduled[j], scheduled[i]))
  }

  lemma {:induction false} PickSound(byId: map<string, Task>, capacity: nat, running: seq<Task>, ordered: seq<Task>)
    ensures Sound(byId, capacity, running, Pick(byId, capacity, running, ordered))
    ensures forall t | t in Pick(byId, capacity, running, ordered) :: t in ordered
  {
    hide Conflict, Resolved;
    if ordered != [] {
      var front := ordered[..|ordered| - 1];
      var t := ordered[|ordered| - 1];
      PickSound(byId, capacity, running, front);
      var picked := Pick(byId, capacity, running, front);
      assert forall x | x in front :: x in ordered;
      if Objection(byId, capacity, running, picked, t).None? {
        assert forall p | p in running :: p in running + picked;
        forall i | 0 <= i < |picked| ensures !Conflict(t, picked[i]) { assert picked[i] in running + picked; }
      }
    }
  }

  /** Nothing that could still run was left out: it would exceed the limit or conflict with a peer. */
  lemma {:induction false} PickMaximal(byId: map<string, Task>, capacity: nat, running: seq<Task>, ordered: seq<Task>)
    ensures var picked := Pick(byId, capacity, running, ordered);
      forall t | t in ordered && t !in picked && t.status.Ready? && Resolved(byId, t) ::
        |picked| >= capacity || AnyConflict(t, running + picked)
  {
    hide Conflict, Resolved;
    if ordered != [] {
      var front := ordered[..|ordered| - 1];
      var last := ordered[|ordered| - 1];
      PickMaximal(byId, capacity, running, front);
      var before := Pick(byId, capacity, running, front);
      var picked := Pick(byId, capacity, running, ordered);
      forall t | t in ordered && t !in picked && t.status.Ready? && Resolved(byId, t)
        ensures |picked| >= capacity || exists p | p in running + picked :: Conflict(t, p)
      {
        assert t in front || t == last;
        if t in front && t !in before && |before| < capacity {
          var p :| p in running + before && Conflict(t, p);
          assert p in running + picked;
        }
      }
    }
  }

  /** What is scheduled early in the order does not depend on what comes later. */
  lemma {:induction false} PickPrefix(byId: map<string, Task>, capacity: nat, running: seq<Task>, ordered: seq<Task>, k: nat)
    requires k <= |ordered|
    ensures Pick(byId, capacity, running, ordered[..k]) <= Pick(byId, capacity, running, ordered)
  {
    if k == |ordered| {
      assert ordered[..k] == ordered;
    } else {
      var front := ordered[..|ordered| - 1];
      assert front[..k] == ordered[..k];
      PickPrefix(byId, capacity, running, front, k);
    }
  }

  /** A task that could run is passed over only for running tasks and for scheduled ones before it in the order. */
  lemma PriorityHolds(byId: map<string, Task>, capacity: nat, running: seq<Task>, ordered: seq<Task>, k: nat)
    requires k < |ordered| && ordered[k] !in Pick(byId, capacity, running, ordered)
    requires ordered[k].status.Ready? && Resolved(byId, ordered[k])
    ensures var earlier := Pick(byId, capacity, running, ordered[..k]);
      && earlier <= Pick(byId, capacity, running, ordered)
      && (|earlier| >= capacity || AnyConflict(ordered[k], running + earlier))
  {
    PickPrefix(byId, capacity, running, ordered, k);
    PickPrefix(byId, capacity, running, ordered, k + 1);
    var next := ordered[..k + 1];
    assert next[..k] == ordered[..k] && next[k] == ordered[k];
  }

  /**
   * A plan never exceeds the worker limit unless the running tasks already do, schedules only
   * ready tasks with verified dependencies and without conflicts, and leaves out only what the
   * limit or a conflict keeps out.
   */
  lemma PlanSound(maximum: nat, tasks: seq<Task>, running: seq<Task>, known: seq<Task>)
    ensures var byId := ById(known + tasks + running);
      var chosen := Chosen(maximum, tasks, running, known);
      && (|running| <= maximum ==> |running| + |chosen| <= maximum)
      && (|running| > maximum ==> chosen == [])
      && Sound(byId, Capacity(maximum, running), running, chosen)
      && (forall t | t in chosen :: t in tasks)
      && (forall t | t in tasks && t !in chosen && t.status.Ready? && Resolved(byId, t) ::
            |running| + |chosen| >= maximum || AnyConflict(t, running + chosen))
  {
    hide Conflict, Resolved, Pick, Sort, ById;
    var byId := ById(known + tasks + running);
    SortSorts(tasks);
    assert forall t :: t in tasks <==> t in multiset(tasks);
    assert forall t :: t in Sort(tasks) <==> t in multiset(Sort(tasks));
    PickSound(byId, Capacity(maximum, running), running, Sort(tasks));
    PickMaximal(byId, Capacity(maximum, running), running, Sort(tasks));
  }

  // ----- candidates -----

  const DefaultProtected := [
    "tests/golden/**", "eval/golden/**", "eval/engineering/**", "grader/**", "hidden_acceptance/**",
    "config/quality-gates.yaml", "docs/METRICS.md", "schemas/metric-definitions.json", "sprint/**"]

  datatype Finding = ProtectedModified(path: string) | OutsideAllowed(path: string) | WeakeningAdded

  predicate AnyMatch(fits: (string, string) -> bool, path: string, rules: seq<string>) {
    exists r | r in rules :: Matches(fits, path, r)
  }

  /** What the gate says about one changed path. */
  function Complaints(fits: (string, string) -> bool, t: Task, path: string): seq<Finding> {
    (if AnyMatch(fits, path, DefaultProtected + t.protected) then [ProtectedModified(path)] else [])
    + (if t.allowed == [] || !AnyMatch(fits, path, t.allowed) then [OutsideAllowed(path)] else [])
  }

  function AllComplaints(fits: (string, string) -> bool, t: Task, changed: seq<string>): seq<Finding> {
    if changed == [] then []
    else AllComplaints(fits, t, changed[..|changed| - 1]) + Complaints(fits, t, changed[|changed| - 1])
  }

  /** Repeats are dropped, the first of them stays. */
  function Unique(findings: seq<Finding>): seq<Finding> {
    if findings == [] then []
    else
      var front := Unique(findings[..|findings| - 1]);
      if findings[|findings| - 1] in front then front else front + [findings[|findings| - 1]]
  }

  function Inspection(fits: (string, string) -> bool, t: Task, changed: seq<string>, weakens: bool): seq<Finding> {
    Unique(AllComplaints(fits, t, changed) + (if weakens then [WeakeningAdded] else []))
  }

  /** The path part of the gate; `weakens` is what the patch pattern found. */
  method Inspect(fits: (string, string) -> bool, t: Task, changed: seq<string>, weakens: bool)
    returns (passed: bool, findings: seq<Finding>)
    ensures findings == Inspection(fits, t, changed, weakens)
    ensures passed <==> findings == []
  {
    hide Matches;
    var all: seq<Finding> := [];
    for i := 0 to |changed|
      invariant all == AllComplaints(fits, t, changed[..i])
    {
      assert changed[..i + 1][..i] == changed[..i];
      var path := changed[i];
      ghost var before := all;
      if AnyMatch(fits, path, DefaultProtected + t.protected) { all := all + [ProtectedModified(path)]; }
      if t.allowed == [] || !AnyMatch(fits, path, t.allowed) { all := all + [OutsideAllowed(path)]; }
      assert all == before + Complaints(fits, t, path);
    }
    assert changed[..|changed|] == changed;
    if weakens { all := all + [WeakeningAdded]; } else { assert all + [] == all; }
    findings := [];
    for i := 0 to |all|
      invariant findings == Unique(all[..i])
    {
      assert all[..i + 1][..i] == all[..i];
      if all[i] !in findings { findings := findings + [all[i]]; }
    }
    assert all[..|all|] == all;
    passed := findings == [];
  }

  lemma {:induction false} UniqueEmpty(findings: seq<Finding>)
    ensures Unique(findings) == [] <==> findings == []
  {
    if findings != [] { UniqueEmpty(findings[..|findings| - 1]); }
  }

  lemma {:induction false} NoComplaints(fits: (string, string) -> bool, t: Task, changed: seq<string>)
    ensures AllComplaints(fits, t, changed) == []
            <==> forall path | path in changed ::
                   AnyMatch(fits, path, t.allowed) && !AnyMatch(fits, path, DefaultProtected + t.protected)
  {
    hide AnyMatch;
    if changed != [] {
      var front := changed[..|changed| - 1];
      NoComplaints(fits, t, front);
      assert forall path :: path in changed <==> path in front || path == changed[|changed| - 1];
      NothingMatches(fits, changed[|changed| - 1]);
    }
  }

  lemma NothingMatches(fits: (string, string) -> bool, path: string)
    ensures !AnyMatch(fits, path, [])
  {
  }

  /** The gate passes exactly candidates that stay inside their rules and weaken no test. */
  lemma GateExactly(fits: (string, string) -> bool, t: Task, changed: seq<string>, weakens: bool)
    ensures Inspection(fits, t, changed, weakens) == []
            <==> !weakens && forall path | path in changed ::
                   AnyMatch(fits, path, t.allowed) && !AnyMatch(fits, path, DefaultProtected + t.protected)
  {
    hide AnyMatch, AllComplaints, Unique;
    NoComplaints(fits, t, changed);
    UniqueEmpty(AllComplaints(fits, t, changed) + (if weakens then [WeakeningAdded] else []));
  }

  predicate AllAnchored(t: Task) { forall r | r in t.allowed :: Anchored(r) }

  /** The registry refuses absolute paths in every task record. */
  predicate Admitted(t: Task) { forall r | r in t.allowed :: !Absolute(r) }

  /** Tasks without a conflict, with anchored rules that the registry admits, share no path. */
  lemma NoSharedPath(fits: (string, string) -> bool, a: Task, b: Task, path: string)
    requires !Conflict(a, b) && AllAnchored(a) && AllAnchored(b) && Admitted(a) && Admitted(b)
    ensures !(AnyMatch(fits, path, a.allowed) && AnyMatch(fits, path, b.allowed))
  {
    hide Matches, MayOverlap, Anchored;
    forall l, r | l in a.allowed && r in b.allowed
      ensures !(Matches(fits, path, l) && Matches(fits, path, r))
    {
      if Matches(fits, path, l) && Matches(fits, path, r) { AnchoredOverlap(fits, path, l, r); }
    }
  }

  lemma {:induction false} MayOverlapSymmetric(a: Task, b: Task)
    ensures Conflict(a, b) <==> Conflict(b, a)
  {
    hide LiteralPrefix;
    assert forall l, r :: MayOverlap(l, r) <==> MayOverlap(r, l);
  }

  /**
   * Any two tasks of one plan, running or scheduled and not both running, whose rules are anchored:
   * if both candidates pass the gate, they change no path in common.
   */
  lemma CandidatesDisjoint(fits: (string, string) -> bool, maximum: nat, tasks: seq<Task>, running: seq<Task>,
                           known: seq<Task>, a: nat, b: nat, changedA: seq<string>, changedB: seq<string>)
    requires var chosen := Chosen(maximum, tasks, running, known);
      a < |chosen| && b < |running| + |chosen| && b != |running| + a
    requires var chosen := Chosen(maximum, tasks, running, known);
      && AllAnchored(chosen[a]) && AllAnchored((running + chosen)[b])
      && Admitted(chosen[a]) && Admitted((running + chosen)[b])
      && Inspection(fits, chosen[a], changedA, false) == []
      && Inspection(fits, (running + chosen)[b], changedB, false) == []
    ensures forall path :: !(path in changedA && path in changedB)
  {
    hide Matches, Pick, Sort, ById, Anchored, Conflict, AnyMatch, Inspection, Resolved;
    var chosen := Chosen(maximum, tasks, running, known);
    var peer := (running + chosen)[b];
    PlanSound(maximum, tasks, running, known);
    MayOverlapSymmetric(chosen[a], peer);
    assert !Conflict(chosen[a], peer) by {
      if b < |running| { assert peer == running[b] && peer in running; } else { assert peer == chosen[b - |running|]; }
    }
    GateExactly(fits, chosen[a], changedA, false);
    GateExactly(fits, peer, changedB, false);
    forall path ensures !(path in changedA && path in changedB) {
      NoSharedPath(fits, chosen[a], peer, path);
    }
  }
}
