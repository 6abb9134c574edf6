/**
 * Plan validation and dependency ordering of the main runtime.
 *
 * The depth-first `visit` of the source closes over three collections; here they are the fields of
 * `DependencySort`.  The ghost field `stack` is the recursion stack, so that a rejected plan comes
 * with the cycle that was found.
 */
module PlanOrder {
  import opened Common

  datatype AgentTask = AgentTask(taskId: string, agentId: string, skill: string, dependsOn: seq<string>)

  datatype Capability = Capability(skills: seq<string>, available: bool)

  datatype PlanError =
    | ExceedsMaxHops
    | DuplicateTaskId(taskId: string)
    | UnavailableCapability(agentId: string)
    | SkillNotProvided(agentId: string, skill: string)
    | UnknownDependency(dependency: string)
    | DependencyCycle

  type TaskMap = map<string, AgentTask>

  // ---------- the dependency graph ----------

  ghost predicate WellKeyed(g: TaskMap) {
    forall id :: id in g ==> g[id].taskId == id && Elements(g[id].dependsOn) <= g.Keys
  }

  ghost predicate DependsOn(g: TaskMap, a: string, b: string) {
    a in g && b in g[a].dependsOn
  }

  /** Each entry depends directly on the next one. */
  ghost predicate Walk(g: TaskMap, p: seq<string>) {
    forall i :: 0 <= i < |p| - 1 ==> DependsOn(g, p[i], p[i + 1])
  }

  ghost predicate IsCycle(g: TaskMap, p: seq<string>) {
    |p| >= 2 && Walk(g, p) && p[0] == p[|p| - 1]
  }

  ghost predicate HasCycle(g: TaskMap) {
    exists p :: IsCycle(g, p)
  }

  // ---------- task lists ----------

  function IdSet(xs: seq<AgentTask>): set<string> {
    if xs == [] then {} else IdSet(xs[..|xs| - 1]) + {xs[|xs| - 1].taskId}
  }

  ghost predicate DistinctIds(xs: seq<AgentTask>) {
    xs == [] || (DistinctIds(xs[..|xs| - 1]) && xs[|xs| - 1].taskId !in IdSet(xs[..|xs| - 1]))
  }

  /** Every dependency of a task is the id of an earlier task. */
  ghost predicate DependenciesFirst(xs: seq<AgentTask>) {
    xs == [] || (DependenciesFirst(xs[..|xs| - 1]) && Elements(xs[|xs| - 1].dependsOn) <= IdSet(xs[..|xs| - 1]))
  }

  /** All entries are entries of the task map. */
  ghost predicate DrawnFrom(g: TaskMap, xs: seq<AgentTask>) {
    xs == [] || (DrawnFrom(g, xs[..|xs| - 1]) && xs[|xs| - 1].taskId in g && g[xs[|xs| - 1].taskId] == xs[|xs| - 1])
  }

  /** The task map built by the first loop of the source. */
  function ById(xs: seq<AgentTask>): (g: TaskMap)
    ensures g.Keys == IdSet(xs)
  {
    if xs == [] then map[] else ById(xs[..|xs| - 1])[xs[|xs| - 1].taskId := xs[|xs| - 1]]
  }

  lemma {:induction false} IdSetMember(xs: seq<AgentTask>, k: nat)
    requires k < |xs|
    ensures xs[k].taskId in IdSet(xs)
  {
    if k < |xs| - 1 {
      IdSetMember(xs[..|xs| - 1], k);
    }
  }

  lemma IdSetAppend(xs: seq<AgentTask>, t: AgentTask)
    ensures IdSet(xs + [t]) == IdSet(xs) + {t.taskId}
  {
    assert (xs + [t])[..|xs|] == xs;
  }

  lemma {:induction false} DistinctLookup(xs: seq<AgentTask>, k: nat)
    requires DistinctIds(xs) && k < |xs|
    ensures xs[k].taskId in ById(xs) && ById(xs)[xs[k].taskId] == xs[k]
  {
    if k < |xs| - 1 {
      IdSetMember(xs[..|xs| - 1], k);
      DistinctLookup(xs[..|xs| - 1], k);
    }
  }

  /** With distinct ids, the entries are exactly the tasks that the map holds for the listed ids. */
  lemma {:induction false} MembersById(g: TaskMap, xs: seq<AgentTask>, t: AgentTask)
    requires DrawnFrom(g, xs) && t.taskId in g && g[t.taskId] == t
    ensures t in xs <==> t.taskId in IdSet(xs)
  {
    if xs != [] {
      assert xs == xs[..|xs| - 1] + [xs[|xs| - 1]];
      MembersById(g, xs[..|xs| - 1], t);
    }
  }

  lemma {:induction false} DrawnFromEntry(g: TaskMap, xs: seq<AgentTask>, t: AgentTask)
    requires DrawnFrom(g, xs) && t in xs
    ensures t.taskId in g && g[t.taskId] == t
  {
    if t != xs[|xs| - 1] {
      DrawnFromEntry(g, xs[..|xs| - 1], t);
    }
  }

  lemma {:induction false} DistinctIdsDistinct(xs: seq<AgentTask>)
    requires DistinctIds(xs)
    ensures Distinct(xs)
  {
    if xs != [] {
      DistinctIdsDistinct(xs[..|xs| - 1]);
      forall k | 0 <= k < |xs| - 1
        ensures xs[k] != xs[|xs| - 1]
      {
        IdSetMember(xs[..|xs| - 1], k);
      }
    }
  }

  lemma {:induction false} PlanDrawnFromItself(xs: seq<AgentTask>, n: nat)
    requires DistinctIds(xs) && n <= |xs|
    ensures DrawnFrom(ById(xs), xs[..n])
  {
    if n > 0 {
      assert xs[..n][..n - 1] == xs[..n - 1];
      PlanDrawnFromItself(xs, n - 1);
      DistinctLookup(xs, n - 1);
    }
  }

  /** Two distinct-id lists over the same map with the same ids are permutations of each other. */
  lemma SameIdsPermute(g: TaskMap, xs: seq<AgentTask>, ys: seq<AgentTask>)
    requires DrawnFrom(g, xs) && DrawnFrom(g, ys) && DistinctIds(xs) && DistinctIds(ys)
    requires IdSet(xs) == IdSet(ys)
    ensures multiset(xs) == multiset(ys)
  {
    DistinctIdsDistinct(xs);
    DistinctIdsDistinct(ys);
    forall t
      ensures t in xs <==> t in ys
    {
      if t in xs || t in ys {
        DrawnFromEntry(g, if t in xs then xs else ys, t);
        MembersById(g, xs, t);
        MembersById(g, ys, t);
      }
    }
    SameElementsPermute(xs, ys);
  }

  // ---------- an ordered list certifies acyclicity ----------

  /** A walk that starts inside a dependencies-first list stays inside the list before its start. */
  lemma {:induction false} WalkGoesBack(g: TaskMap, xs: seq<AgentTask>, p: seq<string>)
    requires DependenciesFirst(xs) && DrawnFrom(g, xs)
    requires |p| >= 2 && Walk(g, p) && xs != [] && p[0] == xs[|xs| - 1].taskId
    ensures p[|p| - 1] in IdSet(xs[..|xs| - 1])
    decreases |p|, |xs|, 0
  {
    assert DependsOn(g, p[0], p[1]);
    if |p| > 2 {
      assert Walk(g, p[1..]) by {
        forall k | 0 <= k < |p[1..]| - 1
          ensures DependsOn(g, p[1..][k], p[1..][k + 1])
        {
          assert DependsOn(g, p[k + 1], p[k + 2]);
        }
      }
      WalkStaysInside(g, xs[..|xs| - 1], p[1..]);
    }
  }

  lemma {:induction false} WalkStaysInside(g: TaskMap, xs: seq<AgentTask>, p: seq<string>)
    requires DependenciesFirst(xs) && DrawnFrom(g, xs)
    requires |p| >= 2 && Walk(g, p) && p[0] in IdSet(xs)
    ensures p[|p| - 1] in IdSet(xs)
    decreases |p|, |xs|, 1
  {
    if p[0] == xs[|xs| - 1].taskId {
      WalkGoesBack(g, xs, p);
    } else {
      WalkStaysInside(g, xs[..|xs| - 1], p);
    }
  }

  lemma {:induction false} NoCycleThrough(g: TaskMap, xs: seq<AgentTask>, p: seq<string>)
    requires DependenciesFirst(xs) && DrawnFrom(g, xs) && DistinctIds(xs)
    requires IsCycle(g, p)
    ensures p[0] !in IdSet(xs)
  {
    if xs != [] {
      NoCycleThrough(g, xs[..|xs| - 1], p);
      if p[0] == xs[|xs| - 1].taskId {
        WalkGoesBack(g, xs, p);
      }
    }
  }

  /** A dependencies-first list of a whole task map exists only if the graph has no cycle. */
  lemma OrderedIsAcyclic(g: TaskMap, xs: seq<AgentTask>)
    requires DependenciesFirst(xs) && DrawnFrom(g, xs) && DistinctIds(xs)
    requires IdSet(xs) == g.Keys
    ensures !HasCycle(g)
  {
    if HasCycle(g) {
      var p :| IsCycle(g, p);
      assert DependsOn(g, p[0], p[1]);
      NoCycleThrough(g, xs, p);
    }
  }

  // ---------- the depth-first search ----------

  /** A stack that meets one of its own entries again closes a cycle. */
  lemma StackClosesCycle(g: TaskMap, path: seq<string>, id: string)
    requires Walk(g, path) && id in path && DependsOn(g, path[|path| - 1], id)
    ensures HasCycle(g)
  {
    var k :| 0 <= k < |path| && path[k] == id;
    var loop := path[k..] + [id];
    forall i | 0 <= i < |loop| - 1
      ensures DependsOn(g, loop[i], loop[i + 1])
    {
      if i < |path| - k - 1 {
        assert DependsOn(g, path[k + i], path[k + i + 1]);
      }
    }
    assert IsCycle(g, loop);
  }

  lemma PushWalk(g: TaskMap, path: seq<string>, id: string)
    requires Walk(g, path) && (path == [] || DependsOn(g, path[|path| - 1], id))
    ensures Walk(g, path + [id])
    ensures Elements(path + [id]) == Elements(path) + {id}
  {
    var q := path + [id];
    forall i | 0 <= i < |q| - 1
      ensures DependsOn(g, q[i], q[i + 1])
    {
      if i < |path| - 1 {
        assert DependsOn(g, path[i], path[i + 1]);
      }
    }
  }

  /** `ordered` lists tasks of the map, each once and after its dependencies. */
  ghost predicate Listing(g: TaskMap, ordered: seq<AgentTask>) {
    DrawnFrom(g, ordered) && DistinctIds(ordered) && DependenciesFirst(ordered)
  }

  lemma AppendOrdered(g: TaskMap, xs: seq<AgentTask>, id: string)
    requires Listing(g, xs) && id in g && g[id].taskId == id && id !in IdSet(xs)
    requires Elements(g[id].dependsOn) <= IdSet(xs)
    ensures Listing(g, xs + [g[id]]) && IdSet(xs + [g[id]]) == IdSet(xs) + {id}
  {
    assert (xs + [g[id]])[..|xs|] == xs;
  }

  // ---------- the search as a function ----------

  /** The outcome of `visit(id)`: the extended list, or None for "dependency cycle detected". */
  function VisitTask(g: TaskMap, id: string, stack: seq<string>, ordered: seq<AgentTask>): (r: Option<seq<AgentTask>>)
    requires WellKeyed(g) && id in g
    ensures r.Some? ==> IdSet(ordered) <= IdSet(r.value)
    decreases g.Keys - Elements(stack) - IdSet(ordered), 0
  {
    if id in IdSet(ordered) then Some(ordered)
    else if id in stack then None
    else
      assert id in g.Keys - Elements(stack) - IdSet(ordered) && id in Elements(stack + [id]);
      assert Elements(stack) <= Elements(stack + [id]);
      var r := VisitAll(g, g[id].dependsOn, stack + [id], ordered);
      if r.None? then None else
        assert (r.value + [g[id]])[..|r.value|] == r.value;
        Some(r.value + [g[id]])
  }

  function VisitAll(g: TaskMap, ids: seq<string>, stack: seq<string>, ordered: seq<AgentTask>): (r: Option<seq<AgentTask>>)
    requires WellKeyed(g) && Elements(ids) <= g.Keys
    ensures r.Some? ==> IdSet(ordered) <= IdSet(r.value)
    decreases g.Keys - Elements(stack) - IdSet(ordered), 1, |ids|
  {
    if ids == [] then Some(ordered)
    else
      assert ids[0] in Elements(ids) && Elements(ids[1..]) <= Elements(ids);
      var r := VisitTask(g, ids[0], stack, ordered);
      if r.None? then None else VisitAll(g, ids[1..], stack, r.value)
  }

  /** What `visit` may assume: a duplicate-free, dependencies-first list and a stack disjoint from it. */
  ghost predicate SearchState(g: TaskMap, stack: seq<string>, ordered: seq<AgentTask>) {
    WellKeyed(g) && Walk(g, stack) && Elements(stack) !! IdSet(ordered) && Listing(g, ordered)
  }

  lemma {:induction false} VisitTaskSound(g: TaskMap, id: string, stack: seq<string>, ordered: seq<AgentTask>)
    requires SearchState(g, stack, ordered) && id in g
    requires stack == [] || DependsOn(g, stack[|stack| - 1], id)
    ensures VisitTask(g, id, stack, ordered).None? ==> HasCycle(g)
    ensures forall xs :: VisitTask(g, id, stack, ordered) == Some(xs) ==> SearchState(g, stack, xs) && id in IdSet(xs)
    decreases g.Keys - Elements(stack) - IdSet(ordered), 0
  {
    if id in IdSet(ordered) {
    } else if id in stack {
      StackClosesCycle(g, stack, id);
    } else {
      hide DrawnFrom, DistinctIds, DependenciesFirst, Walk;
      PushWalk(g, stack, id);
      assert id in g.Keys - Elements(stack) - IdSet(ordered);
      var r := VisitAll(g, g[id].dependsOn, stack + [id], ordered);
      VisitAllSound(g, g[id].dependsOn, stack + [id], ordered);
      if r.Some? {
        AppendOrdered(g, r.value, id);
      }
    }
  }

  lemma {:induction false} VisitAllSound(g: TaskMap, ids: seq<string>, stack: seq<string>, ordered: seq<AgentTask>)
    requires SearchState(g, stack, ordered) && Elements(ids) <= g.Keys
    requires stack == [] || forall id :: id in ids ==> DependsOn(g, stack[|stack| - 1], id)
    ensures VisitAll(g, ids, stack, ordered).None? ==> HasCycle(g)
    ensures forall xs :: VisitAll(g, ids, stack, ordered) == Some(xs) ==> SearchState(g, stack, xs) && Elements(ids) <= IdSet(xs)
    decreases g.Keys - Elements(stack) - IdSet(ordered), 1, |ids|
  {
    if ids != [] {
      assert ids[0] in Elements(ids) && Elements(ids[1..]) <= Elements(ids);
      var r := VisitTask(g, ids[0], stack, ordered);
      VisitTaskSound(g, ids[0], stack, ordered);
      if r.Some? {
        assert forall id :: id in ids[1..] ==> id in ids;
        VisitAllSound(g, ids[1..], stack, r.value);
        assert Elements(ids) == {ids[0]} + Elements(ids[1..]);
      }
    }
  }

  /** Visiting only listed tasks changes nothing. */
  lemma {:induction false} VisitListed(g: TaskMap, ids: seq<string>, stack: seq<string>, ordered: seq<AgentTask>)
    requires WellKeyed(g) && Elements(ids) <= g.Keys && Elements(ids) <= IdSet(ordered)
    ensures VisitAll(g, ids, stack, ordered) == Some(ordered)
  {
    if ids != [] {
      assert ids[0] in Elements(ids) && Elements(ids[1..]) <= Elements(ids);
      VisitListed(g, ids[1..], stack, ordered);
    }
  }

  lemma VisitUnlisted(g: TaskMap, id: string, ordered: seq<AgentTask>)
    requires WellKeyed(g) && id in g && id !in IdSet(ordered) && Elements(g[id].dependsOn) <= IdSet(ordered)
    ensures VisitTask(g, id, [], ordered) == Some(ordered + [g[id]])
  {
    VisitListed(g, g[id].dependsOn, [] + [id], ordered);
  }

  // ---------- the search as the source runs it ----------

  /** The collections that the nested `visit` of the source closes over. */
  class DependencySort {
    const taskById: TaskMap
    var visiting: set<string>
    var visited: set<string>
    var ordered: seq<AgentTask>
    ghost var stack: seq<string>

    ghost predicate Valid()
      reads this
    {
      WellKeyed(taskById) && visiting == Elements(stack) && visited == IdSet(ordered)
    }

    constructor (tasks: TaskMap)
      requires WellKeyed(tasks)
      ensures Valid() && taskById == tasks && stack == [] && ordered == []
    {
      taskById := tasks;
      visiting, visited, ordered := {}, {}, [];
      stack := [];
    }

    /** Depth-first visit; `false` is the "dependency cycle detected" exception. */
    method Visit(taskId: string) returns (ok: bool)
      requires Valid() && taskId in taskById
      modifies this
      ensures ok == VisitTask(taskById, taskId, old(stack), old(ordered)).Some?
      ensures ok ==> Valid() && stack == old(stack) && Some(ordered) == VisitTask(taskById, taskId, old(stack), old(ordered))
      decreases taskById.Keys - Elements(stack) - IdSet(ordered)
    {
      if taskId in visited {
        return true;
      }
      if taskId in visiting {
        return false;
      }
      visiting := visiting + {taskId};
      stack := stack + [taskId];
      var task := taskById[taskId];
      assert Elements(task.dependsOn) <= taskById.Keys;
      hide WellKeyed, IdSet;
      assert Elements(stack) == old(Elements(stack)) + {taskId};
      assert taskId in old(taskById.Keys - Elements(stack) - IdSet(ordered));
      for i := 0 to |task.dependsOn|
        invariant Valid() && stack == old(stack) + [taskId] && old(IdSet(ordered)) <= IdSet(ordered)
        invariant VisitAll(taskById, task.dependsOn, stack, old(ordered)) == VisitAll(taskById, task.dependsOn[i..], stack, ordered)
      {
        assert task.dependsOn[i..][0] == task.dependsOn[i] && task.dependsOn[i..][1..] == task.dependsOn[i + 1..];
        assert task.dependsOn[i] in Elements(task.dependsOn);
        ok := Visit(task.dependsOn[i]);
        if !ok {
          return;
        }
      }
      visiting := visiting - {taskId};
      stack := stack[..|stack| - 1];
      assert stack == old(stack);
      visited := visited + {taskId};
      IdSetAppend(ordered, task);
      ordered := ordered + [task];
      return true;
    }
  }

  // ---------- the checks made before ordering ----------

  function TaskError(task: AgentTask, caps: map<string, Capability>): Option<PlanError> {
    if task.agentId !in caps || !caps[task.agentId].available then
      Some(UnavailableCapability(task.agentId))
    else if task.skill !in caps[task.agentId].skills then
      Some(SkillNotProvided(task.agentId, task.skill))
    else
      None
  }

  ghost predicate Closed(xs: seq<AgentTask>, ids: set<string>) {
    forall i :: 0 <= i < |xs| ==> Elements(xs[i].dependsOn) <= ids
  }

  /** The plans that reach the ordering step. */
  ghost predicate Admissible(tasks: seq<AgentTask>, caps: map<string, Capability>, maxHops: int) {
    && |tasks| <= maxHops
    && DistinctIds(tasks)
    && (forall i :: 0 <= i < |tasks| ==> TaskError(tasks[i], caps) == None)
    && Closed(tasks, IdSet(tasks))
  }

  /** What the first loop finds wrong with task `i`. */
  function DefectAt(tasks: seq<AgentTask>, i: nat, caps: map<string, Capability>): Option<PlanError>
    requires i < |tasks|
  {
    if tasks[i].taskId in IdSet(tasks[..i]) then Some(DuplicateTaskId(tasks[i].taskId)) else TaskError(tasks[i], caps)
  }

  ghost predicate NoDefectBefore(tasks: seq<AgentTask>, n: nat, caps: map<string, Capability>) {
    n <= |tasks| && forall k :: 0 <= k < n ==> DefectAt(tasks, k, caps) == None
  }

  ghost predicate FirstDefect(e: PlanError, tasks: seq<AgentTask>, i: nat, caps: map<string, Capability>) {
    i < |tasks| && DefectAt(tasks, i, caps) == Some(e) && NoDefectBefore(tasks, i, caps)
  }

  /** The first dependency, in reading order, that names no task. */
  ghost predicate FirstUnknown(d: string, tasks: seq<AgentTask>, i: nat, j: nat) {
    && i < |tasks| && j < |tasks[i].dependsOn| && tasks[i].dependsOn[j] == d && d !in IdSet(tasks)
    && Closed(tasks[..i], IdSet(tasks)) && Elements(tasks[i].dependsOn[..j]) <= IdSet(tasks)
  }

  /** The reported error is the first defect in the order of the checks. */
  ghost predicate Explains(e: PlanError, tasks: seq<AgentTask>, caps: map<string, Capability>, maxHops: int) {
    match e
    case ExceedsMaxHops => |tasks| > maxHops
    case UnknownDependency(d) =>
      |tasks| <= maxHops && NoDefectBefore(tasks, |tasks|, caps) && exists i: nat, j: nat :: FirstUnknown(d, tasks, i, j)
    case DependencyCycle => Admissible(tasks, caps, maxHops) && HasCycle(ById(tasks))
    case _ =>
      |tasks| <= maxHops && exists i: nat :: FirstDefect(e, tasks, i, caps)
  }

  /** An error found before ordering rules the plan out. */
  lemma {:induction false} ExplainedNotAdmissible(e: PlanError, tasks: seq<AgentTask>, caps: map<string, Capability>, maxHops: int)
    requires Explains(e, tasks, caps, maxHops) && e != DependencyCycle
    ensures !Admissible(tasks, caps, maxHops)
  {
    match e {
      case ExceedsMaxHops =>
      case UnknownDependency(d) =>
        var i: nat, j: nat :| FirstUnknown(d, tasks, i, j);
        UnknownNotClosed(d, tasks, i, j);
      case DependencyCycle =>
      case _ =>
        var i: nat :| FirstDefect(e, tasks, i, caps);
        DefectNotAdmissible(tasks, i, caps, maxHops);
    }
  }

  lemma UnknownNotClosed(d: string, tasks: seq<AgentTask>, i: nat, j: nat)
    requires FirstUnknown(d, tasks, i, j)
    ensures !Closed(tasks, IdSet(tasks))
  {
    assert tasks[i].dependsOn[j] in Elements(tasks[i].dependsOn);
  }

  lemma DefectNotAdmissible(tasks: seq<AgentTask>, i: nat, caps: map<string, Capability>, maxHops: int)
    requires i < |tasks| && DefectAt(tasks, i, caps).Some?
    ensures !Admissible(tasks, caps, maxHops)
  {
    if DistinctIds(tasks) {
      DistinctEntry(tasks, i);
    }
  }

  /** So a plan has one error at most. */
  lemma ExplainsUnique(d: PlanError, e: PlanError, tasks: seq<AgentTask>, caps: map<string, Capability>, maxHops: int)
    requires Explains(d, tasks, caps, maxHops) && Explains(e, tasks, caps, maxHops)
    ensures d == e
  {
    hide Admissible, HasCycle, IdSet, DefectAt, FirstUnknown;
    if d == DependencyCycle || e == DependencyCycle {
      if e != DependencyCycle {
        ExplainedNotAdmissible(e, tasks, caps, maxHops);
      } else if d != DependencyCycle {
        ExplainedNotAdmissible(d, tasks, caps, maxHops);
      }
    } else if d.UnknownDependency? && e.UnknownDependency? {
      var i: nat, j: nat :| FirstUnknown(d.dependency, tasks, i, j);
      var k: nat, l: nat :| FirstUnknown(e.dependency, tasks, k, l);
      FirstUnknownOrder(d.dependency, e.dependency, tasks, i, j, k, l);
      FirstUnknownOrder(e.dependency, d.dependency, tasks, k, l, i, j);
    }
  }

  lemma KnownBefore(d: string, tasks: seq<AgentTask>, i: nat, j: nat, k: nat, l: nat)
    requires FirstUnknown(d, tasks, i, j) && k <= i && l < |tasks[k].dependsOn| && (k < i || l < j)
    ensures tasks[k].dependsOn[l] in IdSet(tasks)
  {
    if k < i {
      assert tasks[..i][k] == tasks[k];
      assert tasks[k].dependsOn[l] in Elements(tasks[k].dependsOn);
    } else {
      assert tasks[i].dependsOn[..j][l] in Elements(tasks[i].dependsOn[..j]);
    }
  }

  lemma FirstUnknownOrder(d: string, e: string, tasks: seq<AgentTask>, i: nat, j: nat, k: nat, l: nat)
    requires FirstUnknown(d, tasks, i, j) && FirstUnknown(e, tasks, k, l)
    ensures i <= k && (i == k ==> j <= l) && (i == k && j == l ==> d == e)
  {
    if k < i || (k == i && l < j) {
      KnownBefore(d, tasks, i, j, k, l);
    }
  }

  /** The admissible plans, rule by rule. */
  lemma AdmissibleExactly(tasks: seq<AgentTask>, caps: map<string, Capability>, maxHops: int)
    ensures Admissible(tasks, caps, maxHops) <==>
            && |tasks| <= maxHops
            && (forall i, j :: 0 <= i < j < |tasks| ==> tasks[i].taskId != tasks[j].taskId)
            && (forall t :: t in tasks ==> t.agentId in caps && caps[t.agentId].available && t.skill in caps[t.agentId].skills)
            && (forall t, d :: t in tasks && d in t.dependsOn ==> exists u :: u in tasks && u.taskId == d)
  {
    DistinctPairs(tasks);
    forall d
      ensures d in IdSet(tasks) <==> exists u :: u in tasks && u.taskId == d
    {
      IdSetExactly(tasks, d);
    }
    forall i | 0 <= i < |tasks|
      ensures Elements(tasks[i].dependsOn) <= IdSet(tasks) <==> forall d :: d in tasks[i].dependsOn ==> d in IdSet(tasks)
    {
    }
  }

  lemma {:induction false} IdSetExactly(xs: seq<AgentTask>, id: string)
    ensures id in IdSet(xs) <==> exists u :: u in xs && u.taskId == id
  {
    if xs != [] {
      IdSetExactly(xs[..|xs| - 1], id);
      assert xs == xs[..|xs| - 1] + [xs[|xs| - 1]];
    }
  }

  lemma {:induction false} DistinctPairs(xs: seq<AgentTask>)
    ensures DistinctIds(xs) <==> forall i, j :: 0 <= i < j < |xs| ==> xs[i].taskId != xs[j].taskId
  {
    if xs != [] {
      var front, last := xs[..|xs| - 1], xs[|xs| - 1];
      DistinctPairs(front);
      IdSetExactly(front, last.taskId);
      assert forall i :: 0 <= i < |front| ==> front[i] == xs[i] && front[i] in front;
    }
  }

  lemma {:induction false} DistinctEntry(xs: seq<AgentTask>, i: nat)
    requires DistinctIds(xs) && i < |xs|
    ensures xs[i].taskId !in IdSet(xs[..i])
  {
    if i < |xs| - 1 {
      DistinctEntry(xs[..|xs| - 1], i);
      assert xs[..|xs| - 1][..i] == xs[..i];
    }
  }

  /**
   * `_validate_and_order_plan`.  Succeeds exactly on the admissible acyclic plans, with a
   * dependencies-first permutation; an already ordered plan comes back unchanged.
   */
  method ValidateAndOrder(tasks: seq<AgentTask>, caps: map<string, Capability>, maxHops: int)
    returns (r: Result<seq<AgentTask>, PlanError>)
    ensures r.Ok? <==> Admissible(tasks, caps, maxHops) && !HasCycle(ById(tasks))
    ensures r == Err(DependencyCycle) <==> Admissible(tasks, caps, maxHops) && HasCycle(ById(tasks))
    ensures r.Err? ==> Explains(r.error, tasks, caps, maxHops)
    ensures r.Ok? ==> multiset(r.value) == multiset(tasks) && DependenciesFirst(r.value) && DistinctIds(r.value)
    ensures r.Ok? ==> OrderOf(tasks) == Some(r.value)
    ensures r.Ok? && DependenciesFirst(tasks) ==> r.value == tasks
  {
    r := CheckPlan(tasks, caps, maxHops);
    if r.Err? {
      ExplainedNotAdmissible(r.error, tasks, caps, maxHops);
    } else {
      OrderOfSound(tasks);
      if DependenciesFirst(tasks) {
        OrderOfOrdered(tasks);
      }
      r := OrderTasks(tasks);
    }
  }

  lemma NoDefectTasks(tasks: seq<AgentTask>, caps: map<string, Capability>)
    requires NoDefectBefore(tasks, |tasks|, caps)
    ensures forall i :: 0 <= i < |tasks| ==> TaskError(tasks[i], caps) == None
  {
    forall i | 0 <= i < |tasks|
      ensures TaskError(tasks[i], caps) == None
    {
      assert DefectAt(tasks, i, caps) == None;
    }
  }

  /** The checks of the first two loops, up to the first defect. */
  method CheckPlan(tasks: seq<AgentTask>, caps: map<string, Capability>, maxHops: int)
    returns (r: Result<seq<AgentTask>, PlanError>)
    ensures r.Ok? ==> Admissible(tasks, caps, maxHops)
    ensures r.Err? ==> r.error != DependencyCycle && Explains(r.error, tasks, caps, maxHops)
  {
    if |tasks| > maxHops {
      return Err(ExceedsMaxHops);
    }
    var taskById: TaskMap := map[];
    for i := 0 to |tasks|
      invariant DistinctIds(tasks[..i]) && taskById == ById(tasks[..i])
      invariant NoDefectBefore(tasks, i, caps)
    {
      assert tasks[..i + 1][..i] == tasks[..i];
      var task := tasks[i];
      if task.taskId in taskById {
        assert FirstDefect(DuplicateTaskId(task.taskId), tasks, i, caps);
        return Err(DuplicateTaskId(task.taskId));
      }
      taskById := taskById[task.taskId := task];
      var problem := TaskError(task, caps);
      if problem.Some? {
        assert FirstDefect(problem.value, tasks, i, caps);
        return Err(problem.value);
      }
    }
    assert tasks[..|tasks|] == tasks;
    r := CheckDependencies(tasks, taskById);
    NoDefectTasks(tasks, caps);
  }

  method CheckDependencies(tasks: seq<AgentTask>, taskById: TaskMap) returns (r: Result<seq<AgentTask>, PlanError>)
    requires taskById.Keys == IdSet(tasks)
    ensures r.Ok? ==> r.value == tasks && Closed(tasks, IdSet(tasks))
    ensures r.Err? ==> r.error.UnknownDependency? && exists i: nat, j: nat :: FirstUnknown(r.error.dependency, tasks, i, j)
  {
    for i := 0 to |tasks|
      invariant Closed(tasks[..i], IdSet(tasks))
    {
      var deps := tasks[i].dependsOn;
      for j := 0 to |deps|
        invariant Elements(deps[..j]) <= IdSet(tasks)
      {
        if deps[j] !in taskById {
          assert FirstUnknown(deps[j], tasks, i, j);
          return Err(UnknownDependency(deps[j]));
        }
      }
      assert deps[..|deps|] == deps;
    }
    return Ok(tasks);
  }

  // ---------- ordering a whole plan ----------

  function Ids(xs: seq<AgentTask>): (ids: seq<string>)
    ensures Elements(ids) == IdSet(xs)
  {
    if xs == [] then [] else Ids(xs[..|xs| - 1]) + [xs[|xs| - 1].taskId]
  }

  /** The order in which an admissible plan is executed; None when its dependencies are cyclic. */
  function OrderOf(tasks: seq<AgentTask>): Option<seq<AgentTask>>
    requires DistinctIds(tasks) && Closed(tasks, IdSet(tasks))
  {
    WellKeyedPlan(tasks);
    VisitAll(ById(tasks), Ids(tasks), [], [])
  }

  /** The order is a dependencies-first permutation of the plan, and it exists exactly for acyclic plans. */
  lemma OrderOfSound(tasks: seq<AgentTask>)
    requires DistinctIds(tasks) && Closed(tasks, IdSet(tasks))
    ensures OrderOf(tasks).Some? <==> !HasCycle(ById(tasks))
    ensures forall xs :: OrderOf(tasks) == Some(xs) ==>
              multiset(xs) == multiset(tasks) && DependenciesFirst(xs) && DistinctIds(xs) && IdSet(xs) == IdSet(tasks)
  {
    WellKeyedPlan(tasks);
    VisitAllSound(ById(tasks), Ids(tasks), [], []);
    if OrderOf(tasks).Some? {
      var ordered := OrderOf(tasks).value;
      DrawnFromIds(ById(tasks), ordered);
      OrderedIsAcyclic(ById(tasks), ordered);
      PlanDrawnFromItself(tasks, |tasks|);
      assert tasks[..|tasks|] == tasks;
      SameIdsPermute(ById(tasks), ordered, tasks);
    }
  }

  /** A plan that already lists dependencies first is executed in plan order. */
  lemma OrderOfOrdered(tasks: seq<AgentTask>)
    requires DistinctIds(tasks) && Closed(tasks, IdSet(tasks)) && DependenciesFirst(tasks)
    ensures OrderOf(tasks) == Some(tasks)
  {
    WellKeyedPlan(tasks);
    IdsLength(tasks);
    assert tasks[..0] == [] && Ids(tasks)[0..] == Ids(tasks);
    OrderedFrom(tasks, 0);
  }

  /** In an ordered plan, visiting the next task lists just that task. */
  lemma OrderedStep(g: TaskMap, tasks: seq<AgentTask>, i: nat)
    requires WellKeyed(g) && i < |tasks| && tasks[i].taskId in g && g[tasks[i].taskId] == tasks[i]
    requires tasks[i].taskId !in IdSet(tasks[..i]) && Elements(tasks[i].dependsOn) <= IdSet(tasks[..i])
    ensures VisitTask(g, tasks[i].taskId, [], tasks[..i]) == Some(tasks[..i + 1])
  {
    VisitUnlisted(g, tasks[i].taskId, tasks[..i]);
    assert tasks[..i] + [tasks[i]] == tasks[..i + 1];
  }

  lemma {:induction false} OrderedFrom(tasks: seq<AgentTask>, i: nat)
    requires DistinctIds(tasks) && WellKeyed(ById(tasks)) && DependenciesFirst(tasks)
    requires |Ids(tasks)| == |tasks| && i <= |tasks| && Elements(Ids(tasks)[i..]) <= IdSet(tasks)
    ensures VisitAll(ById(tasks), Ids(tasks)[i..], [], tasks[..i]) == Some(tasks)
    decreases |tasks| - i
  {
    hide DistinctIds, DependenciesFirst, VisitTask, ById, IdSet, Ids;
    var rest := Ids(tasks)[i..];
    if i == |tasks| {
      assert tasks[..i] == tasks;
    } else {
      IdsAt(tasks, i);
      assert rest[0] == tasks[i].taskId && rest[1..] == Ids(tasks)[i + 1..];
      assert Elements(rest[1..]) <= Elements(rest);
      OrderedFrom(tasks, i + 1);
      DistinctLookup(tasks, i);
      DistinctEntry(tasks, i);
      DependenciesFirstEntry(tasks, i);
      OrderedStep(ById(tasks), tasks, i);
    }
  }

  lemma {:induction false} IdsLength(xs: seq<AgentTask>)
    ensures |Ids(xs)| == |xs|
  {
    if xs != [] {
      IdsLength(xs[..|xs| - 1]);
    }
  }

  lemma {:induction false} IdsAt(xs: seq<AgentTask>, i: nat)
    requires i < |xs|
    ensures |Ids(xs)| == |xs| && Ids(xs)[i] == xs[i].taskId
  {
    IdsLength(xs[..|xs| - 1]);
    if i < |xs| - 1 {
      IdsAt(xs[..|xs| - 1], i);
    }
  }

  lemma {:induction false} DrawnFromIds(g: TaskMap, xs: seq<AgentTask>)
    requires DrawnFrom(g, xs)
    ensures IdSet(xs) <= g.Keys
  {
    if xs != [] {
      DrawnFromIds(g, xs[..|xs| - 1]);
    }
  }

  /** The last part of the source method: visit every task of the plan in plan order. */
  method OrderTasks(tasks: seq<AgentTask>) returns (r: Result<seq<AgentTask>, PlanError>)
    requires DistinctIds(tasks) && Closed(tasks, IdSet(tasks))
    ensures r == if OrderOf(tasks).Some? then Ok(OrderOf(tasks).value) else Err(DependencyCycle)
  {
    WellKeyedPlan(tasks);
    IdsLength(tasks);
    var sort := new DependencySort(ById(tasks));
    for i := 0 to |tasks|
      invariant fresh(sort) && sort.taskById == ById(tasks) && sort.Valid() && sort.stack == []
      invariant Elements(Ids(tasks)[i..]) <= ById(tasks).Keys
      invariant OrderOf(tasks) == VisitAll(ById(tasks), Ids(tasks)[i..], [], sort.ordered)
    {
      IdsAt(tasks, i);
      assert Ids(tasks)[i..][0] == tasks[i].taskId && Ids(tasks)[i..][1..] == Ids(tasks)[i + 1..];
      IdSetMember(tasks, i);
      var ok := sort.Visit(tasks[i].taskId);
      if !ok {
        return Err(DependencyCycle);
      }
    }
    return Ok(sort.ordered);
  }

  lemma {:induction false} DependenciesFirstEntry(xs: seq<AgentTask>, i: nat)
    requires DependenciesFirst(xs) && i < |xs|
    ensures Elements(xs[i].dependsOn) <= IdSet(xs[..i])
  {
    if i < |xs| - 1 {
      DependenciesFirstEntry(xs[..|xs| - 1], i);
      assert xs[..|xs| - 1][..i] == xs[..i];
    }
  }

  lemma WellKeyedPlan(tasks: seq<AgentTask>)
    requires Closed(tasks, IdSet(tasks))
    ensures WellKeyed(ById(tasks))
  {
    WellKeyedPrefix(tasks, |tasks|);
    assert tasks[..|tasks|] == tasks;
  }

  lemma {:induction false} WellKeyedPrefix(tasks: seq<AgentTask>, n: nat)
    requires n <= |tasks| && Closed(tasks, IdSet(tasks))
    ensures forall id :: id in ById(tasks[..n]) ==>
              ById(tasks[..n])[id].taskId == id && Elements(ById(tasks[..n])[id].dependsOn) <= IdSet(tasks)
  {
    if n > 0 {
      assert tasks[..n][..n - 1] == tasks[..n - 1];
      WellKeyedPrefix(tasks, n - 1);
    }
  }

  lemma VisitLeaf(g: TaskMap, t: AgentTask, stack: seq<string>, ordered: seq<AgentTask>)
    requires WellKeyed(g) && t.taskId in g && g[t.taskId] == t && t.dependsOn == [] && t.taskId !in IdSet(ordered) && t.taskId !in stack
    ensures VisitTask(g, t.taskId, stack, ordered) == Some(ordered + [t])
  {
    assert VisitAll(g, [], stack + [t.taskId], ordered) == Some(ordered);
  }

  lemma VisitDone(g: TaskMap, id: string, stack: seq<string>, ordered: seq<AgentTask>)
    requires WellKeyed(g) && id in g && id in IdSet(ordered)
    ensures VisitTask(g, id, stack, ordered) == Some(ordered)
  {
  }

  lemma VisitTwo(g: TaskMap, x: string, y: string, stack: seq<string>, ordered: seq<AgentTask>, one: seq<AgentTask>, two: seq<AgentTask>)
    requires WellKeyed(g) && x in g && y in g
    requires VisitTask(g, x, stack, ordered) == Some(one) && VisitTask(g, y, stack, one) == Some(two)
    ensures VisitAll(g, [x, y], stack, ordered) == Some(two)
  {
    assert [x, y][1..] == [y] && [y][1..] == [];
    assert VisitAll(g, [], stack, two) == Some(two);
    assert VisitAll(g, [y], stack, one) == Some(two);
  }

  /** A task with two independent dependencies comes after them, in the order in which it lists them. */
  lemma VisitJoin(g: TaskMap, a: AgentTask, b: AgentTask, c: AgentTask)
    requires a.taskId != b.taskId && a.taskId != c.taskId && b.taskId != c.taskId
    requires a.dependsOn == [] && b.dependsOn == [] && c.dependsOn == [a.taskId, b.taskId]
    requires WellKeyed(g) && a.taskId in g && b.taskId in g && c.taskId in g
    requires g[a.taskId] == a && g[b.taskId] == b && g[c.taskId] == c
    ensures VisitTask(g, c.taskId, [], []) == Some([a, b, c])
  {
    VisitLeaf(g, a, [c.taskId], []);
    IdSetAppend([], a);
    VisitLeaf(g, b, [c.taskId], [a]);
    assert [] + [a] == [a] && [a] + [b] == [a, b] && [a, b] + [c] == [a, b, c];
    VisitTwo(g, a.taskId, b.taskId, [c.taskId], [], [a], [a, b]);
    assert [] + [c.taskId] == [c.taskId];
  }

  lemma VisitFirst(g: TaskMap, x: string, y: string, z: string, all: seq<AgentTask>)
    requires WellKeyed(g) && x in g && y in g && z in g
    requires VisitTask(g, x, [], []) == Some(all) && y in IdSet(all) && z in IdSet(all)
    ensures VisitAll(g, [x, y, z], [], []) == Some(all)
  {
    VisitDone(g, y, [], all);
    VisitDone(g, z, [], all);
    VisitTwo(g, y, z, [], all, all, all);
    assert [x, y, z][1..] == [y, z];
  }

  lemma ThreeIds(x: AgentTask, y: AgentTask, z: AgentTask)
    ensures Ids([x, y, z]) == [x.taskId, y.taskId, z.taskId]
    ensures IdSet([x, y, z]) == {x.taskId, y.taskId, z.taskId}
  {
    assert [x, y, z][..2] == [x, y] && [x, y][..1] == [x] && [x][..0] == [];
    assert Ids([x]) == [x.taskId];
    assert Ids([x, y]) == [x.taskId, y.taskId];
    assert IdSet([x]) == {x.taskId};
    assert IdSet([x, y]) == {x.taskId, y.taskId};
  }

  lemma ThreeTasks(x: AgentTask, y: AgentTask, z: AgentTask)
    requires x.taskId != y.taskId && x.taskId != z.taskId && y.taskId != z.taskId
    ensures DistinctIds([x, y, z])
  {
    assert [x, y, z][..2] == [x, y] && [x, y][..1] == [x] && [x][..0] == [];
    assert DistinctIds([x]);
    assert IdSet([x]) == {x.taskId};
    assert DistinctIds([x, y]);
    assert IdSet([x, y]) == {x.taskId, y.taskId};
  }

  /** Dependencies run in the order in which their task lists them, whatever their order in the plan. */
  lemma DependenciesAsListed(a: AgentTask, b: AgentTask, c: AgentTask, plan: seq<AgentTask>)
    requires a.taskId != b.taskId && a.taskId != c.taskId && b.taskId != c.taskId
    requires a.dependsOn == [] && b.dependsOn == [] && c.dependsOn == [a.taskId, b.taskId]
    requires plan == [c, a, b] || plan == [c, b, a]
    ensures DistinctIds(plan) && Closed(plan, IdSet(plan)) && OrderOf(plan) == Some([a, b, c])
  {
    var x, y := plan[1], plan[2];
    assert plan == [c, x, y];
    ThreeTasks(c, x, y);
    ThreeIds(c, x, y);
    ThreeIds(a, b, c);
    WellKeyedPlan(plan);
    var g := ById(plan);
    DistinctLookup(plan, 0);
    DistinctLookup(plan, 1);
    DistinctLookup(plan, 2);
    hide WellKeyed, ById, IdSet, DistinctIds, VisitTask, VisitAll, Ids;
    VisitJoin(g, a, b, c);
    VisitFirst(g, c.taskId, x.taskId, y.taskId, [a, b, c]);
  }
}
