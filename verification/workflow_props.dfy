/** Properties of the workflow engine that relate several commands: what
    `next` answers after `complete`, `skip` or `reset`, how `status` counts move,
    and the idempotence of `reset`. */
module WorkflowProps {
  import opened Wrappers
  import opened Workflow

  /** The document keeps one task instance per logical task. */
  predicate DistinctIds(tasks: seq<Task>) {
    forall i, j :: 0 <= i < j < |tasks| ==> tasks[i].id != tasks[j].id
  }

  // ---------------------------------------------------------------------
  // next
  // ---------------------------------------------------------------------

  /** The first task is never halted at a phase gate, whatever its phase's
      configuration says. */
  lemma FirstTaskNeverGated(s: State, phases: seq<Phase>, library: Library)
    requires |s.tasks| > 0 && s.tasks[0].status == Pending
    ensures Next(s, phases, library).Current?
    ensures Next(s, phases, library).index == 0
  {
    assert IsFirstPending(s.tasks, 0);
  }

  /** A phase that has no entry in the configuration never halts `next`. */
  lemma UnconfiguredPhaseNeverGates(s: State, phases: seq<Phase>, library: Library, i: nat)
    requires IsFirstPending(s.tasks, i)
    requires forall k :: 0 <= k < |phases| ==> phases[k].id != s.tasks[i].phase
    ensures Next(s, phases, library).Current?
    ensures Next(s, phases, library).task == s.tasks[i]
  {
  }

  /** A phase change into a phase whose first configuration entry requires
      approval halts `next` before the task, reporting both phases. */
  lemma GateHalts(s: State, phases: seq<Phase>, library: Library, i: nat, k: nat)
    requires IsFirstPending(s.tasks, i) && i > 0
    requires s.tasks[i - 1].phase != s.tasks[i].phase
    requires k < |phases| && phases[k].id == s.tasks[i].phase && phases[k].requiresApproval
    requires forall j :: 0 <= j < k ==> phases[j].id != s.tasks[i].phase
    ensures Next(s, phases, library)
         == ApprovalRequired(s.tasks[i - 1].phase, s.tasks[i].phase, phases[k].name)
  {
  }

  // ---------------------------------------------------------------------
  // complete / skip followed by next
  // ---------------------------------------------------------------------

  lemma FirstWithIdUnique(tasks: seq<Task>, id: string, a: int, b: int)
    requires IsFirstWithId(tasks, id, a) && IsFirstWithId(tasks, id, b)
    ensures a == b
  {
  }

  /** If task `i` is the first pending one and only it changes, to a status
      other than pending, every pending task of the new list lies after `i`. */
  lemma PendingMovesPast(before: seq<Task>, after: seq<Task>, i: nat)
    requires IsFirstPending(before, i)
    requires OnlyAt(before, after, i)
    requires after[i].status != Pending
    ensures forall j :: 0 <= j <= i ==> after[j].status != Pending
  {
  }

  /** `complete` of the task `next` offered, then `next` again: the workflow
      has moved on. It is finished, halted at a gate, or offers a later task,
      which is never the one just completed. */
  lemma {:induction false} CompleteAdvances(s: State, phases: seq<Phase>, library: Library,
                                            summary: string, clock: Stamps)
    requires DistinctIds(s.tasks)
    requires Next(s, phases, library).Current?
    ensures
      var i := Next(s, phases, library).index;
      var t := Next(s, phases, library).task;
      var n := Next(Complete(s, t.id, summary, clock).1, phases, library);
      n.Current? ==> n.index > i && n.task.id != t.id
  {
    var i := Next(s, phases, library).index;
    var t := Next(s, phases, library).task;
    var r := Complete(s, t.id, summary, clock);
    assert IsFirstWithId(s.tasks, t.id, i);
    assert r.0 == Done;
    var k :| IsFirstWithId(s.tasks, t.id, k) && OnlyAt(s.tasks, r.1.tasks, k)
      && r.1.tasks[k].status == Completed;
    FirstWithIdUnique(s.tasks, t.id, i, k);
    PendingMovesPast(s.tasks, r.1.tasks, i);
    var n := Next(r.1, phases, library);
    if n.Current? {
      assert n.index > i;
      assert n.task == s.tasks[n.index];
    }
  }

  /** The same progress for `skip`. */
  lemma {:induction false} SkipAdvances(s: State, phases: seq<Phase>, library: Library, savedAt: Timestamp)
    requires DistinctIds(s.tasks)
    requires Next(s, phases, library).Current?
    ensures
      var i := Next(s, phases, library).index;
      var t := Next(s, phases, library).task;
      var n := Next(Skip(s, t.id, savedAt).1, phases, library);
      n.Current? ==> n.index > i && n.task.id != t.id
  {
    var i := Next(s, phases, library).index;
    var t := Next(s, phases, library).task;
    var r := Skip(s, t.id, savedAt);
    assert IsFirstWithId(s.tasks, t.id, i);
    assert r.0 == Done;
    var k :| IsFirstWithId(s.tasks, t.id, k) && OnlyAt(s.tasks, r.1.tasks, k)
      && r.1.tasks[k].status == Skipped;
    FirstWithIdUnique(s.tasks, t.id, i, k);
    PendingMovesPast(s.tasks, r.1.tasks, i);
    var n := Next(r.1, phases, library);
    if n.Current? {
      assert n.index > i;
      assert n.task == s.tasks[n.index];
    }
  }

  /** Once a task is completed, `next` never offers its id again, whichever
      task `next` would have offered before. */
  lemma CompleteNeverReturnsId(s: State, id: string, summary: string, clock: Stamps,
                               phases: seq<Phase>, library: Library)
    requires DistinctIds(s.tasks)
    ensures
      var n := Next(Complete(s, id, summary, clock).1, phases, library);
      n.Current? ==> n.task.id != id
  {
    var r := Complete(s, id, summary, clock);
    var n := Next(r.1, phases, library);
    if n.Current? && r.0 == Done {
      var k :| IsFirstWithId(s.tasks, id, k) && OnlyAt(s.tasks, r.1.tasks, k)
        && SameIdentity(r.1.tasks[k], s.tasks[k]) && r.1.tasks[k].status == Completed;
      assert n.index != k;
      assert n.task == s.tasks[n.index];
    }
  }

  /** The same for `skip`: a skipped id is never offered again. */
  lemma SkipNeverReturnsId(s: State, id: string, savedAt: Timestamp,
                           phases: seq<Phase>, library: Library)
    requires DistinctIds(s.tasks)
    ensures
      var n := Next(Skip(s, id, savedAt).1, phases, library);
      n.Current? ==> n.task.id != id
  {
    var r := Skip(s, id, savedAt);
    var n := Next(r.1, phases, library);
    if n.Current? && r.0 == Done {
      var k :| IsFirstWithId(s.tasks, id, k) && OnlyAt(s.tasks, r.1.tasks, k)
        && SameIdentity(r.1.tasks[k], s.tasks[k]) && r.1.tasks[k].status == Skipped;
      assert n.index != k;
      assert n.task == s.tasks[n.index];
    }
  }

  /** Without distinct ids the progress above fails: `complete` marks only the
      first task with the id, so `next` offers a second task of the same id. */
  lemma DuplicateIdsRepeat()
    ensures
      var a := Task("1.1", "first", "setup", "s.py", Pending, None, None);
      var s := State("w", "setup", [a, a], [], None, None);
      var s' := Complete(s, "1.1", "done", Stamps("t", "t", "t")).1;
      Next(s', [], map[]).Current? && Next(s', [], map[]).task.id == "1.1"
  {
    var a := Task("1.1", "first", "setup", "s.py", Pending, None, None);
    var s := State("w", "setup", [a, a], [], None, None);
    var s' := Complete(s, "1.1", "done", Stamps("t", "t", "t")).1;
    assert FindTask(s.tasks, "1.1") == Some(0);
    assert s'.tasks[1] == a;
    assert FirstPending(s'.tasks) == Some(1);
  }

  // ---------------------------------------------------------------------
  // status counts
  // ---------------------------------------------------------------------

  /** Replacing one task moves the count of a status by the difference of the
      two tasks' contributions. */
  lemma {:induction false} CountUpdate(tasks: seq<Task>, k: nat, t: Task, st: Status)
    requires k < |tasks|
    ensures CountStatus(tasks[k := t], st)
         == CountStatus(tasks, st) - (if tasks[k].status == st then 1 else 0) + (if t.status == st then 1 else 0)
    decreases |tasks|
  {
    var n := |tasks| - 1;
    var u := tasks[k := t];
    assert u[..n] == if k < n then tasks[..n][k := t] else tasks[..n];
    if k < n {
      CountUpdate(tasks[..n], k, t, st);
    }
  }

  /** `complete` of a task that was not yet completed adds exactly one to the
      completed count. */
  lemma CompleteCountsOne(s: State, id: string, summary: string, clock: Stamps, k: nat)
    requires IsFirstWithId(s.tasks, id, k) && s.tasks[k].status != Completed
    ensures CountStatus(Complete(s, id, summary, clock).1.tasks, Completed) == CountStatus(s.tasks, Completed) + 1
  {
    var r := Complete(s, id, summary, clock);
    var k' :| IsFirstWithId(s.tasks, id, k') && OnlyAt(s.tasks, r.1.tasks, k')
      && r.1.tasks[k'].status == Completed;
    FirstWithIdUnique(s.tasks, id, k, k');
    assert r.1.tasks == s.tasks[k := r.1.tasks[k]];
    CountUpdate(s.tasks, k, r.1.tasks[k], Completed);
  }

  /** Re-completing an already completed task leaves the completed count as it
      was (the prior status is never checked) but still logs a record. */
  lemma RecompleteCountsNothing(s: State, id: string, summary: string, clock: Stamps, k: nat)
    requires IsFirstWithId(s.tasks, id, k) && s.tasks[k].status == Completed
    ensures
      var s' := Complete(s, id, summary, clock).1;
      && CountStatus(s'.tasks, Completed) == CountStatus(s.tasks, Completed)
      && |s'.history| == |s.history| + 1
  {
    var r := Complete(s, id, summary, clock);
    var k' :| IsFirstWithId(s.tasks, id, k') && OnlyAt(s.tasks, r.1.tasks, k')
      && r.1.tasks[k'].status == Completed;
    FirstWithIdUnique(s.tasks, id, k, k');
    assert r.1.tasks == s.tasks[k := r.1.tasks[k]];
    CountUpdate(s.tasks, k, r.1.tasks[k], Completed);
  }

  lemma {:induction false} AllPendingCounts(tasks: seq<Task>)
    requires forall j :: 0 <= j < |tasks| ==> tasks[j].status == Pending
    ensures CountStatus(tasks, Completed) == 0 && CountStatus(tasks, Skipped) == 0
    ensures CountOpen(tasks) == |tasks|
  {
    if |tasks| > 0 {
      AllPendingCounts(tasks[..|tasks| - 1]);
    }
  }

  // ---------------------------------------------------------------------
  // reset
  // ---------------------------------------------------------------------

  /** `reset` twice is `reset` once (up to the save's own time stamp). */
  lemma ResetIdempotent(s: State, t1: Timestamp, t2: Timestamp)
    ensures Reset(Reset(s, t1), t2) == Reset(s, t2)
  {
    var a := Reset(Reset(s, t1), t2);
    var b := Reset(s, t2);
    assert a.tasks == b.tasks by {
      forall j | 0 <= j < |a.tasks|
        ensures a.tasks[j] == b.tasks[j]
      {
      }
    }
  }

  /** After `reset` the workflow starts over: `next` offers the first task, to
      which no gate applies. */
  lemma ResetRestartsNext(s: State, savedAt: Timestamp, phases: seq<Phase>, library: Library)
    requires |s.tasks| > 0
    ensures Next(Reset(s, savedAt), phases, library).Current?
    ensures Next(Reset(s, savedAt), phases, library).index == 0
  {
    var s' := Reset(s, savedAt);
    assert s'.tasks[0].status == Pending;
    FirstTaskNeverGated(s', phases, library);
  }

  /** After `reset`, `status` reports nothing completed or skipped, every task
      pending and 0%. */
  lemma ResetRestartsStatus(s: State, savedAt: Timestamp)
    requires |s.tasks| > 0
    ensures
      var r := StatusReport(Reset(s, savedAt));
      && r.Success? && r.value.completed == 0 && r.value.skipped == 0
      && r.value.pending == |s.tasks| && r.value.percent == 0
  {
    var s' := Reset(s, savedAt);
    AllPendingCounts(s'.tasks);
    var r := StatusReport(s');
    assert r.value.completed == 0;
    assert r.value.percent == 0 by {
      assert r.value.percent * r.value.total <= 0 && r.value.total > 0;
      if r.value.percent > 0 {
        MulMonotone(1, r.value.percent, r.value.total);
      }
    }
  }

  // ---------------------------------------------------------------------
  // worked examples
  // ---------------------------------------------------------------------

  const InitDemo: Task := Task("1.1", "Init", "setup", "setup.py", Pending, None, None)
  const EnvDemo: Task := Task("1.2", "Env", "setup", "setup.py", Pending, None, None)
  const DepsDemo: Task := Task("1.3", "Deps", "setup", "setup.py", Pending, None, None)
  const SetupDemo: State := State("demo", "setup", [InitDemo, EnvDemo, DepsDemo], [], None, None)
  const SetupPhases: seq<Phase> := [Phase("setup", "Setup", false)]

  /** `SetupDemo` after `complete 1.1`. */
  function SetupDemoDone(): (r: State) {
    Complete(SetupDemo, "1.1", "done", Stamps("a", "b", "c")).1
  }

  lemma SetupDemoDoneTasks()
    ensures SetupDemoDone().tasks
         == [InitDemo.(status := Completed, summary := Some("done"), completedAt := Some("a")), EnvDemo, DepsDemo]
  {
    assert FindTask(SetupDemo.tasks, "1.1") == Some(0);
  }

  /** Three setup tasks, none gated: `next` offers 1.1; after completing it
      `next` offers 1.2. */
  lemma SetupWalkthrough()
    ensures Next(SetupDemo, SetupPhases, map[]).Current?
    ensures Next(SetupDemo, SetupPhases, map[]).task.id == "1.1"
    ensures Next(SetupDemoDone(), SetupPhases, map[]).Current?
    ensures Next(SetupDemoDone(), SetupPhases, map[]).task.id == "1.2"
  {
    assert IsFirstPending(SetupDemo.tasks, 0);
    SetupDemoDoneTasks();
    assert IsFirstPending(SetupDemoDone().tasks, 1);
  }

  /** After completing 1.1 of the three setup tasks, `status` reports 1 of 3
      completed, which is 33%. */
  lemma SetupStatus()
    ensures StatusReport(SetupDemoDone()).Success?
    ensures StatusReport(SetupDemoDone()).value.completed == 1
    ensures StatusReport(SetupDemoDone()).value.total == 3
    ensures StatusReport(SetupDemoDone()).value.percent == 33
  {
    SetupDemoDoneTasks();
    var c := InitDemo.(status := Completed, summary := Some("done"), completedAt := Some("a"));
    assert [c][..0] == [];
    assert CountStatus([c], Completed) == 1;
    assert [c, EnvDemo][..1] == [c];
    assert CountStatus([c, EnvDemo], Completed) == 1;
    assert [c, EnvDemo, DepsDemo][..2] == [c, EnvDemo];
    assert CountStatus([c, EnvDemo, DepsDemo], Completed) == 1;
  }

  /** Tasks in phases A, A, B with B gated: once both A tasks are completed,
      `next` halts with ApprovalRequired(A, B) instead of offering the B task. */
  lemma GateWalkthrough()
    ensures
      var a1 := Task("a1", "first", "A", "x.py", Pending, None, None);
      var a2 := Task("a2", "second", "A", "x.py", Pending, None, None);
      var b1 := Task("b1", "third", "B", "x.py", Pending, None, None);
      var phases := [Phase("A", "Alpha", false), Phase("B", "Beta", true)];
      var s := State("demo", "A", [a1, a2, b1], [], None, None);
      var s1 := Complete(s, "a1", "ok", Stamps("t", "t", "t")).1;
      var s2 := Complete(s1, "a2", "ok", Stamps("t", "t", "t")).1;
      Next(s2, phases, map[]) == ApprovalRequired("A", "B", "Beta")
  {
    var a1 := Task("a1", "first", "A", "x.py", Pending, None, None);
    var a2 := Task("a2", "second", "A", "x.py", Pending, None, None);
    var b1 := Task("b1", "third", "B", "x.py", Pending, None, None);
    var phases := [Phase("A", "Alpha", false), Phase("B", "Beta", true)];
    var s := State("demo", "A", [a1, a2, b1], [], None, None);
    assert FindTask(s.tasks, "a1") == Some(0);
    var s1 := Complete(s, "a1", "ok", Stamps("t", "t", "t")).1;
    assert s1.tasks[1] == a2 && s1.tasks[2] == b1;
    assert FindTask(s1.tasks, "a2") == Some(1);
    var s2 := Complete(s1, "a2", "ok", Stamps("t", "t", "t")).1;
    assert s2.tasks[2] == b1 && s2.tasks[1].phase == "A";
    assert IsFirstPending(s2.tasks, 2);
    GateHalts(s2, phases, map[], 2, 1);
  }
}
