/** The workflow engine of `example/tools/workflow.py`: the persisted state
    document, the phase configuration and the five commands `next`, `status`,
    `complete`, `skip` and `reset`, each as a pure function. Commands that
    write the document return the new state; `next` and `status` only read it
    and return no state at all. Clock reads are parameters. */
module Workflow {
  import opened Wrappers
  import opened Text

  /** An ISO-8601 text as produced by `datetime.utcnow().isoformat() + 'Z'`. */
  type Timestamp = string

  /** A `status` text other than the three the commands write. */
  type OtherStatus = t: string | t != "pending" && t != "completed" && t != "skipped" witness "blocked"

  /** The `status` field. Any text other than the three the commands write is
      kept as `Unrecognised`: `next` does not pick it up and `status` counts it
      as pending. */
  datatype Status = Pending | Completed | Skipped | Unrecognised(text: OtherStatus)

  datatype Task = Task(
    id: string,
    name: string,
    phase: string,
    skillFile: string,
    status: Status,
    summary: Option<string>,
    completedAt: Option<Timestamp>)

  /** One `session_history` record. */
  datatype HistoryEntry = HistoryEntry(taskId: string, action: string, summary: string, timestamp: Timestamp)

  /** One entry of the configuration's `phases` list; a missing
      `requires_approval` key reads as false. */
  datatype Phase = Phase(id: string, name: string, requiresApproval: bool)

  /** The state document. `currentTaskIndex` is absent until the first `reset`
      writes it; `updatedAt` is stamped by every save. */
  datatype State = State(
    workflowId: string,
    currentPhase: string,
    tasks: seq<Task>,
    history: seq<HistoryEntry>,
    currentTaskIndex: Option<int>,
    updatedAt: Option<Timestamp>)

  /** What a library skill file offers `next`: its `SKILL` dictionary's
      `steps` and `checks` (an absent key reads as the empty list). */
  datatype Skill = Skill(steps: seq<string>, checks: seq<string>)

  /** The skills `load_skill` can load, keyed by a task's `skill_file`. A
      reference that is not a key stands for a missing file, a file without
      `SKILL`, or an empty `SKILL` dictionary: `next` shows no guidance then. */
  type Library = map<string, Skill>

  // ---------------------------------------------------------------------
  // Searches
  // ---------------------------------------------------------------------

  /** `i` is the position of the first task whose status is pending. */
  predicate IsFirstPending(tasks: seq<Task>, i: int) {
    && 0 <= i < |tasks|
    && tasks[i].status == Pending
    && forall j :: 0 <= j < i ==> tasks[j].status != Pending
  }

  /** `i` is the position of the first task carrying `id`. */
  predicate IsFirstWithId(tasks: seq<Task>, id: string, i: int) {
    && 0 <= i < |tasks|
    && tasks[i].id == id
    && forall j :: 0 <= j < i ==> tasks[j].id != id
  }

  /** The first configuration entry with this `id` requires approval, which is
      what `next((p for p in phases if p['id'] == id), None)` followed by
      `.get('requires_approval')` tests. */
  predicate RequiresApproval(phases: seq<Phase>, id: string) {
    exists k :: 0 <= k < |phases| && phases[k].id == id && phases[k].requiresApproval
      && forall j :: 0 <= j < k ==> phases[j].id != id
  }

  function FirstPending(tasks: seq<Task>): (r: Option<nat>)
    ensures r.Some? ==> IsFirstPending(tasks, r.value)
    ensures r.None? <==> forall j :: 0 <= j < |tasks| ==> tasks[j].status != Pending
  {
    FirstIndex(tasks, (t: Task) => t.status == Pending)
  }

  function FindTask(tasks: seq<Task>, id: string): (r: Option<nat>)
    ensures r.Some? ==> IsFirstWithId(tasks, id, r.value)
    ensures r.None? <==> forall j :: 0 <= j < |tasks| ==> tasks[j].id != id
  {
    FirstIndex(tasks, (t: Task) => t.id == id)
  }

  function FindPhase(phases: seq<Phase>, id: string): (r: Option<nat>)
    ensures r.Some? ==> r.value < |phases| && phases[r.value].id == id
    ensures r.Some? ==> forall j :: 0 <= j < r.value ==> phases[j].id != id
    ensures r.None? <==> forall j :: 0 <= j < |phases| ==> phases[j].id != id
  {
    FirstIndex(phases, (p: Phase) => p.id == id)
  }

  // ---------------------------------------------------------------------
  // next
  // ---------------------------------------------------------------------

  datatype NextResult =
    | AllDone
    | ApprovalRequired(fromPhase: string, toPhase: string, phaseName: string)
    | Current(index: nat, task: Task, guidance: Option<Skill>)

  /** The phase entry that halts `next` in front of task `i`, if any: only a
      task whose predecessor by position (whatever its status) is in another
      phase can be halted, and only by the first entry for its phase. */
  function Gate(tasks: seq<Task>, i: nat, phases: seq<Phase>): (r: Option<Phase>)
    requires i < |tasks|
    ensures r.Some? <==>
      (i > 0 && tasks[i - 1].phase != tasks[i].phase && RequiresApproval(phases, tasks[i].phase))
    ensures r.Some? ==> r.value.id == tasks[i].phase && r.value.requiresApproval
  {
    if i > 0 && tasks[i - 1].phase != tasks[i].phase then
      match FindPhase(phases, tasks[i].phase)
      case Some(k) => if phases[k].requiresApproval then Some(phases[k]) else None
      case None => None
    else None
  }

  /** `cmd_next`. The `get_instructions` branch of the source tests `dir()` of a
      module object that has never been executed, so it is never taken: the
      guidance shown is always the loaded skill's steps and checks, or nothing
      when no skill loads. */
  function Next(s: State, phases: seq<Phase>, library: Library): (r: NextResult)
    ensures r.AllDone? <==> forall j :: 0 <= j < |s.tasks| ==> s.tasks[j].status != Pending
    ensures r.Current? ==> IsFirstPending(s.tasks, r.index) && r.task == s.tasks[r.index]
    ensures r.Current? ==>
      r.guidance == (if r.task.skillFile in library then Some(library[r.task.skillFile]) else None)
    ensures r.ApprovalRequired? <==>
      exists i :: IsFirstPending(s.tasks, i) && i > 0 && s.tasks[i - 1].phase != s.tasks[i].phase
        && RequiresApproval(phases, s.tasks[i].phase)
    ensures r.ApprovalRequired? ==>
      exists i :: IsFirstPending(s.tasks, i) && i > 0
        && r.fromPhase == s.tasks[i - 1].phase && r.toPhase == s.tasks[i].phase
  {
    match FirstPending(s.tasks)
    case None => AllDone
    case Some(i) =>
      var t := s.tasks[i];
      match Gate(s.tasks, i, phases)
      case Some(p) => ApprovalRequired(s.tasks[i - 1].phase, t.phase, p.name)
      case None =>
        Current(i, t, if t.skillFile in library then Some(library[t.skillFile]) else None)
  }

  // ---------------------------------------------------------------------
  // complete, skip, reset
  // ---------------------------------------------------------------------

  datatype Outcome = Done | TaskNotFound

  /** The three clock reads of `cmd_complete`: the task's `completed_at`, the
      history record's `timestamp` and the save's `updated_at`. */
  datatype Stamps = Stamps(completedAt: Timestamp, loggedAt: Timestamp, savedAt: Timestamp)

  /** Same task as far as the workflow's shape goes: id, name, phase, skill. */
  predicate SameIdentity(a: Task, b: Task) {
    a.id == b.id && a.name == b.name && a.phase == b.phase && a.skillFile == b.skillFile
  }

  /** `after` equals `before` except possibly at position `k`. */
  predicate OnlyAt(before: seq<Task>, after: seq<Task>, k: int) {
    |after| == |before| && forall j :: 0 <= j < |before| && j != k ==> after[j] == before[j]
  }

  /** `cmd_complete`: the first task with the id becomes completed whatever its
      prior status, and one history record is appended; an unknown id changes
      nothing and nothing is saved. */
  function Complete(s: State, id: string, summary: string, clock: Stamps): (r: (Outcome, State))
    ensures r.0 == TaskNotFound <==> forall j :: 0 <= j < |s.tasks| ==> s.tasks[j].id != id
    ensures r.0 == TaskNotFound ==> r.1 == s
    ensures r.0 == Done ==>
      exists k ::
        && IsFirstWithId(s.tasks, id, k)
        && OnlyAt(s.tasks, r.1.tasks, k)
        && SameIdentity(r.1.tasks[k], s.tasks[k])
        && r.1.tasks[k].status == Completed
        && r.1.tasks[k].summary == Some(summary)
        && r.1.tasks[k].completedAt == Some(clock.completedAt)
    ensures r.0 == Done ==> r.1.history == s.history + [HistoryEntry(id, "completed", summary, clock.loggedAt)]
    ensures r.0 == Done ==> r.1.updatedAt == Some(clock.savedAt)
    ensures r.1.workflowId == s.workflowId && r.1.currentPhase == s.currentPhase
    ensures r.1.currentTaskIndex == s.currentTaskIndex
  {
    match FindTask(s.tasks, id)
    case None => (TaskNotFound, s)
    case Some(k) =>
      var t := s.tasks[k].(status := Completed, summary := Some(summary), completedAt := Some(clock.completedAt));
      (Done, s.(tasks := s.tasks[k := t],
                history := s.history + [HistoryEntry(id, "completed", summary, clock.loggedAt)],
                updatedAt := Some(clock.savedAt)))
  }

  /** `cmd_skip`: the first task with the id becomes skipped with summary
      "Skipped"; unlike `complete` it keeps `completed_at` as it was and logs
      nothing. An unknown id changes nothing and nothing is saved. */
  function Skip(s: State, id: string, savedAt: Timestamp): (r: (Outcome, State))
    ensures r.0 == TaskNotFound <==> forall j :: 0 <= j < |s.tasks| ==> s.tasks[j].id != id
    ensures r.0 == TaskNotFound ==> r.1 == s
    ensures r.0 == Done ==>
      exists k ::
        && IsFirstWithId(s.tasks, id, k)
        && OnlyAt(s.tasks, r.1.tasks, k)
        && SameIdentity(r.1.tasks[k], s.tasks[k])
        && r.1.tasks[k].status == Skipped
        && r.1.tasks[k].summary == Some("Skipped")
        && r.1.tasks[k].completedAt == s.tasks[k].completedAt
    ensures r.0 == Done ==> r.1.history == s.history && r.1.updatedAt == Some(savedAt)
    ensures r.1.workflowId == s.workflowId && r.1.currentPhase == s.currentPhase
    ensures r.1.currentTaskIndex == s.currentTaskIndex
  {
    match FindTask(s.tasks, id)
    case None => (TaskNotFound, s)
    case Some(k) =>
      var t := s.tasks[k].(status := Skipped, summary := Some("Skipped"));
      (Done, s.(tasks := s.tasks[k := t], updatedAt := Some(savedAt)))
  }

  /** A task as `reset` leaves it. */
  function Fresh(t: Task): (r: Task) {
    t.(status := Pending, summary := None, completedAt := None)
  }

  /** `cmd_reset`: every task pending with no summary and no completion time,
      history emptied, cursor back to 0; identities and order are kept. */
  function Reset(s: State, savedAt: Timestamp): (r: State)
    ensures |r.tasks| == |s.tasks|
    ensures forall j :: 0 <= j < |s.tasks| ==>
      SameIdentity(r.tasks[j], s.tasks[j]) && r.tasks[j].status == Pending
      && r.tasks[j].summary.None? && r.tasks[j].completedAt.None?
    ensures r.history == [] && r.currentTaskIndex == Some(0) && r.updatedAt == Some(savedAt)
    ensures r.workflowId == s.workflowId && r.currentPhase == s.currentPhase
  {
    s.(tasks := seq(|s.tasks|, j requires 0 <= j < |s.tasks| => Fresh(s.tasks[j])),
       history := [], currentTaskIndex := Some(0), updatedAt := Some(savedAt))
  }

  // ---------------------------------------------------------------------
  // status
  // ---------------------------------------------------------------------

  /** Number of tasks with exactly this status (`sum(1 for t in tasks if ...)`). */
  function CountStatus(tasks: seq<Task>, st: Status): (r: nat)
  {
    if |tasks| == 0 then 0
    else CountStatus(tasks[..|tasks| - 1], st) + (if tasks[|tasks| - 1].status == st then 1 else 0)
  }

  /** Number of tasks that are neither completed nor skipped. */
  function CountOpen(tasks: seq<Task>): (r: nat)
  {
    if |tasks| == 0 then 0
    else
      var last := tasks[|tasks| - 1];
      CountOpen(tasks[..|tasks| - 1]) + (if last.status != Completed && last.status != Skipped then 1 else 0)
  }

  /** Every task is counted exactly once as completed, skipped or open. */
  lemma {:induction false} CountPartition(tasks: seq<Task>)
    ensures CountStatus(tasks, Completed) + CountStatus(tasks, Skipped) + CountOpen(tasks) == |tasks|
  {
    if |tasks| > 0 {
      CountPartition(tasks[..|tasks| - 1]);
    }
  }

  /** One line of the phase-grouped listing: a heading where the phase changes,
      then a row per task; the summary is shown only when it is non-empty. */
  datatype ListingLine =
    | PhaseHeading(phase: string)
    | TaskRow(status: Status, id: string, name: string, note: Option<string>)

  function Row(t: Task): (r: ListingLine) {
    TaskRow(t.status, t.id, t.name, if Truthy(t.summary) then t.summary else None)
  }

  /** The listing loop of `cmd_status`, `shown` being the phase of the last
      heading printed (`None` before the first). */
  function Listing(tasks: seq<Task>, shown: Option<string>): (r: seq<ListingLine>)
  {
    if |tasks| == 0 then []
    else
      (if shown != Some(tasks[0].phase) then [PhaseHeading(tasks[0].phase)] else [])
      + [Row(tasks[0])] + Listing(tasks[1..], Some(tasks[0].phase))
  }

  /** The task rows of a listing, headings dropped. */
  function Rows(lines: seq<ListingLine>): (r: seq<ListingLine>)
  {
    if |lines| == 0 then []
    else (if lines[0].TaskRow? then [lines[0]] else []) + Rows(lines[1..])
  }

  /** The number of phase headings in a listing. */
  function Headings(lines: seq<ListingLine>): (r: nat)
  {
    if |lines| == 0 then 0
    else (if lines[0].PhaseHeading? then 1 else 0) + Headings(lines[1..])
  }

  /** Adjacent pairs of tasks in different phases. */
  function PhaseChanges(tasks: seq<Task>): (r: nat)
  {
    if |tasks| < 2 then 0
    else (if tasks[0].phase != tasks[1].phase then 1 else 0) + PhaseChanges(tasks[1..])
  }

  lemma RowsAppend(a: seq<ListingLine>, b: seq<ListingLine>)
    ensures Rows(a + b) == Rows(a) + Rows(b)
    ensures Headings(a + b) == Headings(a) + Headings(b)
  {
    if |a| > 0 {
      assert (a + b)[1..] == a[1..] + b;
      RowsAppend(a[1..], b);
    } else {
      assert a + b == b;
    }
  }

  /** The phase shown when the listing reaches task `k`: `shown` for the
      first task, the previous task's phase after that. */
  function PhaseBefore(tasks: seq<Task>, k: nat, shown: Option<string>): (r: Option<string>)
    requires k < |tasks|
  {
    if k == 0 then shown else Some(tasks[k - 1].phase)
  }

  /** What the listing prints for one task: a heading naming the task's phase
      when that phase is not the one shown, then the task's row. */
  function Segment(shown: Option<string>, t: Task): (r: seq<ListingLine>)
  {
    (if shown != Some(t.phase) then [PhaseHeading(t.phase)] else []) + [Row(t)]
  }

  /** The segments of all tasks, in task order. */
  function Segments(tasks: seq<Task>, shown: Option<string>): (r: seq<seq<ListingLine>>)
    ensures |r| == |tasks|
    ensures forall k :: 0 <= k < |tasks| ==> r[k] == Segment(PhaseBefore(tasks, k, shown), tasks[k])
  {
    seq(|tasks|, k requires 0 <= k < |tasks| => Segment(PhaseBefore(tasks, k, shown), tasks[k]))
  }

  function Flatten(g: seq<seq<ListingLine>>): (r: seq<ListingLine>)
  {
    if |g| == 0 then [] else g[0] + Flatten(g[1..])
  }

  /** The listing is the segments of its tasks, one after the other. */
  lemma {:induction false} ListingSegments(tasks: seq<Task>, shown: Option<string>)
    ensures Listing(tasks, shown) == Flatten(Segments(tasks, shown))
    decreases |tasks|
  {
    if |tasks| > 0 {
      var g := Segments(tasks, shown);
      SegmentsTail(tasks, shown);
      ListingSegments(tasks[1..], Some(tasks[0].phase));
      assert Listing(tasks, shown) == g[0] + Listing(tasks[1..], Some(tasks[0].phase));
    }
  }

  lemma SegmentsTail(tasks: seq<Task>, shown: Option<string>)
    requires |tasks| > 0
    ensures Segments(tasks, shown)[1..] == Segments(tasks[1..], Some(tasks[0].phase))
  {
    var g := Segments(tasks, shown);
    var g' := Segments(tasks[1..], Some(tasks[0].phase));
    forall k | 0 <= k < |g'|
      ensures g[1..][k] == g'[k]
    {
      assert PhaseBefore(tasks[1..], k, Some(tasks[0].phase)) == PhaseBefore(tasks, k + 1, shown);
      assert tasks[1..][k] == tasks[k + 1];
    }
  }

  /** The listing shows every task exactly once, in order, each preceded by a
      heading naming its phase exactly when the phase differs from the one
      before (or from `shown`, for the first task); so it prints one heading
      for the first task plus one at every change of phase. */
  lemma {:induction false} ListingShape(tasks: seq<Task>, shown: Option<string>)
    ensures Listing(tasks, shown) == Flatten(Segments(tasks, shown))
    ensures |Rows(Listing(tasks, shown))| == |tasks|
    ensures forall k :: 0 <= k < |tasks| ==> Rows(Listing(tasks, shown))[k] == Row(tasks[k])
    ensures Headings(Listing(tasks, shown))
         == (if |tasks| == 0 then 0
             else (if shown != Some(tasks[0].phase) then 1 else 0) + PhaseChanges(tasks))
  {
    ListingSegments(tasks, shown);
    ListingCounts(tasks, shown);
  }

  /** The row and heading counts of `ListingShape`. */
  lemma {:induction false} ListingCounts(tasks: seq<Task>, shown: Option<string>)
    ensures |Rows(Listing(tasks, shown))| == |tasks|
    ensures forall k :: 0 <= k < |tasks| ==> Rows(Listing(tasks, shown))[k] == Row(tasks[k])
    ensures Headings(Listing(tasks, shown))
         == (if |tasks| == 0 then 0
             else (if shown != Some(tasks[0].phase) then 1 else 0) + PhaseChanges(tasks))
    decreases |tasks|
  {
    if |tasks| > 0 {
      var head := if shown != Some(tasks[0].phase) then [PhaseHeading(tasks[0].phase)] else [];
      var tail := Listing(tasks[1..], Some(tasks[0].phase));
      assert Listing(tasks, shown) == head + [Row(tasks[0])] + tail;
      RowsAppend(head + [Row(tasks[0])], tail);
      RowsAppend(head, [Row(tasks[0])]);
      assert Rows([Row(tasks[0])]) == [Row(tasks[0])];
      assert Headings([Row(tasks[0])]) == 0;
      ListingCounts(tasks[1..], Some(tasks[0].phase));
      if |tasks| >= 2 {
        assert tasks[1..][0] == tasks[1];
      }
    }
  }

  datatype Report = Report(
    workflowId: string,
    currentPhase: string,
    total: nat,
    completed: nat,
    skipped: nat,
    pending: nat,
    percent: nat,
    listing: seq<ListingLine>)

  /** `100*completed//total` raises for an empty task list. */
  datatype StatusError = DivisionByZero

  /** The listing shows every task once, as its row and in order, each
      preceded by a heading naming its phase exactly when it is the first task
      or its phase differs from the previous task's; so there is one heading
      for the first task and one at every change of phase. */
  predicate ListsTasks(listing: seq<ListingLine>, tasks: seq<Task>) {
    && listing == Flatten(Segments(tasks, None))
    && |Rows(listing)| == |tasks|
    && (forall k :: 0 <= k < |tasks| ==> Rows(listing)[k] == Row(tasks[k]))
    && Headings(listing) == (if |tasks| == 0 then 0 else 1 + PhaseChanges(tasks))
  }

  /** The listing `cmd_status` prints, starting with no heading shown. */
  function StatusListing(tasks: seq<Task>): (r: seq<ListingLine>)
    ensures ListsTasks(r, tasks)
  {
    ListingShape(tasks, None);
    Listing(tasks, None)
  }

  /** `100*completed//total`. */
  function Percent(completed: nat, total: nat): (p: nat)
    requires 0 < total && completed <= total
    ensures p * total <= 100 * completed < (p + 1) * total
    ensures p <= 100
    ensures p == 100 <==> completed == total
  {
    PercentBounds(completed, total);
    100 * completed / total
  }

  /** `cmd_status`: the counts, the floor percentage and the listing. */
  function StatusReport(s: State): (r: Result<Report, StatusError>)
    ensures r.Failure? <==> |s.tasks| == 0
    ensures r.Success? ==> r.value.total == |s.tasks|
    ensures r.Success? ==> r.value.completed + r.value.skipped + r.value.pending == r.value.total
    ensures r.Success? ==> r.value.completed == CountStatus(s.tasks, Completed)
    ensures r.Success? ==> r.value.skipped == CountStatus(s.tasks, Skipped)
    ensures r.Success? ==> r.value.pending == CountOpen(s.tasks)
    ensures r.Success? ==>
      r.value.percent * r.value.total <= 100 * r.value.completed < (r.value.percent + 1) * r.value.total
    ensures r.Success? ==> r.value.percent <= 100
    ensures r.Success? ==> (r.value.percent == 100 <==> r.value.completed == r.value.total)
    ensures r.Success? ==> r.value.workflowId == s.workflowId && r.value.currentPhase == s.currentPhase
    ensures r.Success? ==> ListsTasks(r.value.listing, s.tasks)
  {
    var total := |s.tasks|;
    if total == 0 then Failure(DivisionByZero)
    else
      var completed := CountStatus(s.tasks, Completed);
      var skipped := CountStatus(s.tasks, Skipped);
      CountPartition(s.tasks);
      Success(Report(s.workflowId, s.currentPhase, total, completed, skipped,
                     total - completed - skipped, Percent(completed, total), StatusListing(s.tasks)))
  }

  /** Floor division by the task count puts the percentage in 0..100 and makes
      it 100 exactly when every task is completed. */
  lemma PercentBounds(completed: nat, total: nat)
    requires 0 < total && completed <= total
    ensures 100 * completed / total <= 100
    ensures 100 * completed / total == 100 <==> completed == total
    ensures (100 * completed / total) * total <= 100 * completed < (100 * completed / total + 1) * total
  {
    var n := 100 * completed;
    var p := n / total;
    var q := n % total;
    assert n == p * total + q && 0 <= q < total;
    assert (p + 1) * total == p * total + total;
    assert n <= 100 * total;
    if p > 100 {
      MulMonotone(101, p, total);
      assert false;
    }
    if completed < total {
      assert n < 100 * total;
      if p == 100 {
        assert false;
      }
    } else {
      if p < 100 {
        MulMonotone(p + 1, 100, total);
        assert false;
      }
    }
  }

  lemma MulMonotone(a: int, b: int, t: nat)
    requires a <= b
    ensures a * t <= b * t
  {
  }
}
