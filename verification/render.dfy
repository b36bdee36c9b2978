/** The instruction renderers of `skills/phase_1_setup.py`,
    `skills/phase_2_build.py` and `skills/phase_3_test.py`. The three
    `get_instructions` functions share one layout and differ only in which
    optional fields of a check or task they print, so they are modelled as one
    renderer parameterised by a `Variant`. Optional dictionary keys are `Option`
    values or empty lists; Python truthiness decides what is printed. */
module Render {
  import opened Wrappers
  import opened Text

  /** A check's `live_test` dictionary. `verb` is its `method` key and
      `expected` its `expect` key; `body` and `expected` hold the Python `repr`
      of their dictionaries, `None` standing for a missing or empty one. A
      `live_test` dictionary with none of these keys (only `headers`, say) is
      `Some(LiveTest(None, None, None, None))`. */
  datatype LiveTest = LiveTest(verb: Option<string>, url: Option<string>, body: Option<string>, expected: Option<string>)

  /** One entry of a task's `checks`; `kind` is the `type` key. Missing
      `key_files` and `steps` are empty lists; a missing or empty `live_test`
      is `None`. */
  datatype CheckSpec = CheckSpec(
    id: string,
    action: string,
    validation: string,
    kind: Option<string>,
    command: Option<string>,
    keyFiles: seq<string>,
    liveTest: Option<LiveTest>,
    steps: seq<string>)

  /** One value of a skill file's `TASKS` dictionary. */
  datatype TaskDef = TaskDef(
    title: string,
    description: string,
    estimatedTime: Option<string>,
    checks: seq<CheckSpec>,
    dependencies: seq<string>,
    onFailure: Option<string>)

  /** The `TASKS` dictionary: its entries in declaration order, each key
      once. */
  type Catalog = c: seq<(string, TaskDef)> | UniqueKeys(c)

  /** Which skill file's `get_instructions` is meant. */
  datatype Variant = Setup | Build | Test

  predicate ShowsKeyFiles(v: Variant) { v == Build }
  predicate ShowsLiveTest(v: Variant) { v == Build }
  predicate ShowsSteps(v: Variant) { v == Build || v == Test }
  predicate ShowsOnFailure(v: Variant) { v == Setup }

  function SourceName(v: Variant): (r: string) {
    match v
    case Setup => "phase_1_setup.py"
    case Build => "phase_2_build.py"
    case Test => "phase_3_test.py"
  }

  /** The not-found message. The setup file's mark is the cross mark U+274C
      whose UTF-8 bytes were read as Windows-1252, leaving the two characters
      U+00E2 U+0152; the other two files carry U+274C itself. */
  function NotFoundMessage(v: Variant, id: string): (r: string) {
    (if v == Setup then "\U{E2}\U{152}" else "\U{274C}") + " Task " + id + " not found in " + SourceName(v)
  }

  // ---------------------------------------------------------------------
  // The lines of one rendering
  // ---------------------------------------------------------------------

  function HeaderLines(id: string, d: TaskDef): (r: seq<string>) {
    [ "# " + d.title,
      "",
      "**Task ID:** " + id,
      "**Estimated Time:** " + d.estimatedTime.GetOr("Unknown"),
      "",
      "## Description",
      d.description,
      "",
      "## Checks" ]
  }

  const CommandPrefix := "- **Command:** `"
  const KeyFilesPrefix := "- **Key Files:** "
  const LiveTestHeading := "- **Live Test:**"
  const MethodPrefix := "  - Method: "
  const UrlPrefix := "  - URL: `"
  const BodyPrefix := "  - Body: `"
  const ExpectPrefix := "  - Expect: "
  const StepsHeading := "- **Steps:**"

  function HeadingLine(c: CheckSpec): (r: string) {
    "### [" + c.id + "] " + c.action
  }

  function CommandLines(c: CheckSpec): (r: seq<string>) {
    if Truthy(c.command) then [CommandPrefix + c.command.value + "`"] else []
  }

  function KeyFilesLines(v: Variant, c: CheckSpec): (r: seq<string>) {
    if ShowsKeyFiles(v) && |c.keyFiles| > 0 then [KeyFilesPrefix + Join(c.keyFiles, ", ")] else []
  }

  function LiveTestBlock(lt: LiveTest): (r: seq<string>) {
    [ LiveTestHeading,
      MethodPrefix + lt.verb.GetOr("GET"),
      UrlPrefix + lt.url.GetOr("None") + "`" ]
    + (if lt.body.Some? then [BodyPrefix + lt.body.value + "`"] else [])
    + (if lt.expected.Some? then [ExpectPrefix + lt.expected.value] else [])
  }

  function LiveTestLines(v: Variant, c: CheckSpec): (r: seq<string>) {
    if ShowsLiveTest(v) && c.liveTest.Some? then LiveTestBlock(c.liveTest.value) else []
  }

  /** Step number `n` as `enumerate(steps, 1)` prints it. */
  function StepLine(n: nat, step: string): (r: string) {
    "  " + NatToString(n) + ". " + step
  }

  function NumberedSteps(steps: seq<string>): (r: seq<string>)
    ensures |r| == |steps|
  {
    if |steps| == 0 then []
    else NumberedSteps(steps[..|steps| - 1]) + [StepLine(|steps|, steps[|steps| - 1])]
  }

  function StepsLines(v: Variant, c: CheckSpec): (r: seq<string>) {
    if ShowsSteps(v) && |c.steps| > 0 then [StepsHeading] + NumberedSteps(c.steps) else []
  }

  /** The four lines every check gets: a blank line, the heading, the type
      (default `manual`) and the validation. */
  function FixedLines(c: CheckSpec): (r: seq<string>) {
    [ "",
      HeadingLine(c),
      "- **Type:** " + c.kind.GetOr("manual"),
      "- **Validation:** " + c.validation ]
  }

  /** The lines printed for one check: the fixed lines, then the optional
      blocks in their fixed order. */
  function CheckBlock(v: Variant, c: CheckSpec): (r: seq<string>) {
    FixedLines(c) + CommandLines(c) + KeyFilesLines(v, c) + LiveTestLines(v, c) + StepsLines(v, c)
  }

  function ChecksLines(v: Variant, cs: seq<CheckSpec>): (r: seq<string>) {
    if |cs| == 0 then []
    else ChecksLines(v, cs[..|cs| - 1]) + CheckBlock(v, cs[|cs| - 1])
  }

  function DependencyLines(deps: seq<string>): (r: seq<string>) {
    if |deps| > 0 then ["", "## Dependencies", "Complete these first: " + Join(deps, ", ")] else []
  }

  function FailureLines(v: Variant, d: TaskDef): (r: seq<string>) {
    if ShowsOnFailure(v) && Truthy(d.onFailure) then ["", "## On Failure", d.onFailure.value] else []
  }

  /** The `lines` list `get_instructions` builds for a known task. */
  function InstructionLines(v: Variant, id: string, d: TaskDef): (r: seq<string>) {
    HeaderLines(id, d) + ChecksLines(v, d.checks) + DependencyLines(d.dependencies) + FailureLines(v, d)
  }

  /** `for i, step in enumerate(steps, 1)`. */
  method AppendSteps(lines: seq<string>, steps: seq<string>) returns (out: seq<string>)
    ensures out == lines + NumberedSteps(steps)
  {
    out := lines;
    var i := 0;
    while i < |steps|
      invariant 0 <= i <= |steps|
      invariant out == lines + NumberedSteps(steps[..i])
    {
      assert steps[..i + 1][..i] == steps[..i];
      out := out + [StepLine(i + 1, steps[i])];
      i := i + 1;
    }
    assert steps[..i] == steps;
  }

  /** The `for check in task.get('checks', [])` loop. */
  method AppendChecks(v: Variant, lines: seq<string>, cs: seq<CheckSpec>) returns (out: seq<string>)
    ensures out == lines + ChecksLines(v, cs)
  {
    out := lines;
    var k := 0;
    while k < |cs|
      invariant 0 <= k <= |cs|
      invariant out == lines + ChecksLines(v, cs[..k])
    {
      assert cs[..k + 1][..k] == cs[..k];
      assert ChecksLines(v, cs[..k + 1]) == ChecksLines(v, cs[..k]) + CheckBlock(v, cs[k]);
      out := out + CheckBlock(v, cs[k]);
      AppendAssoc(lines, ChecksLines(v, cs[..k]), CheckBlock(v, cs[k]));
      k := k + 1;
    }
    assert cs[..k] == cs;
  }

  lemma AppendAssoc<T>(a: seq<T>, b: seq<T>, c: seq<T>)
    ensures a + (b + c) == (a + b) + c
  {
  }

  // ---------------------------------------------------------------------
  // The catalog: get_instructions, get_task_ids, get_task_summary
  // ---------------------------------------------------------------------

  /** Dictionary keys are distinct. */
  predicate UniqueKeys(c: seq<(string, TaskDef)>) {
    forall i, j :: 0 <= i < j < |c| ==> c[i].0 != c[j].0
  }

  /** `TASKS.get(task_id)`. */
  function Lookup(c: Catalog, id: string): (r: Option<TaskDef>)
    ensures r.None? <==> forall k :: 0 <= k < |c| ==> c[k].0 != id
    ensures r.Some? ==> exists k :: 0 <= k < |c| && c[k] == (id, r.value)
  {
    match FirstIndex(c, (e: (string, TaskDef)) => e.0 == id)
    case None => None
    case Some(k) => Some(c[k].1)
  }

  /** `get_task_ids`: `list(TASKS.keys())`. */
  function TaskIds(c: Catalog): (r: seq<string>) {
    seq(|c|, k requires 0 <= k < |c| => c[k].0)
  }

  /** `get_instructions`: the not-found message for an unknown id, otherwise
      the task's lines joined with newlines. */
  function GetInstructions(v: Variant, c: Catalog, id: string): (r: string)
    ensures Lookup(c, id).None? ==> r == NotFoundMessage(v, id)
    ensures Lookup(c, id).Some? && FreeOf(InstructionLines(v, id, Lookup(c, id).value), '\n') ==>
      Split(r, '\n') == InstructionLines(v, id, Lookup(c, id).value)
  {
    match Lookup(c, id)
    case None => NotFoundMessage(v, id)
    case Some(d) =>
      var lines := InstructionLines(v, id, d);
      assert FreeOf(lines, '\n') ==> Split(Join(lines, "\n"), '\n') == lines by {
        if FreeOf(lines, '\n') {
          SplitJoin(lines, '\n');
        }
      }
      Join(lines, "\n")
  }

  /** `get_task_summary` of the setup file. */
  function TaskSummary(c: Catalog, id: string): (r: string)
    ensures Lookup(c, id).None? ==> r == "Task " + id + " not found"
    ensures Lookup(c, id).Some? ==> r == id + ": " + Lookup(c, id).value.title
  {
    match Lookup(c, id)
    case None => "Task " + id + " not found"
    case Some(d) => id + ": " + d.title
  }
}
