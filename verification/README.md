# State-machine skills: workflow router and skill renderers

This project models the core of the state-machine skills workflow. It covers two parts.

The first part is the command router `example/tools/workflow.py`. It keeps a state document: a list of tasks, each with a status of pending, completed or skipped. It also keeps a session history and an `updated_at` stamp. It answers five commands:

- `next`: offer the first pending task, unless a phase change into a phase that requires approval halts it;
- `status`: counts, a floor percentage and a phase-grouped listing;
- `complete`: mark a task completed and log a history record;
- `skip`: mark a task skipped;
- `reset`: put every task back to pending.

The second part is the three skill files `skills/phase_1_setup.py`, `skills/phase_2_build.py` and `skills/phase_3_test.py`. Each holds a `TASKS` catalog and renders one task as markdown on demand (`get_instructions`). Each lists its task ids (`get_task_ids`). The setup file also offers a one-line summary (`get_task_summary`).

Modules:

- `Wrappers` (wrappers.dfy): `Option`, `Result`, and Python truthiness of an optional string.
- `Text` (text.dfy): first-match search, Python's `join`, `split` and `str(n)`. It proves that splitting joined lines gives them back, and that `str(n)` reads back as `n`.
- `Workflow` (workflow.dfy): the state document and the five commands as pure functions, with the shape of the `status` listing.
  - `next` and `status` return no state, so they cannot change the document.
  - `complete`, `skip` and `reset` return an outcome and the new state.
  - Clock reads are parameters.
- `WorkflowProps` (workflow_props.dfy): properties relating several commands. These are:
  - progress of `next` after `complete` and after `skip`;
  - how the counts move;
  - `reset` idempotence and restart;
  - worked examples.
- `Render` (render.dfy): the three `get_instructions` functions as one renderer, parameterised by a `Variant` that says which optional fields a file prints.
  - The layout is declarative (`InstructionLines`).
  - The two loops of the source, over the checks and over a check's steps, are methods proved to build exactly that layout.
  - A catalog's keys are distinct, as a dictionary literal's are.
- `RenderProps` (render_props.dfy): where each check block sits, and which optional line appears under exactly which condition. Also step numbering, the closing sections, and how ids relate to the catalog.
- `Skills` (skills.dfy): the three `TASKS` catalogs as data, with facts about what the renderers produce for them.

Behaviour of the code that the model follows:

- `next` tests the phase gate against the task just before the first pending task by position, whatever that task's status. It consults only the first configuration entry for the phase.
- The `get_instructions` branch of `cmd_next` (example/tools/workflow.py:91-99) is never taken. It looks for `get_instructions` in `dir()` of a module object that has not been executed. So the guidance `next` shows is always the loaded skill's steps and checks, or nothing.
- `complete` does not look at the prior status. Completing a completed task again rewrites its summary and time and logs another record.
- `skip` sets the summary to `Skipped` but leaves `completed_at` as it was, so a task completed earlier keeps its completion time after a skip.
- `status` counts as pending every task that is neither completed nor skipped, including statuses outside the three known ones. It raises on an empty task list: that case is the `DivisionByZero` failure.
- No command changes `current_phase`.
- `complete` and `skip` act on the first task with the given id only. Progress of `next` therefore needs distinct ids, and `DuplicateIdsRepeat` shows what happens without them.
- The setup file's not-found message begins with U+00E2 U+0152. These are the first and last of the cross mark U+274C's three UTF-8 bytes (E2 9D 8C) read as Windows-1252; the middle byte 0x9D has no Windows-1252 character and was dropped. The other two files use U+274C itself.

## Model

| member | source | states |
|---|---|---|
| Text.SplitJoin | skills/phase_1_setup.py:137 | joining lines free of newlines with `"\n"` and splitting the text again gives back exactly those lines, so the rendered text and its line list carry the same content |
| Text.NatToString | skills/phase_2_build.py:212 | a step number prints as at least one decimal digit, with a leading zero only for zero itself |
| Text.ParseNatToString | skills/phase_2_build.py:211-212 | the decimal digits printed for a step number read back as that number, so distinct step numbers print differently |
| Workflow.FirstPending | example/tools/workflow.py:66-67 | finds the first task whose status is pending, and finds none exactly when no task is pending |
| Workflow.FindTask | example/tools/workflow.py:143-144 | finds the first task carrying the id, and finds none exactly when no task carries it |
| Workflow.FindPhase | example/tools/workflow.py:72-75 | finds the first configuration entry for a phase id, and finds none exactly when there is no entry |
| Workflow.Gate | example/tools/workflow.py:69-80 | a task is halted exactly when it is not the first, its predecessor by position is in another phase, and the first configuration entry of its own phase requires approval |
| Workflow.Next | example/tools/workflow.py:60-111 | all-done exactly when no task is pending; otherwise the first pending task is offered with the guidance of its skill file, or the command halts exactly when that task is gated, naming the phase left and the phase entered |
| Workflow.Complete | example/tools/workflow.py:139-161 | an unknown id changes nothing; otherwise only the first task with the id changes. It becomes completed with the summary and completion time while its identity is kept. One `completed` record is appended to the history, `updated_at` is stamped, and the other fields stay |
| Workflow.Skip | example/tools/workflow.py:163-175 | an unknown id changes nothing; otherwise only the first task with the id becomes skipped with summary `Skipped`, its completion time and the history stay, and `updated_at` is stamped |
| Workflow.Reset | example/tools/workflow.py:178-190 | every task keeps its identity and position and becomes pending with no summary and no completion time; the history is emptied, the cursor set to 0 and `updated_at` stamped |
| Workflow.CountPartition | example/tools/workflow.py:117-120 | every task is counted exactly once as completed, skipped or pending |
| Workflow.StatusReport | example/tools/workflow.py:114-136 | fails exactly for an empty task list; otherwise it reports the workflow id and current phase of the document, the completed, skipped and pending counts add up to the total, the percentage is the floor of 100·completed/total, at most 100, and 100 exactly when every task is completed, and the listing is each task's row in order, each row preceded by a heading naming the task's phase exactly when it is the first task or its phase differs from the previous task's |
| Workflow.PercentBounds | example/tools/workflow.py:123 | floor division of 100·completed by the total stays within 0..100 and reaches 100 exactly when completed equals the total |
| WorkflowProps.FirstTaskNeverGated | example/tools/workflow.py:69 | a pending first task is always offered, whatever the configuration says about its phase |
| WorkflowProps.UnconfiguredPhaseNeverGates | example/tools/workflow.py:72-76 | a phase with no configuration entry never halts `next` |
| WorkflowProps.GateHalts | example/tools/workflow.py:69-80 | a phase change into a phase whose first entry requires approval halts `next` with that phase's name and both phase ids |
| WorkflowProps.CompleteAdvances | example/tools/workflow.py:139-147 | with distinct ids, completing the task `next` offered makes the following `next` finish, halt, or offer a later task that has a different id |
| WorkflowProps.SkipAdvances | example/tools/workflow.py:167-170 | the same progress after skipping the offered task |
| WorkflowProps.CompleteNeverReturnsId | example/tools/workflow.py:139-161 | with distinct ids, once any id is completed, `next` never offers a task with that id (whether or not the id was known) |
| WorkflowProps.SkipNeverReturnsId | example/tools/workflow.py:163-175 | with distinct ids, once any id is skipped, `next` never offers a task with that id |
| WorkflowProps.DuplicateIdsRepeat | example/tools/workflow.py:143-147 | with two tasks of the same id, completing that id leaves the second one pending and `next` offers the same id again |
| WorkflowProps.CountUpdate | example/tools/workflow.py:118-119 | replacing one task moves a status count by the difference of the old and new task's contributions |
| WorkflowProps.CompleteCountsOne | example/tools/workflow.py:143-155 | completing a task that was not completed raises the completed count by one |
| WorkflowProps.RecompleteCountsNothing | example/tools/workflow.py:143-155 | completing an already completed task leaves the completed count unchanged but still appends a record |
| WorkflowProps.AllPendingCounts | example/tools/workflow.py:117-120 | when every task is pending, nothing counts as completed or skipped and all count as pending |
| WorkflowProps.ResetIdempotent | example/tools/workflow.py:178-190 | resetting twice gives the same document as resetting once, up to the save's time stamp |
| WorkflowProps.ResetRestartsNext | example/tools/workflow.py:178-190 | after a reset of a non-empty workflow, `next` offers the first task |
| WorkflowProps.ResetRestartsStatus | example/tools/workflow.py:114-124 | after a reset, `status` reports nothing completed or skipped, every task pending and 0% |
| Workflow.ListingShape | example/tools/workflow.py:128-136 | the listing is, task by task in order, a heading naming the task's phase when that phase differs from the one shown last, then the task's row; so it has one row per task and one heading for the first task (unless its phase is already shown) plus one at every change of phase between neighbours |
| WorkflowProps.SetupWalkthrough | example/tools/workflow.py:139-147 | three setup tasks: `next` offers 1.1, and after `complete 1.1` it offers 1.2 |
| WorkflowProps.SetupStatus | example/tools/workflow.py:117-123 | after `complete 1.1` of three tasks, `status` reports 1 of 3 completed, which is 33% |
| WorkflowProps.GateWalkthrough | example/tools/workflow.py:69-80 | tasks in phases A, A, B with B gated: after both A tasks are completed, `next` halts with the A-to-B approval request |
| Render.AppendSteps | skills/phase_2_build.py:209-212 | the `enumerate(steps, 1)` loop appends one numbered line per step |
| Render.AppendChecks | skills/phase_2_build.py:187-212 | the check loop appends the blocks of all checks in declared order |
| Render.Lookup | skills/phase_1_setup.py:103 | `TASKS.get(task_id)` finds nothing exactly when no key equals the id, and otherwise returns an entry declared under that id |
| Render.GetInstructions | skills/phase_2_build.py:169-219 | an unknown id yields the file's not-found message; for a known id whose lines hold no newline, splitting the text at newlines gives exactly the laid-out lines |
| Render.TaskSummary | skills/phase_1_setup.py:145-150 | `Task <id> not found` for an unknown id, otherwise the id and the task's title |
| RenderProps.HeaderShape | skills/phase_1_setup.py:107-117 | the text opens with nine fixed lines: the title, a blank line, the id, the estimate (default `Unknown`), a blank line, the Description heading, the description, a blank line and the Checks heading |
| RenderProps.CheckBlockAt | skills/phase_1_setup.py:119-125 | the lines of check k are exactly its block, placed right after the blocks of the checks before it, and the next check's block follows right after, so the checks appear once each in declared order |
| RenderProps.BlockOpening | skills/phase_1_setup.py:120-123 | every check's block, in every file, opens with a blank line, its `[id] action` heading, its type (default `manual`) and its validation |
| RenderProps.CommandLineIff | skills/phase_3_test.py:103-104 | a check block has a Command line exactly when the check's command is non-empty, in all three files |
| RenderProps.KeyFilesLineIff | skills/phase_2_build.py:196-197 | a check block has a Key Files line exactly for the build file and a non-empty list, and that line is the files joined by `, ` |
| RenderProps.LiveTestIff | skills/phase_2_build.py:199-203 | a check block has a Live Test block exactly for the build file and a check with a live test |
| RenderProps.BodyExpectIff | skills/phase_2_build.py:204-207 | the Body line, and likewise the Expect line, appears exactly when the build file shows a live test that has that value |
| RenderProps.StepsIff | skills/phase_3_test.py:106-109 | a check block has a Steps list exactly for the build or test file and a check with steps; the setup file never prints steps |
| RenderProps.LiveTestShape | skills/phase_2_build.py:201-207 | a live test prints the Live Test heading, its method (default GET) and a URL line with `None` for a missing URL, then the Body line holding the body in backticks right after the URL when there is a body, and last the Expect line holding the expectation when there is one; no other line |
| RenderProps.BlockLayout | skills/phase_2_build.py:187-212 | a check's block holds its four fixed lines, then the Command line, the Key Files line, the Live Test lines and the Steps list in that order, each exactly when its condition holds (a non-empty command; Build with key files; Build with a live test; Build or Test with steps), and nothing else |
| RenderProps.BlockEndsWithSteps | skills/phase_2_build.py:209-212 | in Build and Test, a check with steps ends with the Steps heading followed by the steps numbered from 1 in the order given |
| RenderProps.StepsNumbered | skills/phase_2_build.py:209-212 | step i is printed as `  <i+1>. <step>`, one line per step, in order |
| RenderProps.TailShape | skills/phase_1_setup.py:127-135 | the Dependencies section follows the checks exactly when there are dependencies, listing them joined by `, `; the On Failure section ends the text exactly for the setup file and a non-empty `on_failure`; the build and test files never print it |
| RenderProps.TaskIdsMatchLookup | skills/phase_1_setup.py:140-142 | `get_task_ids` lists exactly the ids `get_instructions` knows, one per entry in declared order, and each listed id finds its own entry |
| RenderProps.InstructionsText | skills/phase_3_test.py:116 | the returned text of a known task splits back into its laid-out lines, at least the nine header lines |
| Skills.SetupIds | skills/phase_1_setup.py:140-142 | the setup file's ids are 1.1, 1.2, 1.3, in that order |
| Skills.BuildIds | skills/phase_2_build.py:222-224 | the build file's ids are 2.1 to 2.4, in that order |
| Skills.TestIds | skills/phase_3_test.py:119-121 | the test file's ids are 3.1 and 3.2, in that order |
| Skills.SetupUnknownId | skills/phase_1_setup.py:103-105 | the setup file does not know id 2.1, answering `get_instructions` with its own not-found message and `get_task_summary` with `Task 2.1 not found` |
| Skills.SetupSummary | skills/phase_1_setup.py:145-150 | the setup file summarises task 1.2 as `1.2: Configure Environment Variables` |
| Skills.SetupTails | skills/phase_1_setup.py:34-35 | task 1.1 has no dependencies, so its text has no Dependencies section and ends with its On Failure advice |
| Skills.BuildLiveTests | skills/phase_2_build.py:19-24 | the login check shows both a Body and an Expect line; the item-listing check has an expectation but no body, so it gets an Expect line and no Body line |
| Skills.ThreeSteps | skills/phase_3_test.py:108-109 | a list of three steps is printed as lines numbered `1.`, `2.` and `3.` in order |
| Skills.TestSteps | skills/phase_3_test.py:106-109 | the review check's steps are printed numbered 1 to 3 by the test file, and the setup renderer would print none for it |

## Left out

- File input and output: loading and saving the JSON documents, and the argparse entry point. The state and configuration are passed in as values, and the new state is returned. The save's clock read is a parameter, as are the two other clock reads of `complete`.
- Console output: `next` and `status` return what they would print as data. These are a result value, a report record and listing lines. The wording, the emoji, the status icons and the upper-casing of phase headings are not modelled.
- Loading skills: finding the file by base name under the library directory and executing it with `importlib` are not modelled. They are replaced by a map from a task's `skill_file` to the skill's steps and checks. A missing key stands for a missing file, a module without `SKILL`, or an empty `SKILL`.
- The library skill files `example/library/*.py` are data for `next` and are not part of this model.
- The `approve-phase` command that `next` suggests does not exist in the router, so nothing models approving a phase.
- Malformed documents: a missing key (`KeyError`) or a wrong value type is out of scope. Statuses other than the three known ones are modelled, as `Unrecognised` carrying a text that is none of `pending`, `completed` and `skipped`.
- Python `repr` of the live tests' `body` and `expect` dictionaries: these are carried as the text that `repr` prints. An empty dictionary is falsy in the source and is modelled as an absent value. The `headers` key is never printed and has no field.
- Workflow.Next: dependencies between tasks are not enforced by the source, so the model does not enforce them either.
- Render.GetInstructions: the round trip from text to lines is stated only for lines without a newline character, which holds for every text in the three catalogs.
