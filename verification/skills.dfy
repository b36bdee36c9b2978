/** The `TASKS` dictionaries of the three skill files, as catalogs the
    renderers of `Render` work on, and facts about what they produce for them.
    The `body` and `expect` dictionaries of live tests appear as the text of
    their Python `repr`, which is what the f-strings print. */
module Skills {
  import opened Wrappers
  import opened Text
  import opened Render
  import RenderProps

  /** A check with only its mandatory keys and `type`. */
  function Plain(id: string, action: string, validation: string, kind: string): (r: CheckSpec) {
    CheckSpec(id, action, validation, Some(kind), None, [], None, [])
  }

  /** A task definition with an estimated time. */
  function Def(title: string, description: string, time: string, checks: seq<CheckSpec>,
                deps: seq<string>, onFailure: Option<string>): (r: TaskDef) {
    TaskDef(title, description, Some(time), checks, deps, onFailure)
  }

  // ---------------------------------------------------------------------
  // skills/phase_1_setup.py
  // ---------------------------------------------------------------------

  const InitTask: TaskDef := Def(
    "Initialize Project Structure",
    "Create the basic project structure and verify all required directories exist.",
    "5 minutes",
    [ Plain("1.1.1", "Verify project root directory exists",
            "Directory should be accessible and writable", "filesystem"),
      Plain("1.1.2", "Check for package.json or equivalent config",
            "File should contain name, version, and dependencies", "filesystem"),
      Plain("1.1.3", "Verify .gitignore is configured",
            "Should exclude node_modules, .env, and build artifacts", "filesystem") ],
    [],
    Some("Create missing files/directories as needed"))

  const EnvTask: TaskDef := Def(
    "Configure Environment Variables",
    "Set up environment configuration for development and testing.",
    "10 minutes",
    [ Plain("1.2.1", "Create .env.example with all required variables",
            "Should list all env vars with placeholder values", "filesystem"),
      Plain("1.2.2", "Verify .env is in .gitignore",
            ".env should never be committed", "filesystem"),
      Plain("1.2.3", "Test environment variable loading",
            "Application should start without missing env errors", "runtime") ],
    ["1.1"],
    Some("Document which variables are missing"))

  const DepsTask: TaskDef := Def(
    "Validate Dependencies",
    "Ensure all project dependencies are installed and compatible.",
    "5 minutes",
    [ Plain("1.3.1", "Run dependency installation",
            "No errors during npm install / pip install", "command").(command := Some("npm install")),
      Plain("1.3.2", "Check for security vulnerabilities",
            "No high/critical vulnerabilities", "command").(command := Some("npm audit")),
      Plain("1.3.3", "Verify lock file is committed",
            "package-lock.json or equivalent exists in git", "filesystem") ],
    ["1.1"],
    Some("Fix vulnerabilities or document exceptions"))

  const SetupTasks: Catalog := [("1.1", InitTask), ("1.2", EnvTask), ("1.3", DepsTask)]

  // ---------------------------------------------------------------------
  // skills/phase_2_build.py
  // ---------------------------------------------------------------------

  const LoginTest: LiveTest := LiveTest(
    Some("POST"), Some("{{API_URL}}/api/auth/login"),
    Some("{'email': '{{TEST_EMAIL}}', 'password': '{{TEST_PASSWORD}}'}"),
    Some("{'status': 200, 'body_contains': ['token']}"))

  /** The `headers` key of the items tests is not printed and has no field. */
  const ListItemsTest: LiveTest := LiveTest(
    Some("GET"), Some("{{API_URL}}/api/items"), None,
    Some("{'status': 200, 'body_type': 'array'}"))

  const AuthTask: TaskDef := Def(
    "Implement User Authentication",
    "Set up user authentication flow including login, logout, and session management.",
    "30 minutes",
    [ Plain("2.1.1", "Verify auth endpoint exists",
            "POST /api/auth/login returns 200 with valid credentials", "http").(liveTest := Some(LoginTest)),
      Plain("2.1.2", "Test invalid credentials rejection",
            "POST /api/auth/login returns 401 with invalid credentials", "http").(liveTest := Some(LiveTest(
              Some("POST"), Some("{{API_URL}}/api/auth/login"),
              Some("{'email': 'wrong@test.com', 'password': 'wrongpass'}"),
              Some("{'status': 401}")))),
      Plain("2.1.3", "Verify JWT token structure",
            "Token should be valid JWT with user ID claim", "code_review")
        .(keyFiles := ["src/auth/jwt.ts", "src/middleware/auth.ts"]) ],
    ["1.3"],
    None)

  const ModelsTask: TaskDef := Def(
    "Build Data Models",
    "Create database models and migrations for core entities.",
    "20 minutes",
    [ Plain("2.2.1", "Review model definitions",
            "Models should have proper types and relationships", "code_review")
        .(keyFiles := ["src/models/", "prisma/schema.prisma"]),
      Plain("2.2.2", "Run database migrations",
            "Migrations apply without errors", "command").(command := Some("npx prisma migrate dev")),
      Plain("2.2.3", "Verify seed data loads",
            "Seed script creates test data successfully", "command").(command := Some("npx prisma db seed")) ],
    ["1.2", "1.3"],
    None)

  const EndpointsTask: TaskDef := Def(
    "Implement API Endpoints",
    "Create REST API endpoints for CRUD operations.",
    "45 minutes",
    [ Plain("2.3.1", "GET /api/items returns list",
            "Returns 200 with array of items", "http").(liveTest := Some(ListItemsTest)),
      Plain("2.3.2", "POST /api/items creates item",
            "Returns 201 with created item", "http").(liveTest := Some(LiveTest(
              Some("POST"), Some("{{API_URL}}/api/items"),
              Some("{'name': 'Test Item', 'description': 'Created by E2E test'}"),
              Some("{'status': 201, 'body_contains': ['id', 'name']}")))),
      Plain("2.3.3", "Unauthorized requests rejected",
            "Returns 401 without auth header", "http").(liveTest := Some(LiveTest(
              Some("GET"), Some("{{API_URL}}/api/items"), None, Some("{'status': 401}")))) ],
    ["2.1", "2.2"],
    None)

  const FrontendTask: TaskDef := Def(
    "Frontend Integration",
    "Connect frontend to API and verify UI renders correctly.",
    "30 minutes",
    [ Plain("2.4.1", "Homepage loads without errors",
            "GET / returns 200, no console errors", "http").(liveTest := Some(LiveTest(
              Some("GET"), Some("{{FRONTEND_URL}}/"), None, Some("{'status': 200}")))),
      Plain("2.4.2", "Login form submits successfully",
            "User can log in via UI", "ui")
        .(steps := ["Navigate to /login", "Enter test credentials", "Click submit",
                    "Verify redirect to dashboard"]),
      Plain("2.4.3", "API calls work from frontend",
            "Network tab shows successful API requests", "ui")
        .(steps := ["Open browser dev tools", "Navigate to items page", "Verify /api/items call succeeds"]) ],
    ["2.3"],
    None)

  const BuildTasks: Catalog := [("2.1", AuthTask), ("2.2", ModelsTask), ("2.3", EndpointsTask), ("2.4", FrontendTask)]

  // ---------------------------------------------------------------------
  // skills/phase_3_test.py
  // ---------------------------------------------------------------------

  const ReviewSteps: seq<string> := [
    "Run: python tools/workflow.py history",
    "Verify all tasks have completion summaries",
    "Note any issues or follow-ups needed"
  ]

  const ReviewCheck: CheckSpec :=
    Plain("3.2.2", "Review all completed tasks", "All task summaries are documented", "manual")
      .(steps := ReviewSteps)

  const SuiteTask: TaskDef := Def(
    "Run Full Test Suite",
    "Execute all automated tests and verify passing status.",
    "15 minutes",
    [ Plain("3.1.1", "Run unit tests", "All unit tests pass", "command")
        .(command := Some("npm run test:unit")),
      Plain("3.1.2", "Run integration tests", "All integration tests pass", "command")
        .(command := Some("npm run test:integration")),
      Plain("3.1.3", "Check test coverage", "Coverage meets minimum threshold (80%)", "command")
        .(command := Some("npm run test:coverage")) ],
    ["2.4"],
    None)

  const SignOffTask: TaskDef := Def(
    "Final Validation & Sign-off",
    "Complete final checks and document any known issues.",
    "10 minutes",
    [ Plain("3.2.1", "Verify production build succeeds", "Build completes without warnings", "command")
        .(command := Some("npm run build")),
      ReviewCheck,
      Plain("3.2.3", "Document known issues", "KNOWN_ISSUES.md is up to date", "manual")
        .(steps := ["Create/update KNOWN_ISSUES.md", "List any bugs or limitations discovered",
                    "Add workarounds if available"]) ],
    ["3.1"],
    None)

  const TestTasks: Catalog := [("3.1", SuiteTask), ("3.2", SignOffTask)]

  // ---------------------------------------------------------------------
  // What the renderers produce for these catalogs
  // ---------------------------------------------------------------------

  /** `get_task_ids` of the setup file lists its tasks in declaration
      order. */
  lemma SetupIds()
    ensures TaskIds(SetupTasks) == ["1.1", "1.2", "1.3"]
  {
  }

  /** The same for the build file. */
  lemma BuildIds()
    ensures TaskIds(BuildTasks) == ["2.1", "2.2", "2.3", "2.4"]
  {
  }

  /** The same for the test file. */
  lemma TestIds()
    ensures TaskIds(TestTasks) == ["3.1", "3.2"]
  {
  }

  /** An id of another file is unknown to the setup file, which answers with
      its own not-found message. */
  lemma SetupUnknownId()
    ensures GetInstructions(Setup, SetupTasks, "2.1") == NotFoundMessage(Setup, "2.1")
    ensures TaskSummary(SetupTasks, "2.1") == "Task 2.1 not found"
  {
    RenderProps.TaskIdsMatchLookup(SetupTasks);
    SetupIds();
    assert "2.1" !in TaskIds(SetupTasks);
  }

  /** `get_task_summary` names a known task by its id and title. */
  lemma SetupSummary()
    ensures TaskSummary(SetupTasks, "1.2") == "1.2" + ": " + "Configure Environment Variables"
  {
    RenderProps.TaskIdsMatchLookup(SetupTasks);
    SetupIds();
    assert SetupTasks[1] == ("1.2", EnvTask);
    assert Lookup(SetupTasks, "1.2") == Some(EnvTask);
  }

  /** Task 1.1 has no dependencies, so its text has no Dependencies section
      and ends with its On Failure advice. */
  lemma SetupTails()
    ensures
      var lines := InstructionLines(Setup, "1.1", InitTask);
      lines[|lines| - 2] == "## On Failure"
      && lines[|lines| - 1] == "Create missing files/directories as needed"
      && |lines| == 9 + |ChecksLines(Setup, InitTask.checks)| + 3
  {
    RenderProps.TailShape(Setup, "1.1", InitTask);
  }

  /** The build renderer prints the login test's body and expectation; the
      item-listing test has an expectation but no body, so it gets an Expect
      line and no Body line. */
  lemma BuildLiveTests()
    ensures RenderProps.HasLineStarting(CheckBlock(Build, BuildTasks[0].1.checks[0]), BodyPrefix)
    ensures RenderProps.HasLineStarting(CheckBlock(Build, BuildTasks[0].1.checks[0]), ExpectPrefix)
    ensures !RenderProps.HasLineStarting(CheckBlock(Build, BuildTasks[2].1.checks[0]), BodyPrefix)
    ensures RenderProps.HasLineStarting(CheckBlock(Build, BuildTasks[2].1.checks[0]), ExpectPrefix)
  {
    assert BuildTasks[0].1.checks[0].liveTest == Some(LoginTest);
    assert BuildTasks[2].1.checks[0].liveTest == Some(ListItemsTest);
    RenderProps.BodyExpectIff(Build, BuildTasks[0].1.checks[0]);
    RenderProps.BodyExpectIff(Build, BuildTasks[2].1.checks[0]);
  }

  /** Three steps are numbered 1, 2 and 3. */
  lemma ThreeSteps(x: string, y: string, z: string)
    ensures NumberedSteps([x, y, z]) == ["  1. " + x, "  2. " + y, "  3. " + z]
  {
    RenderProps.StepsNumbered([x, y, z]);
    assert NatToString(1) == "1" && NatToString(2) == "2" && NatToString(3) == "3";
    assert "  " + "1" + ". " + x == "  1. " + x;
    assert "  " + "2" + ". " + y == "  2. " + y;
    assert "  " + "3" + ". " + z == "  3. " + z;
  }

  /** The test renderer numbers the review steps 1 to 3; the setup renderer
      prints no steps for the same check. */
  lemma TestSteps()
    ensures StepsLines(Test, ReviewCheck) == [
      "- **Steps:**",
      "  1. " + ReviewSteps[0],
      "  2. " + ReviewSteps[1],
      "  3. " + ReviewSteps[2] ]
    ensures StepsLines(Setup, ReviewCheck) == []
  {
    ThreeSteps(ReviewSteps[0], ReviewSteps[1], ReviewSteps[2]);
    assert ReviewCheck.steps == [ReviewSteps[0], ReviewSteps[1], ReviewSteps[2]];
  }
}
