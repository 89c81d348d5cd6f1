# CRUD project evaluator, modelled in Dafny

The evaluator grades a candidate CRUD project. It reads the project's
`README.json`, then runs a fixed sequence of weighted checks against the
candidate's code, accumulating points and human-readable detail lines in a
`Score`. It stops early at several gates and returns a report with the earned
score, the maximum reachable so far and the detail lines, or an error report
when the project description is unusable.

The checks and their weights:

1. file existence: the CRUD module (10) and the DB adapter file (10);
2. importing and instantiating the CRUD class (20);
3. presence of create, read, update and delete (5 each);
4. sandboxing the adapter's connection function (10);
5. a functional create/read/update/delete round trip (30);
6. an SQL injection probe (20);
7. a style check by an external linter (10).

The model has five modules:

- `Wrappers` (wrappers.dfy) holds the `Option` type.
- `Scoring` (scoring.dfy) holds the `Score` class and `Finalize`. `Score`
  keeps the source's three fields, `total`, `earned` and `details`. A ghost
  ledger of entries records every scored check and every unscored diagnostic
  line. The class invariant `Valid` says the three fields are the totals and
  the lines of that ledger.
- `Observations` (observations.dfy) describes everything the evaluator
  observes from the outside world as plain data:
  - the parsed manifest;
  - whether each file exists;
  - the error text of a failed import;
  - the attributes of the instance;
  - the outcome of each step of the functional test and of the injection
    probe;
  - the linter's exit.

  It also defines the verdicts of tests 5 to 7 as functions, and the columns
  of the table that the functional test declares.
- `Pipeline` (pipeline.dfy) contains `Evaluation`, the specification of a
  whole run, and `Evaluate`. `Evaluate` builds a `Score`, records the checks
  stage by stage with early returns, and is proved to produce `Evaluation`.
  A modelled run either returns a report or raises one of the uncaught
  exceptions that `Cause` lists.
- `PipelineProperties` (properties.dfy) proves, for every exit of the
  evaluator, the exact report it returns, plus overall bounds.

Behaviours of the code a reader may not expect, all reproduced in the model:

- The three diagnostic lines on the import, patch and runtime error paths add
  a detail without any points.
- The adapter check can earn its 10 points even when the CRUD module is
  missing, so a run that stops at the first gate can hold 10 of 20 points.
- All four method checks are scored before the gate checks any of them.
- Tests 5, 6 and 7 run regardless of each other's outcome.
- When the functional test raises before it binds the table name, the
  injection probe fails because of the unbound name. The probe's other
  outcomes are observed on their own. That also covers whatever the
  functional test left on the candidate object, such as the
  `conn_override` installed at eval.py:174.
- Setting the connection function on the adapter module can fail. It fails,
  for example, when the manifest's `db_connect_fn` is present but not a
  string, such as null, or when it names a read-only attribute such as
  `__dict__`. That outcome reaches the model as the `patchError`
  observation.
- The following calls are not guarded, so their exceptions escape
  `evaluate_project`:
  - the path join at eval.py:71 when `db_adapter` is missing: `Raised(AdapterPathUnset)`;
  - the adapter import at eval.py:136 when the adapter file is missing: `Raised(AdapterFileMissing)`;
  - the same import when the adapter's code raises: `Raised(AdapterLoadFailed(_))`;
  - a linter that fails to start for a reason other than being absent: `Raised(LinterFailed(_))`.

  A run that gets past the method gate therefore always has the adapter
  file, and scores at least 70 once it passes the sandbox step.

## Model

| member | source | states |
|---|---|---|
| Scoring.Score.constructor | eval.py:35-38 | a new score has total 0, earned 0, no details and an empty ledger |
| Scoring.Score.Add | eval.py:40-46 | total grows by the weight; earned grows by the weight exactly when the condition holds; one line is appended, "✔ " + success message or "❌ " + failure message; with a non-negative weight, 0 <= earned <= total is preserved |
| Scoring.Score.AppendDetail | eval.py:103 | an unscored detail line is appended; total and earned are unchanged (also used for eval.py:148 and eval.py:186) |
| Scoring.Finalize | eval.py:244-248 | the report is the earned points, the possible points and the lines of the whole ledger |
| Scoring.LedgerAppend | eval.py:40-46 | possible points, earned points, lines and the number of scored checks all add up over consecutive parts of a run |
| Scoring.LinesMatchEntries | eval.py:40-46 | every ledger entry, scored or not, contributes exactly one detail line |
| Scoring.EarnedWithinPossible | eval.py:35-46 | with non-negative weights, 0 <= earned <= total for any sequence of checks |
| Observations.FunctionalTest | eval.py:163-186 | the table name is the first declared table, or unbound when none is declared; the test passes exactly when no step raised, "id" is a sample key and read, update and delete all return truthy values; it raises exactly when one of its steps does; a raising test never passes (over the intended table, see Findings) |
| Observations.InjectionSafe | eval.py:198-213 | the probe passes only when the table survives; it fails when the table name is unbound or a step raises; otherwise it passes exactly when the table survives |
| Observations.LintClean | eval.py:225-229 | an absent linter counts as clean; otherwise the code is clean exactly when the exit status is 0 |
| Pipeline.Evaluate | eval.py:52-238 | the evaluator's run, with its early returns, is exactly the specified `Evaluation` |
| Pipeline.RunSandboxed | eval.py:136-238 | from the sandbox step on, the run raises when the adapter file is missing or its module raises on load, stops after a failed patch, raises when the linter cannot start, and otherwise records tests 4 to 7 |
| Pipeline.RecordFiles | eval.py:76-88 | the ledger grows by the CRUD module check and the adapter file check, 10 points each |
| Pipeline.RecordImport | eval.py:96-110 | the ledger grows by the diagnostic line (on failure) and the 20-point import check; the result says whether the import succeeded |
| Pipeline.RecordMethods | eval.py:118-126 | the ledger grows by one 5-point presence check per required name, in order |
| Pipeline.RecordSandbox | eval.py:143-155 | the ledger grows by the diagnostic line (on failure) and the 10-point sandbox check; the result says whether patching succeeded |
| Pipeline.RecordFunctional | eval.py:163-193 | the ledger grows by the traceback line (when a step raised) and the 30-point functional check; the verdict is `FunctionalTest` |
| Pipeline.RecordProbe | eval.py:198-220 | the ledger grows by the 20-point injection check scored by `InjectionSafe` |
| Pipeline.RecordStyle | eval.py:225-236 | the ledger grows by the 10-point style check scored by `LintClean` |
| PipelineProperties.MethodChecksTally | eval.py:118-126 | the presence checks are worth 5 each, earn 5 per present name and produce one found/missing line per name |
| PipelineProperties.RequiredCount | eval.py:118-130 | at most four required methods are present, and all four are present exactly when the gate lets the run continue |
| PipelineProperties.ConfigurationErrors | eval.py:56-68 | a missing README.json, an unreadable one, or one without a truthy CRUD module and class name gives an error report with the corresponding message; these are the only error reports |
| PipelineProperties.CrudMissingReport | eval.py:76-91 | a missing CRUD module gives 20 possible points, two details, and the adapter's 10 points when that file exists |
| PipelineProperties.ImportFailureReport | eval.py:96-113 | a failed import gives 40 possible points and four details: the two file lines, the exception text and the failed import line |
| PipelineProperties.ImportFailureExtraLine | eval.py:101-110 | on the import-failure exit there is one more detail line than scored checks, because the exception text carries no points |
| PipelineProperties.MethodMissingReport | eval.py:118-130 | a missing method gives 60 possible points, the four presence lines in order and nothing later, and fewer than 20 points from presence checks |
| PipelineProperties.AllPresentLines | eval.py:118-126 | with all four methods present, the four presence lines are the four "found" lines |
| PipelineProperties.PatchFailureReport | eval.py:136-158 | after the adapter was loaded, a failed patch gives 60 of 70 points: the seven passing lines so far, the diagnostic and the failed sandbox line |
| PipelineProperties.TrailingReport | eval.py:160-238 | after a successful patch, the run has 130 possible points and records the functional, injection and style checks whatever their outcomes |
| PipelineProperties.FullMarks | eval.py:160-238 | after a successful patch the score is between 70 and 130, and it is 130 exactly when the functional, injection and style checks all pass |
| PipelineProperties.UndeclaredTableFailsProbe | eval.py:168-213 | with no table declared, the functional test reports a runtime error and fails, and the injection probe fails too: 12 details, at most 80 points |
| PipelineProperties.PerfectSubmission | eval.py:76-238 | over the intended table, a submission whose every step succeeds gets 130 of 130 points with eleven passing lines in check order |
| PipelineProperties.EscapingExceptions | eval.py:71 | a modelled run raises exactly when the adapter path is unset, when the adapter file is missing or its module raises on load after the method gate (eval.py:136), or when the linter cannot be launched (eval.py:226) |
| PipelineProperties.ReportBounds | eval.py:52-248 | every scored report has 0 <= score <= max_score, with max_score one of 20, 40, 60, 70 or 130, and 130 exactly when the run got past the sandbox gate |
| PipelineProperties.CreateResultIgnored | eval.py:177-182 | the value that create returns never changes the functional verdict |
| Observations.FunctionalAsWrittenNeverPasses | eval.py:168-182 | with plain table and key names, the functional test over the table the evaluator declares never passes and always raises |
| Observations.DuplicateIdColumn | eval.py:169-182 | for a users table with sample keys id and name and a candidate whose every step succeeds, the declared table fails the test and the intended table passes it |
| Observations.SchemaColumns | eval.py:167-170 | the intended columns start with the primary key "id" and consist of "id" and every sample key that is not a case variant of "id"; when no two keys differ only in case, no column name repeats (SQLite compares names in ASCII lower case) |
| Observations.FunctionalTestAsWritten | eval.py:163-186 | the test over the declared table binds the same table name; it passes only where the test over the intended table passes; it raises whenever that test raises, and also whenever SQLite refuses the written column list |
| Observations.IdColumnOnce | eval.py:169-170 | with "id" among distinct sample keys, the written column list repeats "id" and the intended one does not |
| Observations.CaseVariantOfId | eval.py:169-170 | a sample key "ID" repeats the primary key column in the written list and is dropped from the intended one |

## Left out

- app.py, the web front end around the evaluator, is not part of this model.
- dynamic_import and the import machinery are not modelled. Importing and instantiating the class is observed as an optional error text, and loading the adapter as an optional error.
- load_metadata and JSON parsing are not modelled. The manifest is observed as missing, unreadable with an error text, or parsed.
- Manifest values of unexpected types are not modelled, and neither are the exceptions they raise past every handler. These are: a README.json whose top level is not an object (AttributeError at eval.py:62); a `sample_data` that is null or not an object (eval.py:65, raised before the check at eval.py:67, so even an incomplete manifest then raises). A null or non-object `sample_data.create` is different: it passes those lines and raises at eval.py:169, inside the functional test's handler, which the model covers as a raising schema step; and non-string paths (TypeError at eval.py:70-71). A `tables` value that is absent or not a mapping is modelled; it makes the lookup at eval.py:168 raise.
- PipelineProperties.EscapingExceptions: the iff covers only the modelled exceptions. Every handler in eval.py catches only `Exception`, so a `SystemExit` or `KeyboardInterrupt` raised by the candidate's code also escapes. This can happen in the module, the constructor, create, read, update or delete (eval.py:97-99, 177-180, 204). These exceptions are not modelled, and neither are the manifest-type exceptions above.
- Observations.FunctionalTest: a call into the candidate's code either returns or raises an `Exception`. A `BaseException` that propagates is not modelled, and neither is a call (or a linter run) that never returns. The evaluator sets no timeout, so such a run never ends.
- SQLite, SQL text and the candidate's database behaviour are not modelled, except the rule that a CREATE TABLE may not repeat a column name, ignoring ASCII case. Each step of tests 5 and 6 is observed as raising or returning, and the probe as whether the table survived.
- The pycodestyle subprocess is observed as its exit code, its absence, or another launch failure.
- Traceback and exception texts are opaque strings supplied with the observations.
- `round(score.earned, 2)` is the identity on the integer scores the weights produce, so the score is an integer.
- The truthiness of the returned objects is observed as a boolean; a `__bool__` that raises inside `all(...)` is not modelled.
- A `hasattr` whose attribute lookup raises something other than AttributeError is not modelled; presence is a set of attribute names.
- The fixed payloads of tests 5 and 6 (the "Updated" name, the row with id 999 and the injection string) appear only through the observed outcomes.
- The evaluator's single function is split here into `Evaluate`, `RunSandboxed` and one `Record…` method per test, to keep each proof small. Order and early returns are unchanged.
- The isolation of the candidate's real database by the in-memory connection is not modelled.

## Findings

| source | as written | input that shows it | evidently intended | confidence | as-written member | corrected member |
|---|---|---|---|---|---|---|
| eval.py:169-170 | every sample key becomes a column after `id INTEGER PRIMARY KEY`, "id" included, so a sample with an "id" declares that column twice, which SQLite refuses; a sample without "id" raises at the read call (eval.py:178) | `tables` {"users": "users"}, `sample_data.create` {"id": 1, "name": "x"}, every candidate call succeeding: the functional check fails | "id" declared once as the primary key, followed by the other sample fields, so a correct candidate passes test 5 | high; not executed | Observations.FunctionalAsWrittenNeverPasses | Observations.SchemaColumns |

The rest of the model uses the intended table. `FunctionalTest`'s
`schemaRaises` observes SQLite rejecting the statement over `SchemaColumns`.
`FunctionalTestAsWritten` adds the rejection of the declared table, and
`DuplicateIdColumn` is the concrete counterexample.

