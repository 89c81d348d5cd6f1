/**
 * evaluate_project: the gated sequence of weighted checks.
 *
 * Evaluation is the declarative account of a run: which checks are attempted,
 * in which order, with which outcome, and where the run stops. Evaluate is
 * the evaluator itself, threading one Score through the same checks with
 * early returns; its postcondition is that it always produces Evaluation.
 */
module Pipeline {
  import opened Wrappers
  import opened Scoring
  import opened Observations

  const MissingManifestMessage := "❌ Missing README.json – naming conventions unknown."
  const IncompleteManifestMessage := "README.json must contain CRUD module + class name."

  // The messages of the checks, as the evaluator words them.
  const CrudFound := "CRUD module found"
  const CrudMissing := "CRUD module missing"
  const AdapterFound := "DB adapter file found"
  const AdapterMissing := "DB adapter file missing"
  const ImportPassed := "CRUD class imported successfully"
  const ImportFailed := "Failed to load CRUD class"
  const ImportDiagnostic := "Could not import CRUD class: "
  const SandboxPassed := "Database connection successfully sandboxed"
  const SandboxFailed := "Unable to sandbox database calls"
  const PatchDiagnostic := "Cannot patch DB connection: "
  const FunctionalPassed := "CRUD operations successfully executed"
  const FunctionalFailed := "CRUD functional test failed"
  const RuntimeDiagnostic := "CRUD runtime error: "
  const InjectionPassed := "SQL injection protection appears safe"
  const InjectionFailed := "SQL injection vulnerability detected"
  const StylePassed := "Code is PEP8 clean"
  const StyleFailed := "Code style violations found"

  /** The exceptions that escape evaluate_project instead of becoming a report. */
  datatype Cause =
    | AdapterPathUnset              // os.path.join with a missing db_adapter
    | AdapterFileMissing            // the unguarded import of an adapter file that does not exist
    | AdapterLoadFailed(reason: string)  // the unguarded import of an existing adapter file raising
    | LinterFailed(reason: string)  // subprocess.run failing other than FileNotFoundError

  /** How one call of evaluate_project ends. */
  datatype Run = Returned(report: Report) | Raised(cause: Cause)

  const Required := ["create", "read", "update", "delete"]

  function MethodFound(name: string): string { "Method " + name + "() found" }
  function MethodMissing(name: string): string { "Method " + name + "() missing" }

  /** The presence check for one required method. */
  function MethodCheck(name: string, attributes: set<string>): Entry
  {
    Check(5, name in attributes, MethodFound(name), MethodMissing(name))
  }

  /** The presence checks for `names`, one per name, in order. */
  function MethodChecks(names: seq<string>, attributes: set<string>): seq<Entry>
  {
    if names == [] then [] else [MethodCheck(names[0], attributes)] + MethodChecks(names[1..], attributes)
  }

  /** How many of `names` the object has. */
  function CountPresent(names: seq<string>, attributes: set<string>): nat
  {
    if names == [] then 0 else (if names[0] in attributes then 1 else 0) + CountPresent(names[1..], attributes)
  }

  /** The gate after the presence checks: every required method is there. */
  predicate AllPresent(attributes: set<string>)
  {
    forall name | name in Required :: name in attributes
  }

  /** Test 1: the two file-existence checks. */
  function FileChecks(o: Observations): seq<Entry>
  {
    [Check(10, o.crudExists, CrudFound, CrudMissing),
     Check(10, o.dbExists, AdapterFound, AdapterMissing)]
  }

  /** Test 2: the import check, preceded by a diagnostic line when it fails. */
  function ImportChecks(o: Observations): seq<Entry>
  {
    match o.importError
    case Some(e) =>
      [Note(FailMark + ImportDiagnostic + e),
       Check(20, false, ImportPassed, ImportFailed)]
    case None =>
      [Check(20, true, ImportPassed, ImportFailed)]
  }

  /** Test 4: the sandbox check, preceded by a diagnostic line when it fails. */
  function PatchChecks(o: Observations): seq<Entry>
  {
    match o.patchError
    case Some(e) =>
      [Note(FailMark + PatchDiagnostic + e),
       Check(10, false, SandboxPassed, SandboxFailed)]
    case None =>
      [Check(10, true, SandboxPassed, SandboxFailed)]
  }

  /** Test 5: the functional check, preceded by the traceback when a step raised. */
  function FunctionalChecks(v: FunctionalVerdict, trace: string): seq<Entry>
  {
    (if v.raised then [Note(FailMark + RuntimeDiagnostic + trace)] else []) +
    [Check(30, v.passed, FunctionalPassed, FunctionalFailed)]
  }

  /** Tests 5 to 7, which always run together once the sandbox is in place. */
  function TrailingChecks(meta: Manifest, o: Observations): seq<Entry>
    requires !o.lint.LaunchFailed?
  {
    var v := FunctionalTest(meta, o.functional);
    FunctionalChecks(v, o.functional.trace) +
    [Check(20, InjectionSafe(v.tableName, o.probe), InjectionPassed, InjectionFailed),
     Check(10, LintClean(o.lint), StylePassed, StyleFailed)]
  }

  /** The manifest names the CRUD module and class, and an adapter path to join. */
  predicate Configured(o: Observations)
  {
    o.manifest.Parsed? && Truthy(o.manifest.meta.crudModule) && Truthy(o.manifest.meta.crudClass) &&
    o.manifest.meta.dbAdapter.Some?
  }

  /** The ledger of a run that passed every gate up to and including the presence checks. */
  function ThroughMethods(o: Observations): seq<Entry>
  {
    FileChecks(o) + ImportChecks(o) + MethodChecks(Required, o.attributes)
  }

  /** The specification of evaluate_project over the observed outcomes. */
  function Evaluation(o: Observations): Run
  {
    match o.manifest
    case Missing => Returned(Error(MissingManifestMessage))
    case Unreadable(reason) => Returned(Error(reason))
    case Parsed(meta) =>
      if !Truthy(meta.crudModule) || !Truthy(meta.crudClass) then Returned(Error(IncompleteManifestMessage))
      else if meta.dbAdapter.None? then Raised(AdapterPathUnset)
      else if !o.crudExists then Returned(Tally(FileChecks(o)))
      else if o.importError.Some? then Returned(Tally(FileChecks(o) + ImportChecks(o)))
      else if !AllPresent(o.attributes) then Returned(Tally(ThroughMethods(o)))
      else SandboxStage(meta, o, ThroughMethods(o))
  }

  /** The run from the sandbox step on, after the checks recorded in `log`. */
  function SandboxStage(meta: Manifest, o: Observations, log: seq<Entry>): Run
  {
    if !o.dbExists then Raised(AdapterFileMissing)
    else if o.adapterLoadError.Some? then Raised(AdapterLoadFailed(o.adapterLoadError.value))
    else if o.patchError.Some? then Returned(Tally(log + PatchChecks(o)))
    else if o.lint.LaunchFailed? then Raised(LinterFailed(o.lint.reason))
    else Returned(Tally(log + PatchChecks(o) + TrailingChecks(meta, o)))
  }

  /** Presence checks extend one name at a time. */
  lemma {:induction false} MethodChecksSnoc(names: seq<string>, name: string, attributes: set<string>)
    ensures MethodChecks(names + [name], attributes) == MethodChecks(names, attributes) + [MethodCheck(name, attributes)]
  {
    if names == [] {
      assert names + [name] == [name];
    } else {
      assert (names + [name])[1..] == names[1..] + [name];
      MethodChecksSnoc(names[1..], name, attributes);
    }
  }

  /** Presence checks for a prefix of the names, one name longer. */
  lemma MethodChecksPrefix(names: seq<string>, i: nat, attributes: set<string>)
    requires i < |names|
    ensures MethodChecks(names[..i + 1], attributes) == MethodChecks(names[..i], attributes) + [MethodCheck(names[i], attributes)]
  {
    assert names[..i + 1] == names[..i] + [names[i]];
    MethodChecksSnoc(names[..i], names[i], attributes);
  }

  /** evaluate_project, driving one Score through the gated checks. */
  method Evaluate(o: Observations) returns (run: Run)
    ensures run == Evaluation(o)
  {
    var score := new Score();

    if o.manifest.Missing? {
      return Returned(Error(MissingManifestMessage));
    }
    if o.manifest.Unreadable? {
      return Returned(Error(o.manifest.reason));
    }
    var meta := o.manifest.meta;
    if !Truthy(meta.crudModule) || !Truthy(meta.crudClass) {
      return Returned(Error(IncompleteManifestMessage));
    }
    if meta.dbAdapter.None? {
      return Raised(AdapterPathUnset);
    }

    // Test 1: file existence
    RecordFiles(score, o);
    assert score.log == FileChecks(o);
    if !o.crudExists {
      return Returned(Finalize(score));
    }

    // Test 2: import the class
    var imported := RecordImport(score, o);
    if !imported {
      return Returned(Finalize(score));
    }

    // Test 3: method existence; all four are scored before the gate looks at any
    RecordMethods(score, Required, o.attributes);
    if !AllPresent(o.attributes) {
      return Returned(Finalize(score));
    }

    run := RunSandboxed(score, meta, o);
  }

  /** Tests 4 to 7: sandbox the adapter, then the three independent checks. */
  method RunSandboxed(score: Score, meta: Manifest, o: Observations) returns (run: Run)
    requires score.Valid()
    modifies score
    ensures run == SandboxStage(meta, o, old(score.log))
  {
    if !o.dbExists {
      return Raised(AdapterFileMissing);
    }
    if o.adapterLoadError.Some? {
      return Raised(AdapterLoadFailed(o.adapterLoadError.value));
    }
    var patched := RecordSandbox(score, o);
    if !patched {
      return Returned(Finalize(score));
    }

    // Tests 5 to 7 run whatever each other's outcome
    ghost var sandboxed := score.log;
    var verdict := RecordFunctional(score, meta, o.functional);
    RecordProbe(score, verdict.tableName, o.probe);
    if o.lint.LaunchFailed? {
      return Raised(LinterFailed(o.lint.reason));
    }
    RecordStyle(score, o.lint);
    assert score.log == sandboxed + TrailingChecks(meta, o);
    return Returned(Finalize(score));
  }

  /** Test 1: score the existence of the CRUD module and of the adapter file. */
  method RecordFiles(score: Score, o: Observations)
    requires score.Valid()
    modifies score
    ensures score.Valid() && score.log == old(score.log) + FileChecks(o)
  {
    score.Add(10, o.crudExists, CrudFound, CrudMissing);
    score.Add(10, o.dbExists, AdapterFound, AdapterMissing);
  }

  /** Test 2: score the import, after a diagnostic line when it failed. */
  method RecordImport(score: Score, o: Observations) returns (imported: bool)
    requires score.Valid()
    modifies score
    ensures score.Valid() && score.log == old(score.log) + ImportChecks(o)
    ensures imported == o.importError.None?
  {
    imported := o.importError.None?;
    if !imported {
      score.AppendDetail(FailMark + ImportDiagnostic + o.importError.value);
    }
    score.Add(20, imported, ImportPassed, ImportFailed);
  }

  /** Test 3: score the presence of each name, in order, before any gate looks at them. */
  method RecordMethods(score: Score, names: seq<string>, attributes: set<string>)
    requires score.Valid()
    modifies score
    ensures score.Valid() && score.log == old(score.log) + MethodChecks(names, attributes)
  {
    for i := 0 to |names|
      invariant score.Valid()
      invariant score.log == old(score.log) + MethodChecks(names[..i], attributes)
    {
      var name := names[i];
      score.Add(5, name in attributes, MethodFound(name), MethodMissing(name));
      MethodChecksPrefix(names, i, attributes);
    }
    assert names[..|names|] == names;
  }

  /** Test 4: score the sandboxing, after a diagnostic line when it failed. */
  method RecordSandbox(score: Score, o: Observations) returns (patched: bool)
    requires score.Valid()
    modifies score
    ensures score.Valid() && score.log == old(score.log) + PatchChecks(o)
    ensures patched == o.patchError.None?
  {
    patched := o.patchError.None?;
    if !patched {
      score.AppendDetail(FailMark + PatchDiagnostic + o.patchError.value);
    }
    score.Add(10, patched, SandboxPassed, SandboxFailed);
  }

  /** Test 5: run the functional round trip and score it, after the traceback when a step raised. */
  method RecordFunctional(score: Score, meta: Manifest, f: FunctionalSteps) returns (verdict: FunctionalVerdict)
    requires score.Valid()
    modifies score
    ensures verdict == FunctionalTest(meta, f)
    ensures score.Valid() && score.log == old(score.log) + FunctionalChecks(verdict, f.trace)
  {
    verdict := FunctionalTest(meta, f);
    if verdict.raised {
      score.AppendDetail(FailMark + RuntimeDiagnostic + f.trace);
    }
    score.Add(30, verdict.passed, FunctionalPassed, FunctionalFailed);
  }

  /** Test 6: score the injection probe against the table the functional test named. */
  method RecordProbe(score: Score, tableName: Option<string>, p: ProbeSteps)
    requires score.Valid()
    modifies score
    ensures score.Valid()
    ensures score.log == old(score.log) + [Check(20, InjectionSafe(tableName, p), InjectionPassed, InjectionFailed)]
  {
    var stillExists := InjectionSafe(tableName, p);
    score.Add(20, stillExists, InjectionPassed, InjectionFailed);
  }

  /** Test 7: score the linter's verdict. */
  method RecordStyle(score: Score, l: Lint)
    requires score.Valid() && !l.LaunchFailed?
    modifies score
    ensures score.Valid() && score.log == old(score.log) + [Check(10, LintClean(l), StylePassed, StyleFailed)]
  {
    var isClean := LintClean(l);
    score.Add(10, isClean, StylePassed, StyleFailed);
  }
}
