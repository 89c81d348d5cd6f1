/**
 * What evaluate_project promises, proved of its specification Evaluation
 * (and so, through Pipeline.Evaluate's postcondition, of the evaluator):
 * the configuration errors, the exact report at each gate, the bounds on
 * the score, and the trailing checks that always run together.
 */
module PipelineProperties {
  import opened Wrappers
  import opened Scoring
  import opened Observations
  import opened Pipeline

  /** Points the adapter-file check contributes. */
  function AdapterPoints(o: Observations): int
  {
    if o.dbExists then 10 else 0
  }

  /** The detail line of the adapter-file check. */
  function AdapterLine(o: Observations): string
  {
    if o.dbExists then PassMark + AdapterFound else FailMark + AdapterMissing
  }

  /** The detail lines of the presence checks for `names`, in order. */
  function MethodLines(names: seq<string>, attributes: set<string>): seq<string>
  {
    if names == [] then []
    else
      var line := if names[0] in attributes then PassMark + MethodFound(names[0]) else FailMark + MethodMissing(names[0]);
      [line] + MethodLines(names[1..], attributes)
  }

  // ---------------------------------------------------------------------------
  // The ledgers of the individual stages

  lemma FileChecksTally(o: Observations)
    ensures Possible(FileChecks(o)) == 20
    ensures Earned(FileChecks(o)) == (if o.crudExists then 10 else 0) + AdapterPoints(o)
    ensures Lines(FileChecks(o)) ==
      [if o.crudExists then PassMark + CrudFound else FailMark + CrudMissing, AdapterLine(o)]
  {
    var log := FileChecks(o);
    LedgerPair(log[0], log[1]);
    LedgerSingle(log[0]);
    LedgerSingle(log[1]);
  }

  lemma ImportChecksTally(o: Observations)
    ensures Possible(ImportChecks(o)) == 20
    ensures Earned(ImportChecks(o)) == if o.importError.None? then 20 else 0
    ensures Lines(ImportChecks(o)) ==
      match o.importError
      case None => [PassMark + ImportPassed]
      case Some(e) => [FailMark + ImportDiagnostic + e, FailMark + ImportFailed]
  {
    var log := ImportChecks(o);
    if |log| == 1 {
      LedgerSingle(log[0]);
    } else {
      LedgerPair(log[0], log[1]);
      LedgerSingle(log[0]);
      LedgerSingle(log[1]);
    }
  }

  lemma PatchChecksTally(o: Observations)
    ensures Possible(PatchChecks(o)) == 10
    ensures Earned(PatchChecks(o)) == if o.patchError.None? then 10 else 0
    ensures Lines(PatchChecks(o)) ==
      match o.patchError
      case None => [PassMark + SandboxPassed]
      case Some(e) => [FailMark + PatchDiagnostic + e, FailMark + SandboxFailed]
  {
    var log := PatchChecks(o);
    if |log| == 1 {
      LedgerSingle(log[0]);
    } else {
      LedgerPair(log[0], log[1]);
      LedgerSingle(log[0]);
      LedgerSingle(log[1]);
    }
  }

  /** There is one presence line per name. */
  lemma {:induction false} MethodLinesLength(names: seq<string>, attributes: set<string>)
    ensures |MethodLines(names, attributes)| == |names|
  {
    if names != [] {
      MethodLinesLength(names[1..], attributes);
    }
  }

  /** Each presence check is worth 5 and earns 5 exactly when the name is there. */
  lemma {:induction false} MethodChecksTally(names: seq<string>, attributes: set<string>)
    ensures Possible(MethodChecks(names, attributes)) == 5 * |names|
    ensures Earned(MethodChecks(names, attributes)) == 5 * CountPresent(names, attributes)
    ensures Lines(MethodChecks(names, attributes)) == MethodLines(names, attributes)
  {
    if names != [] {
      MethodChecksTally(names[1..], attributes);
      LedgerSingle(MethodCheck(names[0], attributes));
      LedgerAppend([MethodCheck(names[0], attributes)], MethodChecks(names[1..], attributes));
    }
  }

  /** All names are present exactly when the count reaches the number of names. */
  lemma {:induction false} CountPresentAll(names: seq<string>, attributes: set<string>)
    ensures CountPresent(names, attributes) <= |names|
    ensures CountPresent(names, attributes) == |names| <==> forall i | 0 <= i < |names| :: names[i] in attributes
  {
    if names != [] {
      CountPresentAll(names[1..], attributes);
      if forall i | 0 <= i < |names| :: names[i] in attributes {
        forall i | 0 <= i < |names[1..]| ensures names[1..][i] in attributes {
          assert names[1..][i] == names[i + 1];
        }
      } else if names[0] in attributes {
        var k :| 0 <= k < |names| && names[k] !in attributes;
        assert names[1..][k - 1] == names[k];
      }
    }
  }

  lemma RequiredCount(attributes: set<string>)
    ensures CountPresent(Required, attributes) <= 4
    ensures CountPresent(Required, attributes) == 4 <==> AllPresent(attributes)
  {
    CountPresentAll(Required, attributes);
    if AllPresent(attributes) {
      forall i | 0 <= i < |Required| ensures Required[i] in attributes {
        assert Required[i] in Required;
      }
    }
  }

  // ---------------------------------------------------------------------------
  // The report at each exit of evaluate_project

  /**
   * A missing or unreadable README.json, or one without a CRUD module or
   * class name, ends the run with an error report and no score at all.
   */
  lemma ConfigurationErrors(o: Observations)
    ensures o.manifest.Missing? ==> Evaluation(o) == Returned(Error(MissingManifestMessage))
    ensures o.manifest.Unreadable? ==> Evaluation(o) == Returned(Error(o.manifest.reason))
    ensures o.manifest.Parsed? && (!Truthy(o.manifest.meta.crudModule) || !Truthy(o.manifest.meta.crudClass)) ==>
      Evaluation(o) == Returned(Error(IncompleteManifestMessage))
    ensures Evaluation(o).Returned? && Evaluation(o).report.Error? <==>
      !o.manifest.Parsed? || !Truthy(o.manifest.meta.crudModule) || !Truthy(o.manifest.meta.crudClass)
  {
  }

  /**
   * A missing CRUD module stops the run after the two file checks: at most 20
   * points, of which the adapter file alone can earn 10.
   */
  lemma CrudMissingReport(o: Observations)
    requires Configured(o) && !o.crudExists
    ensures Evaluation(o) == Returned(Result(AdapterPoints(o), 20, [FailMark + CrudMissing, AdapterLine(o)]))
  {
    FileChecksTally(o);
  }

  /**
   * A failed import stops the run with 40 possible points and four details:
   * the two file checks, the exception text and the failed import check.
   */
  lemma ImportFailureReport(o: Observations, e: string)
    requires Configured(o) && o.crudExists && o.importError == Some(e)
    ensures Evaluation(o) == Returned(Result(10 + AdapterPoints(o), 40,
      [PassMark + CrudFound, AdapterLine(o), FailMark + ImportDiagnostic + e, FailMark + ImportFailed]))
  {
    FileChecksTally(o);
    ImportChecksTally(o);
    LedgerAppend(FileChecks(o), ImportChecks(o));
    assert Lines(FileChecks(o) + ImportChecks(o)) ==
      [PassMark + CrudFound, AdapterLine(o)] + [FailMark + ImportDiagnostic + e, FailMark + ImportFailed];
    assert [PassMark + CrudFound, AdapterLine(o)] + [FailMark + ImportDiagnostic + e, FailMark + ImportFailed] ==
      [PassMark + CrudFound, AdapterLine(o), FailMark + ImportDiagnostic + e, FailMark + ImportFailed];
  }

  /**
   * On that exit the report has one detail line more than it has scored
   * checks: the exception text is recorded without any points.
   */
  lemma ImportFailureExtraLine(o: Observations, e: string)
    requires Configured(o) && o.crudExists && o.importError == Some(e)
    ensures ScoredCount(FileChecks(o) + ImportChecks(o)) == 3
    ensures |Evaluation(o).report.details| == ScoredCount(FileChecks(o) + ImportChecks(o)) + 1
  {
    ImportFailureReport(o, e);
    var files, loaded := FileChecks(o), ImportChecks(o);
    LedgerAppend(files, loaded);
    LedgerPair(files[0], files[1]);
    LedgerPair(loaded[0], loaded[1]);
    LedgerSingle(files[0]);
    LedgerSingle(files[1]);
    LedgerSingle(loaded[0]);
    LedgerSingle(loaded[1]);
  }

  /**
   * A missing required method stops the run with 60 possible points, after
   * all four presence checks are recorded and before anything later.
   */
  lemma MethodMissingReport(o: Observations)
    requires Configured(o) && o.crudExists && o.importError.None? && !AllPresent(o.attributes)
    ensures Evaluation(o) == Returned(Result(30 + AdapterPoints(o) + 5 * CountPresent(Required, o.attributes), 60,
      [PassMark + CrudFound, AdapterLine(o), PassMark + ImportPassed] + MethodLines(Required, o.attributes)))
    ensures CountPresent(Required, o.attributes) < 4
    ensures |MethodLines(Required, o.attributes)| == 4
  {
    ThroughMethodsTally(o);
    RequiredCount(o.attributes);
    MethodLinesLength(Required, o.attributes);
  }

  /** The ledger up to the presence checks, for a run that imported the class. */
  lemma ThroughMethodsTally(o: Observations)
    requires o.crudExists && o.importError.None?
    ensures Possible(ThroughMethods(o)) == 60
    ensures Earned(ThroughMethods(o)) == 30 + AdapterPoints(o) + 5 * CountPresent(Required, o.attributes)
    ensures Lines(ThroughMethods(o)) ==
      [PassMark + CrudFound, AdapterLine(o), PassMark + ImportPassed] + MethodLines(Required, o.attributes)
  {
    FileChecksTally(o);
    ImportChecksTally(o);
    MethodChecksTally(Required, o.attributes);
    LedgerAppend(FileChecks(o), ImportChecks(o));
    LedgerAppend(FileChecks(o) + ImportChecks(o), MethodChecks(Required, o.attributes));
    assert [PassMark + CrudFound, AdapterLine(o)] + [PassMark + ImportPassed] ==
      [PassMark + CrudFound, AdapterLine(o), PassMark + ImportPassed];
  }

  /** The run got past the sandbox gate. */
  predicate Sandboxed(o: Observations)
  {
    Configured(o) && o.crudExists && o.importError.None? && AllPresent(o.attributes) &&
    o.dbExists && o.adapterLoadError.None? && o.patchError.None?
  }

  /** The seven detail lines of a run with both files, the class and all four methods. */
  function PresentLines(): seq<string>
  {
    [PassMark + CrudFound, PassMark + AdapterFound, PassMark + ImportPassed,
     PassMark + MethodFound("create"), PassMark + MethodFound("read"),
     PassMark + MethodFound("update"), PassMark + MethodFound("delete")]
  }

  /** With every required method present, the four presence lines all pass. */
  lemma AllPresentLines(attributes: set<string>)
    requires AllPresent(attributes)
    ensures MethodLines(Required, attributes) ==
      [PassMark + MethodFound("create"), PassMark + MethodFound("read"),
       PassMark + MethodFound("update"), PassMark + MethodFound("delete")]
  {
    assert "create" in Required && "read" in Required && "update" in Required && "delete" in Required;
    var r1, r2, r3 := Required[1..], Required[2..], Required[3..];
    assert r1 == ["read", "update", "delete"] && r2 == ["update", "delete"] && r3 == ["delete"];
    assert r3[1..] == [];
    assert MethodLines(r3, attributes) == [PassMark + MethodFound("delete")];
    assert MethodLines(r2, attributes) == [PassMark + MethodFound("update")] + MethodLines(r3, attributes);
    assert MethodLines(r1, attributes) == [PassMark + MethodFound("read")] + MethodLines(r2, attributes);
    assert MethodLines(Required, attributes) == [PassMark + MethodFound("create")] + MethodLines(r1, attributes);
  }

  lemma AllPresentTally(o: Observations)
    requires o.crudExists && o.dbExists && o.importError.None? && AllPresent(o.attributes)
    ensures Possible(ThroughMethods(o)) == 60
    ensures Earned(ThroughMethods(o)) == 60
    ensures Lines(ThroughMethods(o)) == PresentLines()
  {
    ThroughMethodsTally(o);
    RequiredCount(o.attributes);
    AllPresentLines(o.attributes);
  }

  /**
   * A failed patch of the connection factory stops the run with 70 possible
   * points, after every earlier check passed: the adapter module was loaded,
   * so its file exists.
   */
  lemma PatchFailureReport(o: Observations, e: string)
    requires Configured(o) && o.crudExists && o.importError.None? && AllPresent(o.attributes)
    requires o.dbExists && o.adapterLoadError.None? && o.patchError == Some(e)
    ensures Evaluation(o) == Returned(Result(60, 70,
      PresentLines() + [FailMark + PatchDiagnostic + e, FailMark + SandboxFailed]))
  {
    var a, b := ThroughMethods(o), PatchChecks(o);
    assert Evaluation(o) == Returned(Tally(a + b));
    AllPresentTally(o);
    PatchChecksTally(o);
    LedgerAppend(a, b);
  }

  lemma FunctionalChecksTally(v: FunctionalVerdict, trace: string)
    ensures Possible(FunctionalChecks(v, trace)) == 30
    ensures Earned(FunctionalChecks(v, trace)) == if v.passed then 30 else 0
    ensures Lines(FunctionalChecks(v, trace)) ==
      (if v.raised then [FailMark + RuntimeDiagnostic + trace] else []) +
      [if v.passed then PassMark + FunctionalPassed else FailMark + FunctionalFailed]
  {
    var log := FunctionalChecks(v, trace);
    if v.raised {
      LedgerPair(log[0], log[1]);
      LedgerSingle(log[0]);
      LedgerSingle(log[1]);
    } else {
      LedgerSingle(log[0]);
    }
  }

  /** The detail lines of the three trailing checks, after the traceback when one was recorded. */
  function TrailingLines(o: Observations, v: FunctionalVerdict, safe: bool, clean: bool): seq<string>
  {
    (if v.raised then [FailMark + RuntimeDiagnostic + o.functional.trace] else []) +
    [if v.passed then PassMark + FunctionalPassed else FailMark + FunctionalFailed,
     if safe then PassMark + InjectionPassed else FailMark + InjectionFailed,
     if clean then PassMark + StylePassed else FailMark + StyleFailed]
  }

  lemma TrailingChecksTally(meta: Manifest, o: Observations)
    requires !o.lint.LaunchFailed?
    ensures var v := FunctionalTest(meta, o.functional);
      var safe := InjectionSafe(v.tableName, o.probe);
      var log := TrailingChecks(meta, o);
      && Possible(log) == 60
      && Earned(log) == (if v.passed then 30 else 0) + (if safe then 20 else 0) + (if LintClean(o.lint) then 10 else 0)
      && Lines(log) == TrailingLines(o, v, safe, LintClean(o.lint))
  {
    var v := FunctionalTest(meta, o.functional);
    var head := FunctionalChecks(v, o.functional.trace);
    var safe := InjectionSafe(v.tableName, o.probe);
    var probe := Check(20, safe, InjectionPassed, InjectionFailed);
    var style := Check(10, LintClean(o.lint), StylePassed, StyleFailed);
    FunctionalChecksTally(v, o.functional.trace);
    LedgerPair(probe, style);
    LedgerSingle(probe);
    LedgerSingle(style);
    LedgerAppend(head, [probe, style]);
  }

  /** The verdicts of the three trailing checks. */
  datatype Trailing = Trailing(functional: FunctionalVerdict, safe: bool, clean: bool)

  function TrailingVerdicts(o: Observations): Trailing
    requires o.manifest.Parsed? && !o.lint.LaunchFailed?
  {
    var v := FunctionalTest(o.manifest.meta, o.functional);
    Trailing(v, InjectionSafe(v.tableName, o.probe), LintClean(o.lint))
  }

  /** The score of a run that got past the sandbox gate. */
  function SandboxedScore(t: Trailing): int
  {
    70 + (if t.functional.passed then 30 else 0) + (if t.safe then 20 else 0) + (if t.clean then 10 else 0)
  }

  /**
   * Once the sandbox is in place the functional, injection and style checks
   * are all attempted whatever each other's outcome, for 130 possible points.
   */
  lemma TrailingReport(o: Observations)
    requires Sandboxed(o) && !o.lint.LaunchFailed?
    ensures var t := TrailingVerdicts(o);
      Evaluation(o) == Returned(Result(SandboxedScore(t), 130,
        PresentLines() + [PassMark + SandboxPassed] + TrailingLines(o, t.functional, t.safe, t.clean)))
  {
    assert Evaluation(o) == Returned(Tally(ThroughMethods(o) + PatchChecks(o) + TrailingChecks(o.manifest.meta, o)));
    SandboxedLedger(o);
  }

  /** The whole ledger of a run that got past the sandbox gate. */
  lemma SandboxedLedger(o: Observations)
    requires Sandboxed(o) && !o.lint.LaunchFailed?
    ensures var t := TrailingVerdicts(o);
      Tally(ThroughMethods(o) + PatchChecks(o) + TrailingChecks(o.manifest.meta, o)) ==
        Result(SandboxedScore(t), 130,
          PresentLines() + [PassMark + SandboxPassed] + TrailingLines(o, t.functional, t.safe, t.clean))
  {
    var a, b, c := ThroughMethods(o), PatchChecks(o), TrailingChecks(o.manifest.meta, o);
    AllPresentTally(o);
    PatchChecksTally(o);
    TrailingChecksTally(o.manifest.meta, o);
    LedgerAppend(a, b);
    LedgerAppend(a + b, c);
  }

  /** Such a run earns all 130 points exactly when every observed outcome passes. */
  lemma FullMarks(o: Observations)
    requires Sandboxed(o) && !o.lint.LaunchFailed?
    ensures Evaluation(o).Returned? && Evaluation(o).report.Result?
    ensures var t := TrailingVerdicts(o);
      Evaluation(o).report.score == 130 <==> t.functional.passed && t.safe && t.clean
    ensures 70 <= Evaluation(o).report.score <= 130
  {
    TrailingReport(o);
  }

  /**
   * When the manifest declares no table, the functional test raises before it
   * binds the table name, and the injection probe then fails too, whatever
   * the candidate's code does.
   */
  lemma UndeclaredTableFailsProbe(o: Observations)
    requires Sandboxed(o) && !o.lint.LaunchFailed?
    requires o.manifest.meta.tables.None? || o.manifest.meta.tables.value == []
    ensures Evaluation(o).Returned? && Evaluation(o).report.Result?
    ensures var r := Evaluation(o).report;
      && |r.details| == 12
      && r.details[8..11] ==
        [FailMark + RuntimeDiagnostic + o.functional.trace, FailMark + FunctionalFailed, FailMark + InjectionFailed]
      && r.score <= 80
  {
    TrailingReport(o);
    var t := TrailingVerdicts(o);
    assert t.functional.raised && !t.functional.passed && !t.safe;
    assert |PresentLines() + [PassMark + SandboxPassed]| == 8;
  }

  /**
   * A submission whose every step succeeds, over the intended table of the
   * functional test (SchemaColumns; DuplicateIdColumn shows that the table the
   * evaluator declares fails this scenario): every check passes and the
   * report holds 130 of 130 points with eleven passing lines.
   */
  lemma PerfectSubmission(o: Observations)
    requires Sandboxed(o)
    requires o.manifest.meta.tables == Some(["users"]) && o.manifest.meta.sampleKeys == ["id", "name"]
    requires o.functional == FunctionalSteps(false, false, Returns(true), Returns(true), Returns(true), Returns(true), o.functional.trace)
    requires o.probe == ProbeSteps(false, false, true)
    requires o.lint == Exit(0)
    ensures Evaluation(o) == Returned(Result(130, 130,
      [PassMark + CrudFound, PassMark + AdapterFound, PassMark + ImportPassed,
       PassMark + MethodFound("create"), PassMark + MethodFound("read"),
       PassMark + MethodFound("update"), PassMark + MethodFound("delete"),
       PassMark + SandboxPassed, PassMark + FunctionalPassed,
       PassMark + InjectionPassed, PassMark + StylePassed]))
  {
    PerfectVerdicts(o);
    PerfectLines(o, TrailingVerdicts(o));
    TrailingReport(o);
  }

  /** The verdicts of the trailing checks for the scenario above. */
  lemma PerfectVerdicts(o: Observations)
    requires o.manifest.Parsed?
    requires o.manifest.meta.tables == Some(["users"]) && o.manifest.meta.sampleKeys == ["id", "name"]
    requires o.functional == FunctionalSteps(false, false, Returns(true), Returns(true), Returns(true), Returns(true), o.functional.trace)
    requires o.probe == ProbeSteps(false, false, true)
    requires o.lint == Exit(0)
    ensures TrailingVerdicts(o) == Trailing(FunctionalVerdict(Some("users"), true, false), true, true)
  {
  }

  /** The details of a run in which every check passes. */
  lemma PerfectLines(o: Observations, t: Trailing)
    requires t == Trailing(FunctionalVerdict(Some("users"), true, false), true, true)
    ensures SandboxedScore(t) == 130
    ensures PresentLines() + [PassMark + SandboxPassed] + TrailingLines(o, t.functional, t.safe, t.clean) ==
      [PassMark + CrudFound, PassMark + AdapterFound, PassMark + ImportPassed,
       PassMark + MethodFound("create"), PassMark + MethodFound("read"),
       PassMark + MethodFound("update"), PassMark + MethodFound("delete"),
       PassMark + SandboxPassed, PassMark + FunctionalPassed,
       PassMark + InjectionPassed, PassMark + StylePassed]
  {
  }

  /**
   * The modelled exceptions that evaluate_project does not catch: joining a
   * missing adapter path, loading the adapter module once the CRUD module
   * passed every gate (when its file is missing, or when its code raises),
   * and launching the linter failing otherwise than by its absence.
   */
  lemma EscapingExceptions(o: Observations)
    ensures Evaluation(o).Raised? <==>
      && o.manifest.Parsed? && Truthy(o.manifest.meta.crudModule) && Truthy(o.manifest.meta.crudClass)
      && (|| o.manifest.meta.dbAdapter.None?
          || (o.crudExists && o.importError.None? && AllPresent(o.attributes) &&
              (!o.dbExists || o.adapterLoadError.Some? || (o.patchError.None? && o.lint.LaunchFailed?))))
    ensures Configured(o) && o.crudExists && o.importError.None? && AllPresent(o.attributes) && !o.dbExists ==>
      Evaluation(o) == Raised(AdapterFileMissing)
    ensures Configured(o) && o.crudExists && o.importError.None? && AllPresent(o.attributes) && o.dbExists &&
            o.adapterLoadError.Some? ==>
      Evaluation(o) == Raised(AdapterLoadFailed(o.adapterLoadError.value))
  {
  }

  /**
   * Every report that carries a score has 0 <= score <= max_score, and
   * max_score is the weight of the checks reached: 20, 40, 60, 70 or 130,
   * the full 130 only when every stage ran.
   */
  lemma ReportBounds(o: Observations)
    ensures Evaluation(o).Returned? && Evaluation(o).report.Result? ==>
      var r := Evaluation(o).report;
      && 0 <= r.score <= r.maxScore
      && r.maxScore in {20, 40, 60, 70, 130}
      && (r.maxScore == 130 <==> Sandboxed(o))
  {
    if Configured(o) {
      if !o.crudExists {
        CrudMissingReport(o);
      } else if o.importError.Some? {
        ImportFailureReport(o, o.importError.value);
      } else if !AllPresent(o.attributes) {
        MethodMissingReport(o);
      } else if !o.dbExists || o.adapterLoadError.Some? {
      } else if o.patchError.Some? {
        PatchFailureReport(o, o.patchError.value);
      } else if !o.lint.LaunchFailed? {
        TrailingReport(o);
        FullMarks(o);
      }
    }
  }

  /** What create returns never changes the functional verdict. */
  lemma CreateResultIgnored(meta: Manifest, f: FunctionalSteps, a: bool, b: bool)
    ensures FunctionalTest(meta, f.(create := Returns(a))) == FunctionalTest(meta, f.(create := Returns(b)))
  {
  }
}
