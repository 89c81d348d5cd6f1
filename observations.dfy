/**
 * What the evaluator observes about one submission. Every file test, module
 * load, attribute lookup, call into the candidate's code, sqlite statement
 * and linter run is replaced by the outcome it produced; the stages that
 * combine several of those outcomes into one verdict are functions here.
 */
module Observations {
  import opened Wrappers

  /** The fields of README.json that the evaluator reads. */
  datatype Manifest = Manifest(
    crudModule: Option<string>,      // "crud_module"
    crudClass: Option<string>,       // "crud_class"
    dbAdapter: Option<string>,       // "db_adapter"; None when absent or null
    tables: Option<seq<string>>,     // the values of "tables" in order; None when absent or not a mapping
    sampleKeys: seq<string>)         // the keys of sample_data.create (empty when absent)

  /** Result of load_metadata. */
  datatype ManifestLoad =
    | Missing                       // README.json does not exist
    | Unreadable(reason: string)    // it could not be opened or parsed; reason is str(e)
    | Parsed(meta: Manifest)

  /** A Python value is truthy; for an optional string, present and non-empty. */
  predicate Truthy(s: Option<string>)
  {
    s.Some? && s.value != ""
  }

  /** A call into the candidate object: it returns a value of some truthiness, or raises. */
  datatype Call = Returns(truthy: bool) | Raises

  /** Outcomes of the steps of the functional test, in the order they run. */
  datatype FunctionalSteps = FunctionalSteps(
    schemaRaises: bool,     // CREATE TABLE over SchemaColumns of the sample keys, on a fresh connection
    overrideRaises: bool,   // setattr(crud_obj, "conn_override", ...)
    create: Call,
    read: Call,
    update: Call,
    delete: Call,
    trace: string)          // the text traceback.format_exc gives if any step raised

  /** Outcomes of the steps of the injection probe. */
  datatype ProbeSteps = ProbeSteps(
    schemaRaises: bool,     // CREATE TABLE (id, name) on another fresh connection
    createRaises: bool,     // crud_obj.create with the DROP TABLE payload
    tableSurvived: bool)    // the catalog still lists the table afterwards

  /** How the style linter subprocess ended. */
  datatype Lint =
    | Exit(code: int)               // it ran and exited with this status
    | ToolMissing                   // FileNotFoundError: pycodestyle is not installed
    | LaunchFailed(reason: string)  // any other exception from subprocess.run

  /** Everything observed during one run. */
  datatype Observations = Observations(
    manifest: ManifestLoad,
    crudExists: bool,                  // os.path.exists(crud_path)
    dbExists: bool,                    // os.path.exists(db_path)
    importError: Option<string>,       // str(e) if loading, getattr or instantiating the class raised
    attributes: set<string>,           // attribute names hasattr finds on the CRUD object
    adapterLoadError: Option<string>,  // str(e) if dynamic_import of an existing adapter file raised
    patchError: Option<string>,        // str(e) if setattr on the adapter module raised
    functional: FunctionalSteps,
    probe: ProbeSteps,
    lint: Lint)

  /** What the functional test leaves behind. */
  datatype FunctionalVerdict = FunctionalVerdict(
    tableName: Option<string>,   // bound once the table lookup succeeded
    passed: bool,
    raised: bool)

  /**
   * The functional CRUD round trip: look up the first declared table, create
   * it, install the connection override, then create, read, update and
   * delete the sample record. The first exception ends the test as a failure;
   * otherwise it passes exactly when read, update and delete all returned a
   * truthy value. What create returns is never looked at, and a sample record
   * without an "id" key raises at the read call. The table is the one
   * SchemaColumns describes; FunctionalTestAsWritten is the test over the
   * table the evaluator actually declares.
   */
  function FunctionalTest(meta: Manifest, f: FunctionalSteps): (v: FunctionalVerdict)
    ensures v.tableName == if meta.tables.Some? && meta.tables.value != [] then Some(meta.tables.value[0]) else None
    ensures v.passed <==>
      v.tableName.Some? && !f.schemaRaises && !f.overrideRaises && f.create.Returns? &&
      "id" in meta.sampleKeys && f.read == Returns(true) && f.update == Returns(true) && f.delete == Returns(true)
    ensures v.raised <==>
      v.tableName.None? || f.schemaRaises || f.overrideRaises || f.create.Raises? ||
      "id" !in meta.sampleKeys || f.read.Raises? || f.update.Raises? || f.delete.Raises?
    ensures v.raised ==> !v.passed
  {
    if meta.tables.None? || meta.tables.value == [] then
      FunctionalVerdict(None, false, true)
    else
      var table := Some(meta.tables.value[0]);
      if f.schemaRaises || f.overrideRaises || f.create.Raises? then
        FunctionalVerdict(table, false, true)
      else if "id" !in meta.sampleKeys then
        FunctionalVerdict(table, false, true)
      else if f.read.Raises? || f.update.Raises? || f.delete.Raises? then
        FunctionalVerdict(table, false, true)
      else
        FunctionalVerdict(table, f.read.truthy && f.update.truthy && f.delete.truthy, false)
  }

  /**
   * The injection probe. It reuses the table name the functional test bound;
   * when that test raised before binding it, naming the table raises and the
   * probe fails. Any exception counts as a failure; otherwise the probe
   * passes exactly when the table survived.
   */
  function InjectionSafe(tableName: Option<string>, p: ProbeSteps): (safe: bool)
    ensures safe ==> p.tableSurvived
    ensures tableName.None? || p.schemaRaises || p.createRaises ==> !safe
    ensures tableName.Some? && !p.schemaRaises && !p.createRaises ==> (safe <==> p.tableSurvived)
  {
    match tableName
    case None => false
    case Some(_) =>
      if p.schemaRaises || p.createRaises then false else p.tableSurvived
  }

  /**
   * The style check: the code is clean when the linter exits with status 0,
   * and also when the linter is not installed at all. Any other failure to
   * launch it is not caught by the evaluator, so it is outside this verdict.
   */
  function LintClean(l: Lint): (clean: bool)
    requires !l.LaunchFailed?
    ensures l.ToolMissing? ==> clean
    ensures l.Exit? ==> (clean <==> l.code == 0)
  {
    match l
    case Exit(code) => code == 0
    case ToolMissing => true
  }

  // ---------------------------------------------------------------------------
  // The table of the functional test

  /** ASCII lower case, the folding SQLite applies when it compares identifiers. */
  function Lower(s: string): (r: string)
    ensures |r| == |s|
    ensures forall i | 0 <= i < |s| :: r[i] == if 'A' <= s[i] <= 'Z' then (s[i] as int + 32) as char else s[i]
  {
    if s == [] then []
    else [if 'A' <= s[0] <= 'Z' then (s[0] as int + 32) as char else s[0]] + Lower(s[1..])
  }

  /** Two identifiers SQLite takes for the same column name. */
  predicate SameName(a: string, b: string)
  {
    Lower(a) == Lower(b)
  }

  /** No column name occurs twice, as SQLite compares them. */
  predicate Distinct(names: seq<string>)
  {
    forall i, j | 0 <= i < j < |names| :: !SameName(names[i], names[j])
  }

  /**
   * A name that SQLite reads as one bare identifier: non-empty, made of ASCII
   * letters, digits and underscores, and not starting with a digit.
   */
  predicate PlainName(s: string)
  {
    |s| > 0 && !('0' <= s[0] <= '9') &&
    forall c | c in s :: 'a' <= c <= 'z' || 'A' <= c <= 'Z' || '0' <= c <= '9' || c == '_'
  }

  /**
   * The columns the functional test declares as written: the primary key
   * "id", then one column per sample key, "id" included.
   */
  function SchemaColumnsAsWritten(keys: seq<string>): seq<string>
  {
    ["id"] + keys
  }

  /**
   * SQLite refuses the written CREATE TABLE when its names are plain and a
   * column name repeats, or when there are no sample keys, which leaves the
   * column list ending in a comma.
   */
  predicate RejectedAsWritten(table: string, keys: seq<string>)
  {
    PlainName(table) && (forall k | k in keys :: PlainName(k)) &&
    (keys == [] || !Distinct(SchemaColumnsAsWritten(keys)))
  }

  /**
   * The functional test over the table the evaluator actually declares: the
   * same steps, with the CREATE TABLE also raising whenever SQLite refuses
   * the written column list. It passes only where the test over the intended
   * table passes.
   */
  function FunctionalTestAsWritten(meta: Manifest, f: FunctionalSteps): (v: FunctionalVerdict)
    ensures v.tableName == FunctionalTest(meta, f).tableName
    ensures v.passed ==> FunctionalTest(meta, f).passed
    ensures FunctionalTest(meta, f).raised ==> v.raised
    ensures v.tableName.Some? && RejectedAsWritten(v.tableName.value, meta.sampleKeys) ==> v.raised && !v.passed
  {
    var rejected := meta.tables.Some? && meta.tables.value != [] &&
      RejectedAsWritten(meta.tables.value[0], meta.sampleKeys);
    FunctionalTest(meta, f.(schemaRaises := f.schemaRaises || rejected))
  }

  /**
   * With plain names, the functional test as written never passes: with an
   * "id" sample key the table declares "id" twice, and without one the read
   * call raises.
   */
  lemma FunctionalAsWrittenNeverPasses(meta: Manifest, f: FunctionalSteps)
    requires forall k | k in meta.sampleKeys :: PlainName(k)
    requires meta.tables.Some? && meta.tables.value != [] ==> PlainName(meta.tables.value[0])
    ensures !FunctionalTestAsWritten(meta, f).passed
    ensures FunctionalTestAsWritten(meta, f).raised
  {
    if "id" in meta.sampleKeys {
      var j :| 0 <= j < |meta.sampleKeys| && meta.sampleKeys[j] == "id";
      var cols := SchemaColumnsAsWritten(meta.sampleKeys);
      assert cols[0] == cols[j + 1];
    }
  }

  /**
   * The sample record of a users table with an id and a name, against a
   * candidate whose every step succeeds: the evaluator's own table fails the
   * test, the intended table passes it.
   */
  lemma DuplicateIdColumn()
    ensures var meta := Manifest(Some("crud.py"), Some("UserCRUD"), Some("db.py"), Some(["users"]), ["id", "name"]);
      var f := FunctionalSteps(false, false, Returns(true), Returns(true), Returns(true), Returns(true), "");
      && !FunctionalTestAsWritten(meta, f).passed
      && FunctionalTest(meta, f).passed
  {
    var keys := ["id", "name"];
    assert PlainName("users") && PlainName("id") && PlainName("name");
    assert SchemaColumnsAsWritten(keys)[0] == SchemaColumnsAsWritten(keys)[1];
  }

  /** `names` without any name that SQLite takes for `x`, in order. */
  function Without(names: seq<string>, x: string): (r: seq<string>)
    ensures forall y :: y in r <==> y in names && !SameName(y, x)
    ensures Distinct(names) ==> Distinct(r)
  {
    if names == [] then []
    else if SameName(names[0], x) then Without(names[1..], x)
    else
      var rest := Without(names[1..], x);
      assert Distinct(names) ==> forall y | y in rest :: !SameName(names[0], y) by {
        if Distinct(names) {
          forall y | y in rest ensures !SameName(names[0], y) {
            var k :| 0 <= k < |names[1..]| && names[1..][k] == y;
            assert names[k + 1] == y;
          }
        }
      }
      [names[0]] + rest
  }

  /**
   * The columns as evidently intended: the primary key "id" once, then every
   * other sample key. When no two sample keys differ only in case, no column
   * name repeats either, as SQLite compares names.
   */
  function SchemaColumns(keys: seq<string>): (cols: seq<string>)
    ensures |cols| > 0 && cols[0] == "id"
    ensures forall c :: c in cols <==> c == "id" || (c in keys && !SameName(c, "id"))
    ensures Distinct(keys) ==> Distinct(cols)
  {
    var rest := Without(keys, "id");
    assert forall y | y in rest :: !SameName("id", y);
    ["id"] + rest
  }

  /**
   * With "id" among distinct sample keys, the written column list repeats
   * "id" and the intended one does not.
   */
  lemma IdColumnOnce(keys: seq<string>)
    requires "id" in keys && Distinct(keys)
    ensures !Distinct(SchemaColumnsAsWritten(keys))
    ensures Distinct(SchemaColumns(keys))
  {
    var j :| 0 <= j < |keys| && keys[j] == "id";
    assert SchemaColumnsAsWritten(keys)[0] == SchemaColumnsAsWritten(keys)[j + 1];
  }

  /**
   * A sample key that differs from "id" only in case names the primary key
   * column too, so the intended table does not declare it again.
   */
  lemma CaseVariantOfId()
    ensures SchemaColumns(["ID", "name"]) == ["id", "name"]
    ensures !Distinct(SchemaColumnsAsWritten(["ID", "name"]))
  {
    assert Lower("ID") == "id" && Lower("id") == "id";
    assert Lower("name") == "name";
    assert ["ID", "name"][1..] == ["name"] && ["name"][1..] == [];
    var cols := SchemaColumnsAsWritten(["ID", "name"]);
    assert cols[0] == "id" && cols[1] == "ID";
    assert SameName(cols[0], cols[1]);
  }
}
