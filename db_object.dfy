/**
 * main.go: the classified object (`dbObjectInfo`), its construction
 * (`newDbObjectInfo`), the retrieval calls (`getDDL`, `getDependentDDL`), the
 * dispatch and join (`dbObjectInfo.String`) and what `main` then prints.
 */
module DbObject {
  import opened Wrappers
  import opened Ascii
  import opened Catalog
  import opened ObjectKinds

  /** An immutable, classified schema object. */
  datatype DbObjectInfo = DbObjectInfo(schema: string, name: string, typ: Kind)

  /** The classification query for an (already upper-cased) owner and name. */
  function TypeQuery(schema: string, name: string): (q: Query)
    ensures !IsRetrieval(q) && q.owner == schema && q.name == name
  {
    ObjectTypeOf(schema, name)
  }

  /**
   * `newDbObjectInfo`: upper-case schema and name, ask the catalog for the
   * object's type, and classify the raw label; a failed lookup is returned as
   * the error.
   */
  function NewDbObjectInfo(db: Database, sch: string, obj: string): (r: Result<DbObjectInfo>)
    ensures r.Err? <==> db(TypeQuery(ToUpper(sch), ToUpper(obj))).Err?
    ensures r.Ok? ==> NoLower(r.value.schema) && EqualIgnoringCase(r.value.schema, sch)
    ensures r.Ok? ==> NoLower(r.value.name) && EqualIgnoringCase(r.value.name, obj)
    ensures r.Ok? ==>
      && db(TypeQuery(r.value.schema, r.value.name)).Ok?
      && r.value.typ == LookupType(db(TypeQuery(r.value.schema, r.value.name)).value)
  {
    var sch, obj := ToUpper(sch), ToUpper(obj);
    ToUpperIdempotent(sch);
    ToUpperIdempotent(obj);
    ToUpperEqualIff(sch, ToUpper(sch));
    ToUpperEqualIff(obj, ToUpper(obj));
    match db(TypeQuery(sch, obj))
    case Err(e) => Err(e)
    case Ok(rawType) => Ok(DbObjectInfo(sch, obj, LookupType(rawType)))
  }

  /** `getDDL`: the object's own DDL, under the retrieval label of its kind. */
  function DdlQuery(o: DbObjectInfo): (q: Query)
    ensures q.GetDdl? && q.name == o.name && q.owner == o.schema
    ensures LookupType(q.objectType) == o.typ && q.objectType != "PACKAGE BODY"
  {
    GetDdl(Label(o.typ), o.name, o.schema)
  }

  /** `getDependentDDL(typ)`: the DDL of the objects of kind `typ` that depend on `o`. */
  function DependentDdlQuery(o: DbObjectInfo, typ: Kind): (q: Query)
    ensures q.GetDependentDdl? && q.name == o.name && q.owner == o.schema
    ensures LookupType(q.objectType) == typ
  {
    GetDependentDdl(Label(typ), o.name, o.schema)
  }

  /** The text a fetch yields when its error is discarded: `getDDL` returns "" beside an error. */
  function Discarded(r: Result<string>): (s: string)
    ensures r.Ok? ==> s == r.value
    ensures r.Err? ==> s == ""
  {
    if r.Ok? then r.value else ""
  }

  /** The queries `dbObjectInfo.String` issues and the text it returns; `Err` is the
      `closeAndExit` of a failed package body fetch. */
  datatype Retrieval = Retrieval(trace: seq<Query>, text: Result<string>)

  /**
   * `dbObjectInfo.String`. A package body is fetched once. A table fetches its
   * own DDL and its dependent index DDL; the two goroutines are modelled as
   * two fetches whose results are joined table first, because `tableChan` is
   * always received before `indexChan`. Every other kind retrieves nothing.
   */
  function Render(o: DbObjectInfo, db: Database): (r: Retrieval)
    ensures o.typ == PackageBody ==>
      && r.trace == [GetDdl("PACKAGE_BODY", o.name, o.schema)]
      && r.text == db(r.trace[0])
    ensures o.typ == Table ==>
      && r.trace == [GetDdl("TABLE", o.name, o.schema), GetDependentDdl("INDEX", o.name, o.schema)]
      && r.text == Ok(Discarded(db(r.trace[0])) + "\n" + Discarded(db(r.trace[1])))
    ensures o.typ == Index || o.typ == Illegal ==> r == Retrieval([], Ok(""))
  {
    match o.typ
    case PackageBody =>
      var q := DdlQuery(o);
      Retrieval([q], db(q))
    case Table =>
      var tableQuery, indexQuery := DdlQuery(o), DependentDdlQuery(o, Index);
      var tableDdl, indexDdl := Discarded(db(tableQuery)), Discarded(db(indexQuery));
      Retrieval([tableQuery, indexQuery], Ok(tableDdl + "\n" + indexDdl))
    case _ => Retrieval([], Ok(""))
  }

  /**
   * The tail of main.go's `main`: classify, render, `fmt.Println` the text.
   * Any `closeAndExit(db, 1, err)` leaves standard output empty with status 1;
   * the deferred `closeAndExit(db, 0)` gives status 0 otherwise.
   */
  function Invoke(db: Database, sch: string, obj: string): (e: Execution)
    ensures |e.trace| >= 1 && e.trace[0] == TypeQuery(ToUpper(sch), ToUpper(obj))
    ensures e.status == 1 <==> e.stdout == ""
    ensures e.status <= 1
  {
    match NewDbObjectInfo(db, sch, obj)
    case Err(_) => Execution([TypeQuery(ToUpper(sch), ToUpper(obj))], "", 1)
    case Ok(info) =>
      var r := Render(info, db);
      var trace := [TypeQuery(info.schema, info.name)] + r.trace;
      match r.text
      case Err(_) => Execution(trace, "", 1)
      case Ok(text) => Execution(trace, text + "\n", 0)
  }

  /** "xxt", "Xxt" and "XXT" give the same record; more generally, inputs equal up to case do. */
  lemma NewDbObjectInfoIgnoresCase(db: Database, sch1: string, obj1: string, sch2: string, obj2: string)
    requires EqualIgnoringCase(sch1, sch2) && EqualIgnoringCase(obj1, obj2)
    ensures NewDbObjectInfo(db, sch1, obj1) == NewDbObjectInfo(db, sch2, obj2)
  {
    ToUpperEqualIff(sch1, sch2);
    ToUpperEqualIff(obj1, obj2);
  }

  /** Re-normalising a record's own schema and name reproduces the record. */
  lemma NewDbObjectInfoIdempotent(db: Database, sch: string, obj: string)
    requires NewDbObjectInfo(db, sch, obj).Ok?
    ensures var o := NewDbObjectInfo(db, sch, obj).value;
      NewDbObjectInfo(db, o.schema, o.name) == NewDbObjectInfo(db, sch, obj)
  {
    ToUpperIdempotent(sch);
    ToUpperIdempotent(obj);
  }

  lemma MixedCaseExample(db: Database)
    ensures NewDbObjectInfo(db, "xxt", "foo_tbl") == NewDbObjectInfo(db, "Xxt", "Foo_Tbl")
    ensures NewDbObjectInfo(db, "Xxt", "Foo_Tbl") == NewDbObjectInfo(db, "XXT", "FOO_TBL")
  {
    NewDbObjectInfoIgnoresCase(db, "xxt", "foo_tbl", "Xxt", "Foo_Tbl");
    NewDbObjectInfoIgnoresCase(db, "Xxt", "Foo_Tbl", "XXT", "FOO_TBL");
  }

  /** Retrieval only ever uses retrieval labels, and the record's own name and owner. */
  lemma RenderUsesRetrievalLabels(o: DbObjectInfo, db: Database)
    ensures forall q :: q in Render(o, db).trace ==>
      && IsRetrieval(q)
      && q.objectType != "PACKAGE BODY"
      && LookupType(q.objectType) != Illegal
      && q.name == o.name && q.owner == o.schema
  {
  }

  /** In the table path a failed fetch contributes "" and never aborts the join. */
  lemma TableFetchFailureContributesEmpty(o: DbObjectInfo, db: Database)
    requires o.typ == Table
    ensures Render(o, db).text.Ok?
    ensures db(DdlQuery(o)).Err? ==>
      Render(o, db).text.value == "\n" + Discarded(db(DependentDdlQuery(o, Index)))
    ensures db(DependentDdlQuery(o, Index)).Err? ==>
      Render(o, db).text.value == Discarded(db(DdlQuery(o))) + "\n"
  {
  }

  /** Only a package body fetch can fail the rendering. */
  lemma RenderFailsOnlyForPackageBody(o: DbObjectInfo, db: Database)
    ensures Render(o, db).text.Err? <==> o.typ == PackageBody && db(DdlQuery(o)).Err?
  {
  }

  /** Every query an invocation issues uses the upper-cased schema and object name. */
  lemma InvokeUsesUpperCasedNames(db: Database, sch: string, obj: string)
    ensures forall q :: q in Invoke(db, sch, obj).trace ==>
      q.owner == ToUpper(sch) && q.name == ToUpper(obj)
  {
  }

  /** End to end for a table: table DDL, newline, index DDL, newline; status 0 whatever the fetches did. */
  lemma InvokeTable(db: Database, sch: string, obj: string)
    requires db(TypeQuery(ToUpper(sch), ToUpper(obj))) == Ok("TABLE")
    ensures var e := Invoke(db, sch, obj);
      && e.trace == [TypeQuery(ToUpper(sch), ToUpper(obj)),
                     GetDdl("TABLE", ToUpper(obj), ToUpper(sch)),
                     GetDependentDdl("INDEX", ToUpper(obj), ToUpper(sch))]
      && e.stdout == Discarded(db(e.trace[1])) + "\n" + Discarded(db(e.trace[2])) + "\n"
      && e.status == 0
  {
  }

  lemma UpperCaseExample()
    ensures ToUpper("xxt") == "XXT" && ToUpper("foo_tbl") == "FOO_TBL"
  {
    var schema, name := ToUpper("xxt"), ToUpper("foo_tbl");
    assert schema[0] == 'X' && schema[1] == 'X' && schema[2] == 'T';
    assert name[0] == 'F' && name[1] == 'O' && name[2] == 'O' && name[3] == '_';
    assert name[4] == 'T' && name[5] == 'B' && name[6] == 'L';
  }

  /** The end-to-end scenario: XXT.FOO_TBL, a table with one index. */
  lemma FooTableScenario(db: Database)
    requires db(TypeQuery("XXT", "FOO_TBL")) == Ok("TABLE")
    requires db(GetDdl("TABLE", "FOO_TBL", "XXT")) == Ok("CREATE TABLE FOO_TBL (...)")
    requires db(GetDependentDdl("INDEX", "FOO_TBL", "XXT")) == Ok("CREATE INDEX FOO_IDX ...")
    ensures Invoke(db, "xxt", "foo_tbl").stdout ==
      "CREATE TABLE FOO_TBL (...)" + "\n" + "CREATE INDEX FOO_IDX ..." + "\n"
  {
    UpperCaseExample();
    InvokeTable(db, "xxt", "foo_tbl");
    var e := Invoke(db, "xxt", "foo_tbl");
    assert e.trace[1] == GetDdl("TABLE", "FOO_TBL", "XXT");
    assert e.trace[2] == GetDependentDdl("INDEX", "FOO_TBL", "XXT");
  }

  /** A package body costs exactly one retrieval, labelled "PACKAGE_BODY", printed verbatim or fatal. */
  lemma InvokePackageBody(db: Database, sch: string, obj: string)
    requires db(TypeQuery(ToUpper(sch), ToUpper(obj))).Ok?
    requires LookupType(db(TypeQuery(ToUpper(sch), ToUpper(obj))).value) == PackageBody
    ensures var e := Invoke(db, sch, obj);
      var fetch := GetDdl("PACKAGE_BODY", ToUpper(obj), ToUpper(sch));
      && e.trace == [TypeQuery(ToUpper(sch), ToUpper(obj)), fetch]
      && (db(fetch).Ok? ==> e.stdout == db(fetch).value + "\n" && e.status == 0)
      && (db(fetch).Err? ==> e.stdout == "" && e.status == 1)
  {
  }

  /** An index, or a label that classifies as illegal, retrieves nothing and prints one empty line. */
  lemma InvokeOtherKinds(db: Database, sch: string, obj: string)
    requires db(TypeQuery(ToUpper(sch), ToUpper(obj))).Ok?
    requires LookupType(db(TypeQuery(ToUpper(sch), ToUpper(obj))).value) in {Index, Illegal}
    ensures Invoke(db, sch, obj) == Execution([TypeQuery(ToUpper(sch), ToUpper(obj))], "\n", 0)
  {
  }

  /** A failed classification prints nothing and exits with status 1. */
  lemma InvokeClassificationFailure(db: Database, sch: string, obj: string)
    requires db(TypeQuery(ToUpper(sch), ToUpper(obj))).Err?
    ensures Invoke(db, sch, obj) == Execution([TypeQuery(ToUpper(sch), ToUpper(obj))], "", 1)
  {
  }
}
