/**
 * main.go and ord.go are two implementations of the same tool. Where they
 * agree, their executions are equal query for query and byte for byte; where
 * they disagree, the difference is stated exactly.
 */
module Variants {
  import opened Wrappers
  import opened Ascii
  import opened Catalog
  import opened ObjectKinds
  import DbObject
  import Ord

  /** Both variants issue the same classification query and fail the same way when it fails. */
  lemma AgreeOnClassificationFailure(db: Database, sch: string, obj: string)
    requires db(ObjectTypeOf(ToUpper(sch), ToUpper(obj))).Err?
    ensures DbObject.Invoke(db, sch, obj) == Ord.Execute(db, sch, obj)
  {
  }

  /** For a package body the two variants are indistinguishable. */
  lemma AgreeOnPackageBody(db: Database, sch: string, obj: string)
    requires db(ObjectTypeOf(ToUpper(sch), ToUpper(obj))) == Ok("PACKAGE BODY")
    ensures DbObject.Invoke(db, sch, obj) == Ord.Execute(db, sch, obj)
  {
  }

  /** For a table whose two fetches succeed with quote-free text, the variants print the same lines. */
  lemma AgreeOnQuoteFreeTable(db: Database, sch: string, obj: string)
    requires db(ObjectTypeOf(ToUpper(sch), ToUpper(obj))) == Ok("TABLE")
    requires db(GetDdl("TABLE", ToUpper(obj), ToUpper(sch))).Ok?
    requires db(GetDependentDdl("INDEX", ToUpper(obj), ToUpper(sch))).Ok?
    requires '"' !in db(GetDdl("TABLE", ToUpper(obj), ToUpper(sch))).value
    requires '"' !in db(GetDependentDdl("INDEX", ToUpper(obj), ToUpper(sch))).value
    ensures DbObject.Invoke(db, sch, obj) == Ord.Execute(db, sch, obj)
  {
    Ord.StripQuotesFixesQuoteFree(db(GetDdl("TABLE", ToUpper(obj), ToUpper(sch))).value);
    Ord.StripQuotesFixesQuoteFree(db(GetDependentDdl("INDEX", ToUpper(obj), ToUpper(sch))).value);
  }

  /** For a table whose two fetches succeed, ord.go prints exactly main.go's output with the quotes removed. */
  lemma {:induction false} TableOutputsDifferByQuotes(db: Database, sch: string, obj: string)
    requires db(ObjectTypeOf(ToUpper(sch), ToUpper(obj))) == Ok("TABLE")
    requires db(GetDdl("TABLE", ToUpper(obj), ToUpper(sch))).Ok?
    requires db(GetDependentDdl("INDEX", ToUpper(obj), ToUpper(sch))).Ok?
    ensures DbObject.Invoke(db, sch, obj).trace == Ord.Execute(db, sch, obj).trace
    ensures DbObject.Invoke(db, sch, obj).status == Ord.Execute(db, sch, obj).status == 0
    ensures Ord.Execute(db, sch, obj).stdout == Ord.StripQuotes(DbObject.Invoke(db, sch, obj).stdout)
  {
    var tableDdl := db(GetDdl("TABLE", ToUpper(obj), ToUpper(sch))).value;
    var indexDdl := db(GetDependentDdl("INDEX", ToUpper(obj), ToUpper(sch))).value;
    Ord.StripQuotesAppend(tableDdl + "\n" + indexDdl, "\n");
    Ord.StripQuotesAppend(tableDdl + "\n", indexDdl);
    Ord.StripQuotesAppend(tableDdl, "\n");
    Ord.StripQuotesFixesQuoteFree("\n");
  }

  /** Every retrieval helper of ord.go builds the query main.go's `getDDL`/`getDependentDDL` build for the same record. */
  lemma HelperQueriesAgree(sch: string, obj: string)
    ensures Ord.TypeOfQuery(sch, obj) == DbObject.TypeQuery(sch, obj)
    ensures Ord.TableInfoQuery(sch, obj) == DbObject.DdlQuery(DbObject.DbObjectInfo(sch, obj, Table))
    ensures Ord.IndexInfoQuery(sch, obj) == DbObject.DependentDdlQuery(DbObject.DbObjectInfo(sch, obj, Table), Index)
    ensures Ord.PackageBodyQuery(sch, obj) == DbObject.DdlQuery(DbObject.DbObjectInfo(sch, obj, PackageBody))
  {
  }

  /** A failed table fetch: main.go prints the rest and succeeds, ord.go prints nothing and fails. */
  lemma DivergeOnFailedTableFetch(db: Database, sch: string, obj: string)
    requires db(ObjectTypeOf(ToUpper(sch), ToUpper(obj))) == Ok("TABLE")
    requires db(GetDdl("TABLE", ToUpper(obj), ToUpper(sch))).Err?
    ensures DbObject.Invoke(db, sch, obj).status == 0
    ensures DbObject.Invoke(db, sch, obj).stdout ==
      "\n" + DbObject.Discarded(db(GetDependentDdl("INDEX", ToUpper(obj), ToUpper(sch)))) + "\n"
    ensures Ord.Execute(db, sch, obj) ==
      Execution([ObjectTypeOf(ToUpper(sch), ToUpper(obj)), GetDdl("TABLE", ToUpper(obj), ToUpper(sch))], "", 1)
  {
  }

  /** An index: main.go prints one empty line, ord.go prints nothing; neither retrieves anything. */
  lemma DivergeOnIndex(db: Database, sch: string, obj: string)
    requires db(ObjectTypeOf(ToUpper(sch), ToUpper(obj))) == Ok("INDEX")
    ensures DbObject.Invoke(db, sch, obj).trace == [ObjectTypeOf(ToUpper(sch), ToUpper(obj))]
    ensures Ord.Execute(db, sch, obj).trace == [ObjectTypeOf(ToUpper(sch), ToUpper(obj))]
    ensures DbObject.Invoke(db, sch, obj).stdout == "\n" && DbObject.Invoke(db, sch, obj).status == 0
    ensures Ord.Execute(db, sch, obj).stdout == "" && Ord.Execute(db, sch, obj).status == 0
  {
  }

  /** A catalog answer spelt "PACKAGE_BODY" is a package body to main.go but nothing to ord.go. */
  lemma DivergeOnRetrievalSpelling(db: Database, sch: string, obj: string)
    requires db(ObjectTypeOf(ToUpper(sch), ToUpper(obj))) == Ok("PACKAGE_BODY")
    ensures DbObject.Invoke(db, sch, obj).trace ==
      [ObjectTypeOf(ToUpper(sch), ToUpper(obj)), GetDdl("PACKAGE_BODY", ToUpper(obj), ToUpper(sch))]
    ensures Ord.Execute(db, sch, obj) == Execution([ObjectTypeOf(ToUpper(sch), ToUpper(obj))], "", 0)
  {
  }
}
