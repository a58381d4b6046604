/**
 * ord.go: the variant that keeps schema and object in process-wide flag
 * variables, upper-cases them in place, dispatches on the raw catalog label
 * and strips double quotes from table and index DDL before printing.
 */
module Ord {
  import opened Wrappers
  import opened Ascii
  import opened Catalog
  import opened ObjectKinds

  /** `strings.Replace(s, "\"", "", -1)`: every double quote removed. */
  function StripQuotes(s: string): (r: string)
    ensures '"' !in r
    ensures |r| <= |s|
    ensures forall c :: c != '"' ==> multiset(r)[c] == multiset(s)[c]
  {
    if s == [] then []
    else
      assert s == [s[0]] + s[1..];
      (if s[0] == '"' then [] else [s[0]]) + StripQuotes(s[1..])
  }

  /** Stripping works character by character, so it keeps the other characters in their order. */
  lemma {:induction false} StripQuotesAppend(a: string, b: string)
    ensures StripQuotes(a + b) == StripQuotes(a) + StripQuotes(b)
  {
    if a != [] {
      assert (a + b)[1..] == a[1..] + b;
      StripQuotesAppend(a[1..], b);
    } else {
      assert a + b == b;
    }
  }

  /** Text without a quote is printed unchanged. */
  lemma {:induction false} StripQuotesFixesQuoteFree(s: string)
    requires '"' !in s
    ensures StripQuotes(s) == s
  {
    if s != [] {
      StripQuotesFixesQuoteFree(s[1..]);
    }
  }

  lemma StripQuotesIdempotent(s: string)
    ensures StripQuotes(StripQuotes(s)) == StripQuotes(s)
  {
    StripQuotesFixesQuoteFree(StripQuotes(s));
  }

  /** The query of `typeOf`: it reads `*sch` and `*obj`, not its own `name` argument. */
  function TypeOfQuery(sch: string, obj: string): (q: Query)
    ensures !IsRetrieval(q) && q.owner == sch && q.name == obj
  {
    ObjectTypeOf(sch, obj)
  }

  /** `getTableInfo`: `get_ddl('TABLE', *obj, *sch)`. */
  function TableInfoQuery(sch: string, obj: string): (q: Query)
    ensures q.GetDdl? && q.owner == sch && q.name == obj
    ensures LookupType(q.objectType) == Table
  {
    GetDdl("TABLE", obj, sch)
  }

  /** `getIndexInfo`: `get_dependent_ddl('INDEX', *obj, *sch)`. */
  function IndexInfoQuery(sch: string, obj: string): (q: Query)
    ensures q.GetDependentDdl? && q.owner == sch && q.name == obj
    ensures LookupType(q.objectType) == Index
  {
    GetDependentDdl("INDEX", obj, sch)
  }

  /** `getPackageBody`: `get_ddl('PACKAGE_BODY', *obj, *sch)`. */
  function PackageBodyQuery(sch: string, obj: string): (q: Query)
    ensures q.GetDdl? && q.owner == sch && q.name == obj
    ensures LookupType(q.objectType) == PackageBody && q.objectType != "PACKAGE BODY"
  {
    GetDdl("PACKAGE_BODY", obj, sch)
  }

  /**
   * What ord.go's `main` does once its flags are parsed, as a function of the
   * flag values it starts from. Each `log.Fatal` ends the run with nothing
   * more printed and status 1; each `fmt.Println` appends a line.
   */
  function Execute(db: Database, sch: string, obj: string): (e: Execution)
    ensures |e.trace| >= 1 && e.trace[0] == TypeOfQuery(ToUpper(sch), ToUpper(obj))
    ensures e.status == 1 ==> e.stdout == ""
    ensures e.stdout != "" <==> e.status == 0 && |e.trace| > 1
    ensures e.status <= 1
  {
    var sch, obj := ToUpper(sch), ToUpper(obj);
    var typeQuery := TypeOfQuery(sch, obj);
    match db(typeQuery)
    case Err(_) => Execution([typeQuery], "", 1)
    case Ok(t) =>
      if t == "TABLE" then
        var tableQuery, indexQuery := TableInfoQuery(sch, obj), IndexInfoQuery(sch, obj);
        match db(tableQuery)
        case Err(_) => Execution([typeQuery, tableQuery], "", 1)
        case Ok(tableDdl) =>
          match db(indexQuery)
          case Err(_) => Execution([typeQuery, tableQuery, indexQuery], "", 1)
          case Ok(indexDdl) =>
            Execution([typeQuery, tableQuery, indexQuery],
                      StripQuotes(tableDdl) + "\n" + StripQuotes(indexDdl) + "\n", 0)
      else if t == "PACKAGE BODY" then
        var packageQuery := PackageBodyQuery(sch, obj);
        match db(packageQuery)
        case Err(_) => Execution([typeQuery, packageQuery], "", 1)
        case Ok(packageDdl) => Execution([typeQuery, packageQuery], packageDdl + "\n", 0)
      else
        Execution([typeQuery], "", 0)
  }

  /** The flag variables `*sch` and `*obj`, which `main` overwrites and the query helpers read. */
  class Flags {
    var sch: string
    var obj: string

    constructor (sch: string, obj: string)
      ensures this.sch == sch && this.obj == obj
    {
      this.sch := sch;
      this.obj := obj;
    }

    /** `*sch = strings.ToUpper(*sch)` and `*obj = strings.ToUpper(*obj)`. */
    method Normalize()
      modifies this
      ensures sch == ToUpper(old(sch)) && obj == ToUpper(old(obj))
      ensures NoLower(sch) && NoLower(obj)
    {
      sch := ToUpper(sch);
      obj := ToUpper(obj);
      ToUpperIdempotent(old(sch));
      ToUpperIdempotent(old(obj));
    }

    /**
     * The body of `main` after flag parsing: normalise the flags in place, then
     * classify and dispatch, printing as it goes.
     */
    method Run(db: Database) returns (e: Execution)
      modifies this
      ensures sch == ToUpper(old(sch)) && obj == ToUpper(old(obj))
      ensures e == Execute(db, old(sch), old(obj))
    {
      Normalize();
      var trace := [TypeOfQuery(sch, obj)];
      var t := db(trace[0]);
      if t.Err? {
        return Execution(trace, "", 1);
      }
      var stdout := "";
      if t.value == "TABLE" {
        trace := trace + [TableInfoQuery(sch, obj)];
        var tableDdl := db(trace[1]);
        if tableDdl.Err? {
          return Execution(trace, "", 1);
        }
        trace := trace + [IndexInfoQuery(sch, obj)];
        var indexDdl := db(trace[2]);
        if indexDdl.Err? {
          return Execution(trace, "", 1);
        }
        stdout := stdout + StripQuotes(tableDdl.value) + "\n";
        stdout := stdout + StripQuotes(indexDdl.value) + "\n";
      } else if t.value == "PACKAGE BODY" {
        trace := trace + [PackageBodyQuery(sch, obj)];
        var packageDdl := db(trace[1]);
        if packageDdl.Err? {
          return Execution(trace, "", 1);
        }
        stdout := stdout + packageDdl.value + "\n";
      }
      e := Execution(trace, stdout, 0);
    }
  }

  /** Every query is made with the upper-cased schema and object name. */
  lemma ExecuteUsesUpperCasedNames(db: Database, sch: string, obj: string)
    ensures forall q :: q in Execute(db, sch, obj).trace ==>
      q.owner == ToUpper(sch) && q.name == ToUpper(obj) && NoLower(q.owner) && NoLower(q.name)
  {
    ToUpperIdempotent(sch);
    ToUpperIdempotent(obj);
  }

  /** A table prints its stripped DDL and then its stripped index DDL, one line each, table first. */
  lemma ExecuteTable(db: Database, sch: string, obj: string)
    requires db(TypeOfQuery(ToUpper(sch), ToUpper(obj))) == Ok("TABLE")
    requires db(TableInfoQuery(ToUpper(sch), ToUpper(obj))).Ok?
    requires db(IndexInfoQuery(ToUpper(sch), ToUpper(obj))).Ok?
    ensures var e := Execute(db, sch, obj);
      && e.trace == [ObjectTypeOf(ToUpper(sch), ToUpper(obj)),
                     GetDdl("TABLE", ToUpper(obj), ToUpper(sch)),
                     GetDependentDdl("INDEX", ToUpper(obj), ToUpper(sch))]
      && e.stdout == StripQuotes(db(e.trace[1]).value) + "\n" + StripQuotes(db(e.trace[2]).value) + "\n"
      && '"' !in e.stdout
      && e.status == 0
  {
  }

  /** Both table fetches finish before anything is printed, so a failure in either prints nothing. */
  lemma ExecuteTableNoPartialOutput(db: Database, sch: string, obj: string)
    requires db(TypeOfQuery(ToUpper(sch), ToUpper(obj))) == Ok("TABLE")
    requires db(TableInfoQuery(ToUpper(sch), ToUpper(obj))).Err? || db(IndexInfoQuery(ToUpper(sch), ToUpper(obj))).Err?
    ensures Execute(db, sch, obj).stdout == "" && Execute(db, sch, obj).status == 1
  {
  }

  /** A package body is fetched once, as "PACKAGE_BODY", and printed verbatim, quotes included. */
  lemma ExecutePackageBody(db: Database, sch: string, obj: string)
    requires db(TypeOfQuery(ToUpper(sch), ToUpper(obj))) == Ok("PACKAGE BODY")
    ensures var e := Execute(db, sch, obj);
      var fetch := GetDdl("PACKAGE_BODY", ToUpper(obj), ToUpper(sch));
      && e.trace == [ObjectTypeOf(ToUpper(sch), ToUpper(obj)), fetch]
      && (db(fetch).Ok? ==> e.stdout == db(fetch).value + "\n" && e.status == 0)
      && (db(fetch).Err? ==> e.stdout == "" && e.status == 1)
  {
  }

  /** Every other type, "INDEX" included, retrieves nothing and prints nothing. */
  lemma ExecuteOtherTypesSilent(db: Database, sch: string, obj: string)
    requires db(TypeOfQuery(ToUpper(sch), ToUpper(obj))).Ok?
    requires db(TypeOfQuery(ToUpper(sch), ToUpper(obj))).value !in {"TABLE", "PACKAGE BODY"}
    ensures Execute(db, sch, obj) == Execution([ObjectTypeOf(ToUpper(sch), ToUpper(obj))], "", 0)
  {
  }
}
