# ord — a verified model of the Oracle DDL extractor's core

The tool prints the DDL of one Oracle schema object. It asks the `dba_objects`
catalog what kind of object `SCHEMA.NAME` is, then fetches the object's
definition through `dbms_metadata.get_ddl`. For a table it also fetches the
dependent index DDL through `dbms_metadata.get_dependent_ddl`. The repository
ships the tool twice:

- `main.go` classifies the raw catalog label into a closed kind
  (`illegal | table | index | packageBody`) and dispatches on the kind.
  The table path fetches table DDL and index DDL in two goroutines and joins
  them table first.
- `ord.go` keeps schema and object in process-wide flag variables. It
  upper-cases them in place, dispatches on the raw label string, and strips
  double quotes from table and index DDL.

The model covers both variants.

- `wrappers.dfy` (`Wrappers`): `Option` and `Result`. `Result` stands for a Go `(value, error)` pair.
- `ascii.dfy` (`Ascii`): `strings.ToUpper` on ASCII text, and equality that ignores case.
- `catalog.dfy` (`Catalog`): the query capability. Every catalog or `dbms_metadata`
  call is a `Query`. A `Database` is an uninterpreted function that answers each query
  with a text or an error. An `Execution` records one run of the tool:
  the queries it issued, in order, its standard output and its exit status.
- `object_kinds.dfy` (`ObjectKinds`): the `dbObjectType` enum, the `dbObjectTypes`
  label table (slot 0 is the zero string, as in Go), `dbObjectType.String` and
  `lookupType`.
- `db_object.dfy` (`DbObject`): `newDbObjectInfo`, `getDDL`/`getDependentDDL`,
  `dbObjectInfo.String`, and the end of `main`, where the text is printed and the exit status chosen.
  This file is pure, like the Go it models.
- `ord.dfy` (`Ord`): quote stripping and the query helpers. The flag variables are a
  class `Flags` whose `Run` method upper-cases them in place and then classifies and dispatches.
  `Run` is proved equal to the specification function `Execute`.
- `variants.dfy` (`Variants`): where the two variants agree exactly and where they differ.

## Model

| member | source | states |
|---|---|---|
| `Ascii.ToUpper` | main.go:38 | upper-casing keeps the length and maps each character to its upper-case form, position by position |
| `Ascii.ToUpperIdempotent` | ord.go:21-22 | upper-cased text has no lower-case letter, and upper-casing it again changes nothing |
| `Ascii.ToUpperFixesUpperCase` | main.go:38 | text without lower-case letters is unchanged by upper-casing |
| `Ascii.ToUpperEqualIff` | main.go:38 | two strings upper-case to the same text if and only if they are equal ignoring ASCII case |
| `ObjectKinds.KindOf` | main.go:116 | `dbObjectType(i)` is the kind whose `iota` value is `i` |
| `ObjectKinds.Label` | main.go:30-34 | the retrieval label is empty exactly for `illegal` and never contains a space |
| `ObjectKinds.IndexOf` | main.go:114-119 | the search over the label table returns the first matching index, or reports that no entry matches |
| `ObjectKinds.LookupType` | main.go:109-120 | classification is total: `table` iff "TABLE", `index` iff "INDEX", `packageBody` iff "PACKAGE BODY" or "PACKAGE_BODY", and `illegal` for every other label |
| `ObjectKinds.LabelRoundTrip` | main.go:105-120 | classifying a kind's retrieval label gives back that kind, for every kind including `illegal` with its label "" |
| `ObjectKinds.LabelInjective` | main.go:30-34 | distinct kinds have distinct retrieval labels |
| `ObjectKinds.PackageBodyLabelsDiffer` | main.go:109-113 | the catalog says "PACKAGE BODY", retrieval needs "PACKAGE_BODY", and both classify as `packageBody` |
| `ObjectKinds.UnrecognisedLabelsAreIllegal` | main.go:114-119 | a label outside the four recognised ones is `illegal`, and "" is matched at slot 0, which is `illegal` |
| `DbObject.NewDbObjectInfo` | main.go:36-55 | fails exactly when the catalog query for the upper-cased names fails; otherwise stores upper-case schema and name equal to the inputs ignoring case, with the kind `lookupType` gives for the catalog's answer |
| `DbObject.NewDbObjectInfoIgnoresCase` | main.go:38 | schema and object names that are equal ignoring case produce identical records |
| `DbObject.NewDbObjectInfoIdempotent` | main.go:38-53 | building a record again from its own schema and name reproduces it |
| `DbObject.MixedCaseExample` | main.go:38 | "xxt"/"Xxt"/"XXT" (and the matching object names) produce identical records |
| `DbObject.TypeQuery` | main.go:39-45 | the classification query is not a retrieval and carries the given owner and object name |
| `DbObject.DdlQuery` | main.go:57-66 | `getDDL` calls `get_ddl` with the record's name and owner and a label that classifies back to the record's kind, never "PACKAGE BODY" |
| `DbObject.DependentDdlQuery` | main.go:68-77 | `getDependentDDL(typ)` calls `get_dependent_ddl` with the record's name and owner and a label that classifies back to `typ` |
| `DbObject.Discarded` | main.go:62-64 | a fetch whose error is discarded (`ddl, _ :=`, main.go:91 and 96) yields its text on success and "" on failure, since the helpers return "" beside an error |
| `DbObject.Render` | main.go:57-103 | package body: one `get_ddl` call labelled "PACKAGE_BODY" with (name, schema), its answer returned as is. Table: `get_ddl("TABLE")` then `get_dependent_ddl("INDEX")`, joined as table text, newline, index text, with a failed fetch read as "". Index and illegal: no call and "" |
| `DbObject.RenderUsesRetrievalLabels` | main.go:57-77 | every retrieval call uses a retrieval label, never "PACKAGE BODY", and the record's own name and owner |
| `DbObject.TableFetchFailureContributesEmpty` | main.go:87-100 | the table path never fails; a failed table or index fetch contributes "" to its side of the newline |
| `DbObject.RenderFailsOnlyForPackageBody` | main.go:80-86 | rendering fails if and only if the object is a package body and its single fetch fails |
| `DbObject.Invoke` | main.go:157-162 | the first query is the classification of the upper-cased names; status 1 exactly when nothing is printed |
| `DbObject.InvokeUsesUpperCasedNames` | main.go:36-61 | every query of a run uses the upper-cased schema and object name |
| `DbObject.InvokeTable` | main.go:87-100 | a table run issues classification, table fetch and index fetch, prints table text, newline, index text, newline, and exits 0 |
| `DbObject.FooTableScenario` | main.go:87-100 | for `xxt`/`foo_tbl` as a TABLE, the output is "CREATE TABLE FOO_TBL (...)" and "CREATE INDEX FOO_IDX ..." on two lines, in that order |
| `DbObject.InvokePackageBody` | main.go:80-86 | a package body run issues exactly one retrieval, `get_ddl("PACKAGE_BODY", name, schema)`, and prints its text or exits 1 with nothing printed |
| `DbObject.InvokeOtherKinds` | main.go:102 | an index or an unrecognised label retrieves nothing and prints one empty line with status 0 |
| `DbObject.InvokeClassificationFailure` | main.go:157-160 | a failed classification prints nothing and exits 1 |
| `Ord.StripQuotes` | ord.go:56-57 | the result has no double quote, and every other character occurs in it as often as in the input |
| `Ord.StripQuotesAppend` | ord.go:56-57 | stripping distributes over concatenation, so the other characters keep their order |
| `Ord.StripQuotesFixesQuoteFree` | ord.go:56-57 | text without a double quote is left unchanged |
| `Ord.StripQuotesIdempotent` | ord.go:56-57 | stripping twice is the same as stripping once |
| `Ord.TypeOfQuery` | ord.go:68-78 | `typeOf` issues the classification query, not a retrieval, with the flag values `*sch` and `*obj` |
| `Ord.TableInfoQuery` | ord.go:80-86 | `getTableInfo` calls `get_ddl` with owner `*sch`, name `*obj` and a label that classifies as a table |
| `Ord.IndexInfoQuery` | ord.go:88-94 | `getIndexInfo` calls `get_dependent_ddl` with owner `*sch`, name `*obj` and a label that classifies as an index |
| `Ord.PackageBodyQuery` | ord.go:96-102 | `getPackageBody` calls `get_ddl` with owner `*sch`, name `*obj` and a label that classifies as a package body, not the catalog's "PACKAGE BODY" |
| `Ord.Execute` | ord.go:41-64 | the first query classifies the upper-cased names; a fatal run prints nothing; output appears exactly on a successful table or package body run |
| `Ord.Flags.constructor` | ord.go:12-16 | the flag variables start with the given schema and object |
| `Ord.Flags.Normalize` | ord.go:21-22 | schema and object are replaced in place by their upper-case forms |
| `Ord.Flags.Run` | ord.go:18-66 | the flags end upper-cased, and the run issues exactly the queries and prints exactly the text of `Execute` on the original flag values |
| `Ord.ExecuteUsesUpperCasedNames` | ord.go:73 | every query uses the upper-cased schema and object name |
| `Ord.ExecuteTable` | ord.go:47-57 | a table issues `get_ddl('TABLE', obj, sch)` then `get_dependent_ddl('INDEX', obj, sch)`, and prints the stripped table text and then the stripped index text, one line each |
| `Ord.ExecuteTableNoPartialOutput` | ord.go:48-55 | if either table fetch fails, nothing is printed and the status is 1 |
| `Ord.ExecutePackageBody` | ord.go:58-63 | a package body is fetched once, as "PACKAGE_BODY", and printed verbatim, quotes included; a failed fetch prints nothing |
| `Ord.ExecuteOtherTypesSilent` | ord.go:46-64 | any other type string, "INDEX" included, retrieves nothing, prints nothing and exits 0 |
| `Variants.AgreeOnClassificationFailure` | ord.go:41-44 | when classification fails, both variants issue the same query, print nothing and exit 1 |
| `Variants.AgreeOnPackageBody` | ord.go:58-63 | for a package body the two variants issue the same queries, print the same text and exit the same way |
| `Variants.AgreeOnQuoteFreeTable` | ord.go:47-57 | for a table whose two fetches succeed with quote-free text, both variants issue the same queries and print the same text |
| `Variants.TableOutputsDifferByQuotes` | ord.go:56-57 | for a table whose two fetches succeed, both variants issue the same queries and exit 0, and ord.go's output is main.go's output with every double quote removed |
| `Variants.HelperQueriesAgree` | ord.go:68-102 | ord.go's `typeOf`, `getTableInfo`, `getIndexInfo` and `getPackageBody` build the same queries as main.go's classification, `getDDL` and `getDependentDDL` for a record of the matching kind |
| `Variants.DivergeOnFailedTableFetch` | main.go:90-94 | a failed table fetch makes main.go print "\n" and the index text with status 0, while ord.go prints nothing and exits 1 |
| `Variants.DivergeOnIndex` | main.go:102 | for an index, both variants issue only the classification query and exit 0; main.go prints one empty line while ord.go prints nothing |
| `Variants.DivergeOnRetrievalSpelling` | main.go:114-118 | for a catalog answer "PACKAGE_BODY", main.go goes on to `get_ddl("PACKAGE_BODY", name, schema)`, while ord.go issues only the classification query, prints nothing and exits 0 |

Two behaviours of main.go look unintended. The model follows the code as written for both:

- In main.go's table path, both fetch errors are discarded. A failed fetch therefore yields "" and the run still succeeds, with the other half printed. main.go's own package body path (main.go:82-85) and ord.go's table path (ord.go:48-55) instead treat a failed fetch as fatal and print nothing.
- For an index or an illegal kind, main.go prints `fmt.Println("")`, which is one empty line. ord.go prints nothing for the same objects (ord.go:46-64).

The catalog query uses Go's `QueryRow`, which scans the first row and reports no error when several rows match. Whether an ambiguous name is an error is therefore up to the database oracle.

## Left out

- The SQL text of the `dba_objects` query and its filter excluding 'TABLE PARTITION', 'SYNONYM' and 'PACKAGE' rows. The database is an oracle, and the filter happens inside it.
- The `set_transform_param(... 'SQLTERMINATOR' ...)` session directive. It is a one-shot side effect with no logic, and its failure path (fatal, nothing printed) is not modelled.
- Flag parsing, the `dsn` flag and its defaults, `sql.Open`, `db.Close`, stderr messages and `closeAndExit`/`log.Fatal` beyond their effect on output. A fatal error is modelled as no further output and status 1.
- Goroutines and channels. The table path in main.go is modelled as two sequential fetches joined table first, because `tableChan` is always received before `indexChan`. Scheduling is not modelled. In `DbObject.Render`, the order of the trace is the join order, not the order in which the calls are issued.
- Ascii.ToUpper: covers ASCII only. Characters outside a-z are kept as they are, so Unicode case mapping is not modelled.
- Out-of-range `dbObjectType` values, which would make `String` panic. `lookupType` never produces one, so `Kind` has exactly the four named values.
- The unused `name` parameter of `typeOf`. The query reads the flag variables instead, as the model's `Ord.TypeOfQuery` does.
