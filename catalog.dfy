/**
 * The query-executing capability both variants of the tool depend on. Every
 * catalog lookup and every `dbms_metadata` call is one `Query`; the database
 * is an oracle that answers each query with a text or an error.
 */
module Catalog {
  import opened Wrappers

  datatype Query =
    /** `select object_type from dba_objects where owner = :owner and object_name = :object ...` */
    | ObjectTypeOf(owner: string, name: string)
    /** `dbms_metadata.get_ddl(objectType, name, owner)` */
    | GetDdl(objectType: string, name: string, owner: string)
    /** `dbms_metadata.get_dependent_ddl(objectType, name, owner)` */
    | GetDependentDdl(objectType: string, name: string, owner: string)

  /** The single-row scalar answer (or the error) the database gives to a query. */
  type Database = Query -> Result<string>

  /** What one invocation of the tool does: the queries it issues, in order, what it
      writes to standard output, and its exit status. */
  datatype Execution = Execution(trace: seq<Query>, stdout: string, status: nat)

  /** A retrieval query, as opposed to the catalog classification query. */
  predicate IsRetrieval(q: Query) {
    q.GetDdl? || q.GetDependentDdl?
  }
}
