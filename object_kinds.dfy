/**
 * The object-kind taxonomy of main.go: the `dbObjectType` enumeration, the
 * `dbObjectTypes` label table used for retrieval, and `lookupType`, which
 * classifies a raw catalog label.
 */
module ObjectKinds {
  import opened Wrappers

  /** `illegal`, `table`, `index`, `packageBody`, numbered by `iota` in that order. */
  datatype Kind = Illegal | Table | Index | PackageBody

  /** The `iota` value of a kind. */
  function Ordinal(k: Kind): (n: nat)
    ensures n < |Labels|
  {
    match k
    case Illegal => 0
    case Table => 1
    case Index => 2
    case PackageBody => 3
  }

  /** `dbObjectType(i)` for an index of the label table. */
  function KindOf(i: nat): (k: Kind)
    requires i < |Labels|
    ensures Ordinal(k) == i
  {
    if i == 1 then Table
    else if i == 2 then Index
    else if i == 3 then PackageBody
    else Illegal
  }

  /** `dbObjectTypes`: slot 0 (`illegal`) is left as the zero string. */
  const Labels: seq<string> := ["", "TABLE", "INDEX", "PACKAGE_BODY"]

  /** `dbObjectType.String`: the label the retrieval calls expect. */
  function Label(k: Kind): (s: string)
    ensures s == "" <==> k == Illegal
    ensures ' ' !in s
  {
    Labels[Ordinal(k)]
  }

  /** The first index at or after `from` where `x` occurs in `s`, if any. */
  function IndexOf<T(==)>(s: seq<T>, x: T, from: nat): (r: Option<nat>)
    requires from <= |s|
    ensures r.Some? ==> from <= r.value < |s| && s[r.value] == x
    ensures r.Some? ==> forall j :: from <= j < r.value ==> s[j] != x
    ensures r.None? ==> forall j :: from <= j < |s| ==> s[j] != x
    decreases |s| - from
  {
    if from == |s| then None
    else if s[from] == x then Some(from)
    else IndexOf(s, x, from + 1)
  }

  /**
   * `lookupType`: the catalog spells the package body kind "PACKAGE BODY",
   * which is caught first; otherwise the label table is searched from slot 0,
   * and a label found nowhere is `illegal`.
   */
  function LookupType(raw: string): (k: Kind)
    ensures k == Table <==> raw == "TABLE"
    ensures k == Index <==> raw == "INDEX"
    ensures k == PackageBody <==> raw == "PACKAGE BODY" || raw == "PACKAGE_BODY"
  {
    if raw == "PACKAGE BODY" then PackageBody
    else
      match IndexOf(Labels, raw, 0)
      case Some(i) => KindOf(i)
      case None => Illegal
  }

  /** Every kind's retrieval label classifies back to that kind, `illegal` and its "" included. */
  lemma LabelRoundTrip(k: Kind)
    ensures LookupType(Label(k)) == k
  {
  }

  /** Distinct kinds have distinct retrieval labels. */
  lemma LabelInjective(k1: Kind, k2: Kind)
    ensures Label(k1) == Label(k2) ==> k1 == k2
  {
    LabelRoundTrip(k1);
    LabelRoundTrip(k2);
  }

  /** The catalog label and the retrieval label of a package body differ, and both classify as a package body. */
  lemma PackageBodyLabelsDiffer()
    ensures LookupType("PACKAGE BODY") == PackageBody
    ensures Label(PackageBody) == "PACKAGE_BODY"
    ensures Label(PackageBody) != "PACKAGE BODY"
    ensures LookupType(Label(PackageBody)) == PackageBody
  {
  }

  /** Anything outside the four recognised labels is `illegal`; the empty label hits slot 0, which is `illegal` too. */
  lemma UnrecognisedLabelsAreIllegal(raw: string)
    requires raw !in {"TABLE", "INDEX", "PACKAGE BODY", "PACKAGE_BODY"}
    ensures LookupType(raw) == Illegal
    ensures IndexOf(Labels, "", 0) == Some(Ordinal(Illegal))
  {
  }
}
