/**
 The error catalog: a map from error code to description, filled from an
 already parsed sequence of records, and its lookup with the zero-value
 default.
 */
module Catalog {
  import opened ErrorTypes

  datatype Option<T> = None | Some(value: T)

  /** The `Code` values that occur in `ds`. */
  function CodesOf(ds: seq<ErrorDescription>): set<string> {
    set d | d in ds :: d.code
  }

  /** The map that inserting the records of `ds` one after another into an
      empty map produces: each record under its own code, a later record
      replacing an earlier one with the same code. */
  function CatalogOf(ds: seq<ErrorDescription>): (m: map<string, ErrorDescription>)
    ensures m.Keys == CodesOf(ds)
  {
    if ds == [] then map[]
    else
      var last := ds[|ds| - 1];
      assert ds == ds[..|ds| - 1] + [last];
      CatalogOf(ds[..|ds| - 1])[last.code := last]
  }

  /** The index of the last record of `ds` whose code is `c`, if there is one. */
  function LastWithCode(ds: seq<ErrorDescription>, c: string): (r: Option<nat>)
    ensures r.Some? ==> r.value < |ds| && ds[r.value].code == c
    ensures r.Some? ==> forall j :: r.value < j < |ds| ==> ds[j].code != c
    ensures r.None? <==> c !in CodesOf(ds)
  {
    if ds == [] then None
    else if ds[|ds| - 1].code == c then Some(|ds| - 1)
    else
      assert ds == ds[..|ds| - 1] + [ds[|ds| - 1]];
      LastWithCode(ds[..|ds| - 1], c)
  }

  /** Go map indexing `errorsMap[code]`: the stored description, or the zero
      value when the code is absent. Never fails. */
  function Lookup(errorsMap: map<string, ErrorDescription>, code: string): (d: ErrorDescription)
    ensures code in errorsMap ==> d == errorsMap[code]
    ensures code !in errorsMap ==> d.title == "" && d.description == "" && d.code == ""
  {
    if code in errorsMap then errorsMap[code] else ZeroDescription
  }

  /** After loading `ds`, looking up `c` yields the last record of `ds` with
      code `c`, or the zero value when no record has that code. */
  lemma {:induction false} LookupAfterLoad(ds: seq<ErrorDescription>, c: string)
    ensures Lookup(CatalogOf(ds), c) ==
            match LastWithCode(ds, c)
            case Some(i) => ds[i]
            case None => ZeroDescription
  {
    if ds != [] && ds[|ds| - 1].code != c {
      LookupAfterLoad(ds[..|ds| - 1], c);
    }
  }

  /** A record that no later record shares its code with is the one the
      catalog holds for that code: the last duplicate wins. */
  lemma {:induction false} LastRecordWins(ds: seq<ErrorDescription>, i: nat)
    requires i < |ds|
    requires forall j :: i < j < |ds| ==> ds[j].code != ds[i].code
    ensures ds[i].code in CatalogOf(ds)
    ensures CatalogOf(ds)[ds[i].code] == ds[i]
  {
    var c := ds[i].code;
    var r := LastWithCode(ds, c);
    assert r.Some? && r.value == i;
    LookupAfterLoad(ds, c);
  }

  /** Every entry of a loaded catalog is a record of the input, namely the
      last one with that code. */
  lemma {:induction false} EntryIsLastRecord(ds: seq<ErrorDescription>, c: string)
    requires c in CatalogOf(ds)
    ensures exists i :: 0 <= i < |ds| && ds[i] == CatalogOf(ds)[c] &&
                        forall j :: i < j < |ds| ==> ds[j].code != c
  {
    LookupAfterLoad(ds, c);
    var i := LastWithCode(ds, c).value;
    assert ds[i] == CatalogOf(ds)[c];
  }

  /** The package-level catalog. Before loading it is empty, as the Go nil map
      is: every lookup then yields the zero value. */
  class ErrorCatalog {
    var errorsMap: map<string, ErrorDescription>

    constructor ()
      ensures errorsMap == map[]
    {
      errorsMap := map[];
    }

    /** Replaces the catalog by a fresh map holding the records of
        `descriptions`, each under its code, later duplicates overwriting
        earlier ones. Nothing of the previous catalog survives, so loading the
        same records again yields the same catalog. */
    method LoadErrorDescriptions(descriptions: seq<ErrorDescription>)
      modifies this
      ensures errorsMap == CatalogOf(descriptions)
      ensures errorsMap.Keys == CodesOf(descriptions)
    {
      errorsMap := map[];
      for i := 0 to |descriptions|
        invariant errorsMap == CatalogOf(descriptions[..i])
      {
        var descObj := descriptions[i];
        assert descriptions[..i + 1][..i] == descriptions[..i];
        errorsMap := errorsMap[descObj.code := descObj];
      }
      assert descriptions[..|descriptions|] == descriptions;
    }
  }
}
