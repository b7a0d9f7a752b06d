/** The package catalog: the rows of the `packages` table, and the
    order-preserving filter several callers apply to it. */
module Catalog {
  import opened Common

  /** One row of the `packages` table. */
  datatype PackageRecord = PackageRecord(packageName: string, package: string, description: string)

  /** `get_available_packages`: the fetched rows, or `[]` when the query
      fails for any reason. */
  function AvailablePackages(fetched: Result<seq<PackageRecord>>): (r: seq<PackageRecord>)
    ensures fetched.Success? ==> r == fetched.value
    ensures fetched.Failure? ==> r == []
  {
    match fetched
    case Success(rows) => rows
    case Failure(_) => []
  }

  /** The `package_name` of every row, in catalog order. */
  function Names(catalog: seq<PackageRecord>): (r: seq<string>)
    ensures |r| == |catalog|
    ensures forall i :: 0 <= i < |catalog| ==> r[i] == catalog[i].packageName
  {
    seq(|catalog|, i requires 0 <= i < |catalog| => catalog[i].packageName)
  }

  /** `xs` is `ys` with some elements left out, the others kept in order. */
  predicate IsSubsequence<T(==)>(xs: seq<T>, ys: seq<T>)
    decreases |ys|
  {
    if xs == [] then true
    else if ys == [] then false
    else (xs[0] == ys[0] && IsSubsequence(xs[1..], ys[1..])) || IsSubsequence(xs, ys[1..])
  }

  /** The rows whose `package_name` is in `names`, in catalog order. */
  function Select(catalog: seq<PackageRecord>, names: seq<string>): (r: seq<PackageRecord>)
    ensures forall p :: p in r <==> p in catalog && p.packageName in names
    ensures IsSubsequence(r, catalog)
    ensures |r| <= |catalog|
    ensures forall p :: multiset(r)[p] == if p.packageName in names then multiset(catalog)[p] else 0
  {
    if catalog == [] then []
    else
      var rest := Select(catalog[1..], names);
      assert catalog == [catalog[0]] + catalog[1..];
      assert forall p :: p in catalog <==> p == catalog[0] || p in catalog[1..];
      assert multiset(catalog) == multiset([catalog[0]]) + multiset(catalog[1..]);
      if catalog[0].packageName in names then [catalog[0]] + rest else rest
  }

  /** Selecting by every name in the catalog keeps the whole catalog. */
  lemma {:induction false} SelectAllNames(catalog: seq<PackageRecord>, names: seq<string>)
    requires forall i :: 0 <= i < |catalog| ==> catalog[i].packageName in names
    ensures Select(catalog, names) == catalog
  {
    if catalog != [] {
      SelectAllNames(catalog[1..], names);
    }
  }

  /** Selecting by no name keeps nothing. */
  lemma {:induction false} SelectNoNames(catalog: seq<PackageRecord>)
    ensures Select(catalog, []) == []
  {
    if catalog != [] {
      SelectNoNames(catalog[1..]);
    }
  }
}
