/** The supplier search on the home screen: a case-insensitive substring
    match of the query against a supplier's service locations or its name,
    applied with `Array.filter` to the loaded supplier list. */
module HomeScreen {
  import opened Remote
  import opened Text
  import opened Seqs

  /** Some service location of s contains the query, both lowered. A
      supplier whose `locations` is missing has no location to match. */
  predicate LocationMatches(s: Supplier, query: string)
  {
    s.locations.Some? &&
    exists loc :: loc in s.locations.value && Includes(Lower(loc), Lower(query))
  }

  /** The filter's predicate: the empty query keeps everything, otherwise a
      location or the name must contain the query. */
  predicate SupplierMatches(s: Supplier, query: string)
  {
    query == "" || LocationMatches(s, query) || Includes(Lower(s.name), Lower(query))
  }

  /** `suppliers?.filter(...) || []`: nothing until the list is loaded,
      then the matching suppliers in their loaded order. */
  function FilteredSuppliers(suppliers: Option<seq<Supplier>>, query: string): (r: seq<Supplier>)
    ensures suppliers.None? ==> r == []
    ensures suppliers.Some? ==> |r| <= |suppliers.value|
    ensures forall s :: s in r ==> suppliers.Some? && s in suppliers.value && SupplierMatches(s, query)
  {
    match suppliers
    case None => []
    case Some(xs) => Filter(xs, s => SupplierMatches(s, query))
  }

  /** A loaded supplier is shown exactly when it matches the query. */
  lemma KeptIffMatches(xs: seq<Supplier>, query: string, s: Supplier)
    requires s in xs
    ensures s in FilteredSuppliers(Some(xs), query) <==> SupplierMatches(s, query)
  {
    if SupplierMatches(s, query) {
      FilterKeeps(xs, s => SupplierMatches(s, query), s);
    }
  }

  /** An empty query shows every loaded supplier, in order. */
  lemma EmptyQueryKeepsAll(xs: seq<Supplier>)
    ensures FilteredSuppliers(Some(xs), "") == xs
  {
    FilterAll(xs, s => SupplierMatches(s, ""));
  }

  /** A supplier without locations is matched on its name alone. */
  lemma NoLocationsMatchesOnName(s: Supplier, query: string)
    requires s.locations.None? && query != ""
    ensures SupplierMatches(s, query) <==> Includes(Lower(s.name), Lower(query))
  {
  }

  /** A supplier whose lowered name contains the lowered query is always
      kept. */
  lemma NameHitIsKept(xs: seq<Supplier>, query: string, s: Supplier)
    requires s in xs && Includes(Lower(s.name), Lower(query))
    ensures s in FilteredSuppliers(Some(xs), query)
  {
    FilterKeeps(xs, s => SupplierMatches(s, query), s);
  }

  /** Searching for the query or for its lower-cased form gives the same
      list. */
  lemma QueryCaseInsensitive(suppliers: Option<seq<Supplier>>, query: string)
    ensures FilteredSuppliers(suppliers, query) == FilteredSuppliers(suppliers, Lower(query))
  {
    LowerIdempotent(query);
    assert query == "" <==> Lower(query) == "";
    if suppliers.Some? {
      FilterCongruent(suppliers.value, s => SupplierMatches(s, query), s => SupplierMatches(s, Lower(query)));
    }
  }

  /** The filter keeps input order: filtering a list made of two parts is
      filtering each part and joining the results. */
  lemma FilterPreservesOrder(xs: seq<Supplier>, ys: seq<Supplier>, query: string)
    ensures FilteredSuppliers(Some(xs + ys), query)
         == FilteredSuppliers(Some(xs), query) + FilteredSuppliers(Some(ys), query)
  {
    FilterConcat(xs, ys, s => SupplierMatches(s, query));
  }

  /** The heading beside "Available Suppliers". */
  datatype ResultCount = Loading | Found(count: nat)

  /** `isLoading ? "Loading..." : `${filteredSuppliers.length} found``. */
  function ResultCountLabel(isLoading: bool, suppliers: Option<seq<Supplier>>, query: string): (c: ResultCount)
    ensures isLoading <==> c.Loading?
    ensures c.Found? ==> c.count == |FilteredSuppliers(suppliers, query)|
    ensures c.Found? && suppliers.None? ==> c.count == 0
  {
    if isLoading then Loading else Found(|FilteredSuppliers(suppliers, query)|)
  }
}
