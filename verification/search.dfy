/** The household search of the admin panel and of the collector view: an
    empty query shows every household; otherwise a household is kept when
    one of its text fields contains the query, ignoring case. The collector
    view also searches the address, the admin panel does not. */
module HouseholdSearch {
  import opened Text
  import opened Types

  /** Which fields a search looks at. */
  datatype Scope = AdminFields | CollectorFields

  /** `field.toLowerCase().includes(query.toLowerCase())` */
  predicate FieldMatches(field: string, query: string)
  {
    Contains(ToLower(field), ToLower(query))
  }

  /** The filter's predicate: house number, owner, (for the collector view)
      address, block or panchayat contains the query. */
  predicate Matches(h: Household, query: string, scope: Scope)
  {
    FieldMatches(h.houseNumber, query) || FieldMatches(h.ownerName, query)
    || (scope == CollectorFields && FieldMatches(h.address, query))
    || FieldMatches(h.block, query) || FieldMatches(h.panchayat, query)
  }

  /** `households.filter(h => Matches(h, query, scope))`. */
  function Keep(hs: seq<Household>, query: string, scope: Scope): (r: seq<Household>)
    ensures |r| <= |hs|
    ensures forall h :: h in r <==> h in hs && Matches(h, query, scope)
  {
    if hs == [] then []
    else (if Matches(hs[0], query, scope) then [hs[0]] else []) + Keep(hs[1..], query, scope)
  }

  /** `filteredHouseholds`: all households for an empty query, the matching
      ones otherwise. */
  function FilteredHouseholds(hs: seq<Household>, query: string, scope: Scope): (r: seq<Household>)
    ensures query == [] ==> r == hs
    ensures query != [] ==> forall h :: h in r <==> h in hs && Matches(h, query, scope)
  {
    if query == [] then hs else Keep(hs, query, scope)
  }

  /** The filter works piecewise, so the kept households stay in list order. */
  lemma {:induction false} KeepConcat(a: seq<Household>, b: seq<Household>, query: string, scope: Scope)
    ensures Keep(a + b, query, scope) == Keep(a, query, scope) + Keep(b, query, scope)
  {
    if a == [] {
      assert a + b == b;
    } else {
      assert (a + b)[1..] == a[1..] + b;
      KeepConcat(a[1..], b, query, scope);
    }
  }

  /** Every household matches the empty query, so the shortcut for an empty
      query gives the same list the filter would. */
  lemma {:induction false} EmptyQueryKeepsAll(hs: seq<Household>, scope: Scope)
    ensures Keep(hs, [], scope) == hs
  {
    if hs != [] {
      assert ToLower([]) == [];
      ContainsEmpty(ToLower(hs[0].houseNumber));
      assert Matches(hs[0], [], scope);
      EmptyQueryKeepsAll(hs[1..], scope);
      assert hs == [hs[0]] + hs[1..];
    }
  }

  /** Whatever the query, the result is the list filtered by the predicate. */
  lemma FilteredIsKeep(hs: seq<Household>, query: string, scope: Scope)
    ensures FilteredHouseholds(hs, query, scope) == Keep(hs, query, scope)
  {
    if query == [] {
      EmptyQueryKeepsAll(hs, scope);
    }
  }

  /** The query's case does not matter. */
  lemma CaseInsensitive(h: Household, query: string, scope: Scope)
    ensures Matches(h, ToLower(query), scope) <==> Matches(h, query, scope)
  {
    ToLowerIdempotent(query);
  }

  /** The collector view finds every household the admin panel finds. */
  lemma AdminWithinCollector(hs: seq<Household>, query: string)
    ensures forall h :: h in FilteredHouseholds(hs, query, AdminFields)
                    ==> h in FilteredHouseholds(hs, query, CollectorFields)
  {
  }
}
