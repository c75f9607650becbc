/** The three list operations the data hook applies to its mirror lists and
    the components apply to location lists: remove by id (`filter`), merge a
    patch into every entry with an id (`map`), and first match (`find`).

    Each is generic in the entity type; the entity's key is passed as a named
    function (`Types.HouseholdId`, `Types.BlockNameOf`, ...). */
module Lists {
  import opened Common

  /** Number of entries of `xs` whose key is `id`. */
  function KeyCount<T>(xs: seq<T>, key: T -> string, id: string): nat
  {
    if xs == [] then 0 else (if key(xs[0]) == id then 1 else 0) + KeyCount(xs[1..], key, id)
  }

  /** `xs.filter(x => key(x) !== id)`: exactly the entries with key `id` are
      gone, every other entry is still there. */
  function Without<T(==,!new)>(xs: seq<T>, key: T -> string, id: string): (r: seq<T>)
    ensures |r| + KeyCount(xs, key, id) == |xs|
    ensures forall x :: x in r <==> x in xs && key(x) != id
  {
    if xs == [] then [] else (if key(xs[0]) == id then [] else [xs[0]]) + Without(xs[1..], key, id)
  }

  /** Removal works piecewise, so the surviving entries keep their order. */
  lemma {:induction false} WithoutConcat<T(!new)>(a: seq<T>, b: seq<T>, key: T -> string, id: string)
    ensures Without(a + b, key, id) == Without(a, key, id) + Without(b, key, id)
  {
    if a != [] {
      assert (a + b)[1..] == a[1..] + b;
      WithoutConcat(a[1..], b, key, id);
    } else {
      assert a + b == b;
    }
  }

  /** Removing an id no entry carries changes nothing. */
  lemma {:induction false} WithoutAbsent<T(!new)>(xs: seq<T>, key: T -> string, id: string)
    requires forall x :: x in xs ==> key(x) != id
    ensures Without(xs, key, id) == xs
  {
    if xs != [] {
      WithoutAbsent(xs[1..], key, id);
    }
  }

  /** Appending an entry under a fresh id and then removing that id gives the
      list back unchanged. */
  lemma AppendThenRemove<T(!new)>(xs: seq<T>, y: T, key: T -> string, id: string)
    requires key(y) == id
    requires forall x :: x in xs ==> key(x) != id
    ensures Without(xs + [y], key, id) == xs
  {
    WithoutConcat(xs, [y], key, id);
    WithoutAbsent(xs, key, id);
    assert Without([y], key, id) == [];
  }

  /** `xs.map(x => key(x) === id ? merge(x, patch) : x)`: the same number of
      entries, the patch merged into every entry with key `id`, every other
      entry untouched. */
  function UpdateWhere<T, P>(xs: seq<T>, key: T -> string, id: string, merge: (T, P) -> T, patch: P): (r: seq<T>)
    ensures |r| == |xs|
    ensures forall i :: 0 <= i < |xs| && key(xs[i]) != id ==> r[i] == xs[i]
    ensures forall i :: 0 <= i < |xs| && key(xs[i]) == id ==> r[i] == merge(xs[i], patch)
  {
    if xs == [] then []
    else [if key(xs[0]) == id then merge(xs[0], patch) else xs[0]] + UpdateWhere(xs[1..], key, id, merge, patch)
  }

  /** Index `i` holds the first entry of `xs` whose key is `id`. */
  predicate FirstMatchAt<T>(xs: seq<T>, key: T -> string, id: string, i: int)
  {
    0 <= i < |xs| && key(xs[i]) == id && forall j :: 0 <= j < i ==> key(xs[j]) != id
  }

  /** `xs.find(x => key(x) === id)`: absent exactly when no entry has key `id`,
      otherwise the first such entry. */
  function Find<T(==,!new)>(xs: seq<T>, key: T -> string, id: string): (r: Option<T>)
    ensures r.None? <==> forall x :: x in xs ==> key(x) != id
    ensures r.Some? ==> exists i :: FirstMatchAt(xs, key, id, i) && xs[i] == r.value
  {
    if xs == [] then None
    else if key(xs[0]) == id then
      assert FirstMatchAt(xs, key, id, 0);
      Some(xs[0])
    else
      var r := Find(xs[1..], key, id);
      if r.Some? then
        var i :| FirstMatchAt(xs[1..], key, id, i) && xs[1..][i] == r.value;
        assert FirstMatchAt(xs, key, id, i + 1);
        r
      else
        assert forall x :: x in xs ==> x == xs[0] || x in xs[1..];
        r
  }
}
