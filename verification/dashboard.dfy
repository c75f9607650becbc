/** The dashboard's figures: how many households are collected and how many
    are pending, and the five most recent collection records, newest first. */
module DashboardFigures {
  import opened Types

  // ------------------------------------------------------------------ counts

  /** `households.filter(h => h.status === s)`. */
  function WithStatus(hs: seq<Household>, s: CollectionStatus): (r: seq<Household>)
    ensures |r| <= |hs|
    ensures forall h :: h in r <==> h in hs && h.status == s
  {
    if hs == [] then []
    else (if hs[0].status == s then [hs[0]] else []) + WithStatus(hs[1..], s)
  }

  /** `collectedCount`: the number of collected households. */
  function CollectedCount(hs: seq<Household>): (n: nat)
    ensures n <= |hs|
  {
    |WithStatus(hs, Collected)|
  }

  /** `pendingCount`: the households that are not counted as collected. */
  function PendingCount(hs: seq<Household>): (n: nat)
    ensures n + CollectedCount(hs) == |hs|
  {
    |hs| - CollectedCount(hs)
  }

  /** The filter works piecewise. */
  lemma {:induction false} WithStatusConcat(a: seq<Household>, b: seq<Household>, s: CollectionStatus)
    ensures WithStatus(a + b, s) == WithStatus(a, s) + WithStatus(b, s)
  {
    if a == [] {
      assert a + b == b;
    } else {
      assert (a + b)[1..] == a[1..] + b;
      WithStatusConcat(a[1..], b, s);
    }
  }

  /** Every household is either collected or pending, so the two filters
      split the list between them. */
  lemma {:induction false} CountsPartition(hs: seq<Household>)
    ensures |WithStatus(hs, Collected)| + |WithStatus(hs, Pending)| == |hs|
  {
    if hs != [] {
      CountsPartition(hs[1..]);
    }
  }

  /** The pending figure, computed as a difference, is the number of
      households whose status is `Pending`. */
  lemma PendingCountIsPending(hs: seq<Household>)
    ensures PendingCount(hs) == |WithStatus(hs, Pending)|
  {
    CountsPartition(hs);
  }

  /** When every household has status `s`, the filter keeps them all and the
      other status has none. */
  lemma {:induction false} AllWithStatus(hs: seq<Household>, s: CollectionStatus, t: CollectionStatus)
    requires forall i :: 0 <= i < |hs| ==> hs[i].status == s
    requires t != s
    ensures WithStatus(hs, s) == hs
    ensures WithStatus(hs, t) == []
  {
    if hs != [] {
      AllWithStatus(hs[1..], s, t);
    }
  }

  // ------------------------------------------------------- recent collections

  /** Ordered by timestamp, newest first. */
  predicate NewestFirst(rs: seq<CollectionRecord>)
  {
    forall i, j :: 0 <= i < j < |rs| ==> rs[j].timestamp <= rs[i].timestamp
  }

  /** A record no older than the head of a sorted list can go in front. */
  lemma ConsNewestFirst(head: CollectionRecord, rest: seq<CollectionRecord>)
    requires NewestFirst(rest)
    requires rest == [] || rest[0].timestamp <= head.timestamp
    ensures NewestFirst([head] + rest)
  {
    forall i, j | 0 <= i < j < |rest| + 1
      ensures ([head] + rest)[j].timestamp <= ([head] + rest)[i].timestamp
    {
      if i == 0 {
        assert rest[j - 1].timestamp <= rest[0].timestamp;
      }
    }
  }

  /** One step of the sort: `r` goes in front of the first record that is no
      newer than it, so it stays ahead of records with the same time that
      came after it in the input. */
  function Insert(r: CollectionRecord, sorted: seq<CollectionRecord>): seq<CollectionRecord>
  {
    if sorted == [] || sorted[0].timestamp <= r.timestamp then [r] + sorted
    else [sorted[0]] + Insert(r, sorted[1..])
  }

  /** Inserting adds exactly that record. */
  lemma {:induction false} InsertKeepsRecords(r: CollectionRecord, sorted: seq<CollectionRecord>)
    ensures |Insert(r, sorted)| == |sorted| + 1
    ensures multiset(Insert(r, sorted)) == multiset(sorted) + multiset{r}
  {
    if !(sorted == [] || sorted[0].timestamp <= r.timestamp) {
      InsertKeepsRecords(r, sorted[1..]);
      assert sorted == [sorted[0]] + sorted[1..];
    }
  }

  /** Inserting into a list that is newest first keeps it newest first, and
      the front is either the new record or the old front. */
  lemma {:induction false} InsertSorted(r: CollectionRecord, sorted: seq<CollectionRecord>)
    requires NewestFirst(sorted)
    ensures NewestFirst(Insert(r, sorted))
    ensures Insert(r, sorted)[0] == r || (sorted != [] && Insert(r, sorted)[0] == sorted[0])
  {
    if sorted == [] || sorted[0].timestamp <= r.timestamp {
      ConsNewestFirst(r, sorted);
    } else {
      var head, tail := sorted[0], sorted[1..];
      assert NewestFirst(tail) by {
        forall i, j | 0 <= i < j < |tail| ensures tail[j].timestamp <= tail[i].timestamp {
          assert tail[i] == sorted[i + 1] && tail[j] == sorted[j + 1];
        }
      }
      InsertSorted(r, tail);
      var rest := Insert(r, tail);
      assert rest[0].timestamp <= head.timestamp;
      ConsNewestFirst(head, rest);
    }
  }

  /** `[...records].sort((a, b) => b.timestamp - a.timestamp)`: a sorted
      copy holding exactly the same records. */
  function SortNewestFirst(rs: seq<CollectionRecord>): (out: seq<CollectionRecord>)
    ensures NewestFirst(out)
    ensures multiset(out) == multiset(rs)
    ensures |out| == |rs|
  {
    if rs == [] then []
    else
      assert rs == [rs[0]] + rs[1..];
      var rest := SortNewestFirst(rs[1..]);
      InsertSorted(rs[0], rest);
      InsertKeepsRecords(rs[0], rest);
      Insert(rs[0], rest)
  }

  /** How many records the recent list shows. */
  const RecentLimit: nat := 5

  /** `recentCollections`: the first five of the sorted copy. */
  function RecentCollections(rs: seq<CollectionRecord>): seq<CollectionRecord>
  {
    var sorted := SortNewestFirst(rs);
    if |sorted| <= RecentLimit then sorted else sorted[..RecentLimit]
  }

  /** The recent list: at most five records, newest first, all drawn from the
      input; it is the whole input when there are five or fewer, and every
      record it leaves out is no newer than any record it shows. */
  lemma RecentCollectionsMeaning(rs: seq<CollectionRecord>)
    ensures |RecentCollections(rs)| == if |rs| <= RecentLimit then |rs| else RecentLimit
    ensures NewestFirst(RecentCollections(rs))
    ensures multiset(RecentCollections(rs)) <= multiset(rs)
    ensures |rs| <= RecentLimit ==> multiset(RecentCollections(rs)) == multiset(rs)
    ensures forall x, y :: x in multiset(rs) - multiset(RecentCollections(rs)) && y in RecentCollections(rs)
                        ==> x.timestamp <= y.timestamp
  {
    var sorted := SortNewestFirst(rs);
    if |sorted| > RecentLimit {
      TakeNewest(sorted, RecentLimit);
    }
  }

  /** Cutting a sorted list after `n` records: the front is sorted, and no
      record of the back is newer than a record of the front. */
  lemma TakeNewest(sorted: seq<CollectionRecord>, n: nat)
    requires NewestFirst(sorted) && n <= |sorted|
    ensures NewestFirst(sorted[..n])
    ensures multiset(sorted[..n]) <= multiset(sorted)
    ensures forall x, y :: x in multiset(sorted) - multiset(sorted[..n]) && y in sorted[..n]
                        ==> x.timestamp <= y.timestamp
  {
    var front, back := sorted[..n], sorted[n..];
    assert sorted == front + back;
    assert multiset(sorted) - multiset(front) == multiset(back);
    BackNoNewer(sorted, n);
  }

  lemma BackNoNewer(sorted: seq<CollectionRecord>, n: nat)
    requires NewestFirst(sorted) && n <= |sorted|
    ensures forall x, y :: x in sorted[n..] && y in sorted[..n] ==> x.timestamp <= y.timestamp
  {
    forall x, y | x in sorted[n..] && y in sorted[..n]
      ensures x.timestamp <= y.timestamp
    {
      var j :| n <= j < |sorted| && sorted[j] == x;
      var i :| 0 <= i < n && sorted[i] == y;
    }
  }

  /** A list that is already newest first comes out of the sort unchanged. */
  lemma {:induction false} SortKeepsSorted(rs: seq<CollectionRecord>)
    requires NewestFirst(rs)
    ensures SortNewestFirst(rs) == rs
  {
    if rs != [] {
      SortKeepsSorted(rs[1..]);
      assert NewestFirst(rs[1..]);
    }
  }
}
