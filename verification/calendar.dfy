/** The collection calendar of one household: the records and the pending
    dates are grouped into buckets keyed by a `YYYY-MM-DD` day, every day of
    the shown month is classified from those buckets, and the modal keeps
    the shown month and the selected day.

    The UTC day of a timestamp (`toISOString().split('T')[0]`) comes from the
    JavaScript date library and is a parameter `utcDay` here; so are the
    weekday of the first of the month and the number of days in it. */
module Calendar {
  import opened Common
  import opened Text
  import opened Types
  import opened DataStore

  // ---------------------------------------------------------------- day keys

  /** `${year}`: the decimal year, with a minus sign before a negative one. */
  function YearText(year: int): string
  {
    if year < 0 then "-" + Decimal(-year) else Decimal(year)
  }

  /** `${year}-${String(month + 1).padStart(2, '0')}-${String(day).padStart(2, '0')}`
      for a zero-based month. */
  function DayKey(year: int, month: nat, day: nat): string
  {
    YearText(year) + "-" + PadStart2(Decimal(month + 1)) + "-" + PadStart2(Decimal(day))
  }

  function ParseYear(s: string): Option<int>
  {
    if |s| >= 2 && s[0] == '-' && AllDigits(s[1..]) then Some(0 - DigitsValue(s[1..]) as int)
    else if |s| >= 1 && AllDigits(s) then Some(DigitsValue(s))
    else None
  }

  /** Reads a day key back into year, zero-based month and day. */
  function ParseDayKey(s: string): Option<(int, int, int)>
  {
    if |s| < 7 || s[|s| - 6] != '-' || s[|s| - 3] != '-' then None
    else
      var y := ParseYear(s[..|s| - 6]);
      var mm := s[|s| - 5..|s| - 3];
      var dd := s[|s| - 2..];
      if y.None? || !AllDigits(mm) || !AllDigits(dd) || DigitsValue(mm) == 0 then None
      else Some((y.value, DigitsValue(mm) - 1, DigitsValue(dd)))
  }

  lemma YearRoundTrip(year: int)
    ensures ParseYear(YearText(year)) == Some(year)
  {
    DecimalRoundTrip(if year < 0 then -year else year);
    if year < 0 {
      assert YearText(year)[1..] == Decimal(-year);
    } else {
      assert IsDigit(YearText(year)[0]);
    }
  }

  /** Where the pieces of `year-mm-dd` sit: the two dashes at fixed
      distances from the end, the year before the first of them. */
  lemma KeyParts(y: string, m: string, d: string)
    requires |y| >= 1 && |m| == 2 && |d| == 2
    ensures var s := y + "-" + m + "-" + d;
            && |s| >= 7 && s[|s| - 6] == '-' && s[|s| - 3] == '-'
            && s[..|s| - 6] == y && s[|s| - 5..|s| - 3] == m && s[|s| - 2..] == d
  {
    var s := y + "-" + m + "-" + d;
    assert s[..|s| - 6] == y;
    assert s[|s| - 5..|s| - 3] == m;
    assert s[|s| - 2..] == d;
  }

  /** For every real month and day the key reads back as the date it was
      made from: the month and the day are two digits each, and the two
      dashes sit at fixed distances from the end. */
  lemma DayKeyRoundTrip(year: int, month: nat, day: nat)
    requires month < 12 && day < 100
    ensures ParseDayKey(DayKey(year, month, day)) == Some((year, month, day))
  {
    var y, m, d := YearText(year), PadStart2(Decimal(month + 1)), PadStart2(Decimal(day));
    TwoDigits(month + 1);
    TwoDigits(day);
    YearRoundTrip(year);
    KeyParts(y, m, d);
  }

  /** Different dates never share a key, so a bucket holds one day only. */
  lemma DayKeyInjective(y1: int, m1: nat, d1: nat, y2: int, m2: nat, d2: nat)
    requires m1 < 12 && d1 < 100 && m2 < 12 && d2 < 100
    requires DayKey(y1, m1, d1) == DayKey(y2, m2, d2)
    ensures y1 == y2 && m1 == m2 && d1 == d2
  {
    DayKeyRoundTrip(y1, m1, d1);
    DayKeyRoundTrip(y2, m2, d2);
  }

  // ----------------------------------------------------------------- buckets

  /** The entries of `xs` that belong to household `hid` and fall on day
      `k`, in list order. */
  function Bucket<T>(xs: seq<T>, owner: T -> Id, day: T -> string, hid: Id, k: string): seq<T>
  {
    if xs == [] then []
    else
      var x := xs[|xs| - 1];
      Bucket(xs[..|xs| - 1], owner, day, hid, k) + (if owner(x) == hid && day(x) == k then [x] else [])
  }

  /** The days on which household `hid` has at least one entry. */
  function DaysOf<T>(xs: seq<T>, owner: T -> Id, day: T -> string, hid: Id): set<string>
  {
    set i | 0 <= i < |xs| && owner(xs[i]) == hid :: day(xs[i])
  }

  /** The map the grouping builds: one bucket per day that has an entry. */
  function Grouping<T>(xs: seq<T>, owner: T -> Id, day: T -> string, hid: Id): map<string, seq<T>>
  {
    map k | k in DaysOf(xs, owner, day, hid) :: Bucket(xs, owner, day, hid, k)
  }

  /** A bucket holds exactly the household's entries of its day. */
  lemma {:induction false} BucketMembership<T(!new)>(xs: seq<T>, owner: T -> Id, day: T -> string, hid: Id, k: string)
    ensures forall x :: x in Bucket(xs, owner, day, hid, k) <==> x in xs && owner(x) == hid && day(x) == k
  {
    if xs != [] {
      var init := xs[..|xs| - 1];
      BucketMembership(init, owner, day, hid, k);
      assert xs == init + [xs[|xs| - 1]];
    }
  }

  /** Bucketing works piecewise: each bucket keeps the list order, and equal
      entries are all kept. */
  lemma {:induction false} BucketConcat<T>(a: seq<T>, b: seq<T>, owner: T -> Id, day: T -> string, hid: Id, k: string)
    ensures Bucket(a + b, owner, day, hid, k) == Bucket(a, owner, day, hid, k) + Bucket(b, owner, day, hid, k)
  {
    if b == [] {
      assert a + b == a;
    } else {
      var init := b[..|b| - 1];
      assert (a + b)[..|a + b| - 1] == a + init;
      BucketConcat(a, init, owner, day, hid, k);
    }
  }

  /** A day has a non-empty bucket exactly when one of the household's
      entries falls on it. */
  lemma {:induction false} BucketNonEmpty<T>(xs: seq<T>, owner: T -> Id, day: T -> string, hid: Id, k: string)
    ensures Bucket(xs, owner, day, hid, k) != [] <==> k in DaysOf(xs, owner, day, hid)
  {
    if xs != [] {
      var init := xs[..|xs| - 1];
      BucketNonEmpty(init, owner, day, hid, k);
      if k in DaysOf(init, owner, day, hid) {
        var i :| 0 <= i < |init| && owner(init[i]) == hid && day(init[i]) == k;
        assert xs[i] == init[i];
      }
      if k in DaysOf(xs, owner, day, hid) {
        var i :| 0 <= i < |xs| && owner(xs[i]) == hid && day(xs[i]) == k;
        if i < |init| {
          assert init[i] == xs[i];
        }
      }
    }
  }

  /** The grouping's guarantees: a key is present only with a non-empty
      bucket, a bucket holds only the household's entries of that day, and
      every entry of the household sits in the bucket of its day. */
  lemma GroupingMeaning<T(!new)>(xs: seq<T>, owner: T -> Id, day: T -> string, hid: Id)
    ensures forall k :: k in Grouping(xs, owner, day, hid) ==> Grouping(xs, owner, day, hid)[k] != []
    ensures forall k, x :: k in Grouping(xs, owner, day, hid) && x in Grouping(xs, owner, day, hid)[k]
                        ==> x in xs && owner(x) == hid && day(x) == k
    ensures forall x :: x in xs && owner(x) == hid
                     ==> day(x) in Grouping(xs, owner, day, hid) && x in Grouping(xs, owner, day, hid)[day(x)]
  {
    var g := Grouping(xs, owner, day, hid);
    forall k | k in g ensures g[k] != [] && forall x :: x in g[k] ==> x in xs && owner(x) == hid && day(x) == k {
      BucketNonEmpty(xs, owner, day, hid, k);
      BucketMembership(xs, owner, day, hid, k);
    }
    forall x | x in xs && owner(x) == hid ensures day(x) in g && x in g[day(x)] {
      var i :| 0 <= i < |xs| && xs[i] == x;
      assert day(x) in DaysOf(xs, owner, day, hid);
      BucketMembership(xs, owner, day, hid, day(x));
    }
  }

  /** The days of a prefix grow by the day of the next entry when it
      belongs to the household. */
  lemma DaysOfStep<T>(xs: seq<T>, owner: T -> Id, day: T -> string, hid: Id, i: nat)
    requires i < |xs|
    ensures DaysOf(xs[..i + 1], owner, day, hid)
            == DaysOf(xs[..i], owner, day, hid) + (if owner(xs[i]) == hid then {day(xs[i])} else {})
  {
    var pre, post := xs[..i], xs[..i + 1];
    forall j | j in DaysOf(post, owner, day, hid)
      ensures j in DaysOf(pre, owner, day, hid) || (owner(xs[i]) == hid && j == day(xs[i]))
    {
      var n :| 0 <= n < |post| && owner(post[n]) == hid && day(post[n]) == j;
      if n < i {
        assert pre[n] == post[n];
      }
    }
    forall j | j in DaysOf(pre, owner, day, hid)
      ensures j in DaysOf(post, owner, day, hid)
    {
      var n :| 0 <= n < |pre| && owner(pre[n]) == hid && day(pre[n]) == j;
      assert post[n] == pre[n];
    }
    if owner(xs[i]) == hid {
      assert post[i] == xs[i];
    }
  }

  /** A bucket grows by the next entry exactly when the entry belongs to the
      household and falls on the bucket's day. */
  lemma BucketStep<T>(xs: seq<T>, owner: T -> Id, day: T -> string, hid: Id, i: nat, k: string)
    requires i < |xs|
    ensures Bucket(xs[..i + 1], owner, day, hid, k)
            == Bucket(xs[..i], owner, day, hid, k) + (if owner(xs[i]) == hid && day(xs[i]) == k then [xs[i]] else [])
  {
    var post := xs[..i + 1];
    assert post[..|post| - 1] == xs[..i];
    assert post[|post| - 1] == xs[i];
  }

  /** How the grouping grows by one entry: an entry of another household is
      skipped, one of this household is pushed onto its day's bucket, which
      starts out empty. */
  lemma GroupingStep<T>(xs: seq<T>, owner: T -> Id, day: T -> string, hid: Id, i: nat)
    requires i < |xs|
    ensures var g := Grouping(xs[..i], owner, day, hid);
            var k := day(xs[i]);
            Grouping(xs[..i + 1], owner, day, hid)
            == if owner(xs[i]) != hid then g
               else g[k := (if k in g then g[k] else []) + [xs[i]]]
  {
    var pre, post := xs[..i], xs[..i + 1];
    var g, h := Grouping(pre, owner, day, hid), Grouping(post, owner, day, hid);
    var k := day(xs[i]);
    DaysOfStep(xs, owner, day, hid, i);
    if owner(xs[i]) == hid {
      BucketNonEmpty(pre, owner, day, hid, k);
      var g' := g[k := (if k in g then g[k] else []) + [xs[i]]];
      assert h.Keys == g'.Keys;
      forall j | j in h.Keys ensures h[j] == g'[j] {
        BucketStep(xs, owner, day, hid, i, j);
      }
      assert h == g';
    } else {
      assert h.Keys == g.Keys;
      forall j | j in h.Keys ensures h[j] == g[j] {
        BucketStep(xs, owner, day, hid, i, j);
      }
      assert h == g;
    }
  }

  /** `collectionsByDate` and `pendingDatesByDate`: one pass over the list
      in order, skipping other households' entries and pushing each entry
      onto the bucket of its day, creating the bucket on first use. */
  method GroupByDay<T>(xs: seq<T>, owner: T -> Id, day: T -> string, hid: Id) returns (m: map<string, seq<T>>)
    ensures m == Grouping(xs, owner, day, hid)
  {
    m := map[];
    var i := 0;
    assert xs[..0] == [];
    while i < |xs|
      invariant 0 <= i <= |xs|
      invariant m == Grouping(xs[..i], owner, day, hid)
    {
      GroupingStep(xs, owner, day, hid, i);
      if owner(xs[i]) == hid {
        var k := day(xs[i]);
        if k !in m {
          m := m[k := []];
        }
        m := m[k := m[k] + [xs[i]]];
      }
      i := i + 1;
    }
    assert xs[..i] == xs;
  }

  function RecordOwner(r: CollectionRecord): Id { r.householdId }
  function PendingOwner(p: PendingDate): Id { p.householdId }

  /** A pending date's bucket key is its stored `date`, taken verbatim. */
  function PendingDay(p: PendingDate): string { p.date }

  /** A record's bucket key is the UTC day of its timestamp. */
  function RecordDay(utcDay: Instant -> string): CollectionRecord -> string
  {
    (r: CollectionRecord) => utcDay(r.timestamp)
  }

  method CollectionsByDate(records: seq<CollectionRecord>, utcDay: Instant -> string, household: Household)
    returns (m: map<string, seq<CollectionRecord>>)
    ensures m == Grouping(records, RecordOwner, RecordDay(utcDay), household.id)
  {
    m := GroupByDay(records, RecordOwner, RecordDay(utcDay), household.id);
  }

  method PendingDatesByDate(pendings: seq<PendingDate>, household: Household)
    returns (m: map<string, seq<PendingDate>>)
    ensures m == Grouping(pendings, PendingOwner, PendingDay, household.id)
  {
    m := GroupByDay(pendings, PendingOwner, PendingDay, household.id);
  }

  // ---------------------------------------------------------- classification

  datatype DayClass = CollectedDay | PendingMarkedDay | UntouchedDay

  /** `map.get(key)`. */
  function Get<T>(m: map<string, T>, k: string): Option<T>
  {
    if k in m then Some(m[k]) else None
  }

  /** The class of a day from its two lookups: a collection bucket wins over
      a pending bucket. */
  function Classify(records: Option<seq<CollectionRecord>>, pendings: Option<seq<PendingDate>>): DayClass
  {
    if records.Some? then CollectedDay else if pendings.Some? then PendingMarkedDay else UntouchedDay
  }

  /** Classified from the grouped lists, a day is collected exactly when the
      household has a record on it; pending-marked exactly when it has no
      record but a pending date there; untouched exactly when it has
      neither. */
  lemma ClassifyMeaning(records: seq<CollectionRecord>, pendings: seq<PendingDate>,
                        utcDay: Instant -> string, hid: Id, k: string)
    ensures var c := Classify(Get(Grouping(records, RecordOwner, RecordDay(utcDay), hid), k),
                              Get(Grouping(pendings, PendingOwner, PendingDay, hid), k));
            var collected := exists r :: r in records && r.householdId == hid && utcDay(r.timestamp) == k;
            var marked := exists p :: p in pendings && p.householdId == hid && p.date == k;
            && (c == CollectedDay <==> collected)
            && (c == PendingMarkedDay <==> !collected && marked)
            && (c == UntouchedDay <==> !collected && !marked)
  {
    GroupingMeaning(records, RecordOwner, RecordDay(utcDay), hid);
    GroupingMeaning(pendings, PendingOwner, PendingDay, hid);
    var g := Grouping(records, RecordOwner, RecordDay(utcDay), hid);
    var q := Grouping(pendings, PendingOwner, PendingDay, hid);
    if k in g {
      var r := g[k][0];
      assert r in g[k];
    }
    if k in q {
      var p := q[k][0];
      assert p in q[k];
    }
  }

  /** One cell of the month grid: a blank before the first weekday, then a
      day with its two lookups, its class and whether it is selected. */
  datatype Cell =
    | Blank
    | DayCell(day: nat, records: Option<seq<CollectionRecord>>, pendings: Option<seq<PendingDate>>,
              kind: DayClass, selected: bool)

  function DayCellFor(year: int, month: nat, day: nat,
                      byRecords: map<string, seq<CollectionRecord>>, byPending: map<string, seq<PendingDate>>,
                      selectedDay: Option<nat>): Cell
  {
    var k := DayKey(year, month, day);
    DayCell(day, Get(byRecords, k), Get(byPending, k), Classify(Get(byRecords, k), Get(byPending, k)),
            selectedDay == Some(day))
  }

  /** The cells of days 1..n of the shown month, in order. */
  function MonthDays(year: int, month: nat, n: nat,
                     byRecords: map<string, seq<CollectionRecord>>, byPending: map<string, seq<PendingDate>>,
                     selectedDay: Option<nat>): (r: seq<Cell>)
    ensures |r| == n
  {
    if n == 0 then []
    else MonthDays(year, month, n - 1, byRecords, byPending, selectedDay)
         + [DayCellFor(year, month, n, byRecords, byPending, selectedDay)]
  }

  /** The cell at position `j` is the one of day `j + 1`. */
  lemma {:induction false} MonthDaysAt(year: int, month: nat, n: nat,
                                       byRecords: map<string, seq<CollectionRecord>>,
                                       byPending: map<string, seq<PendingDate>>,
                                       selectedDay: Option<nat>, j: nat)
    requires j < n
    ensures MonthDays(year, month, n, byRecords, byPending, selectedDay)[j]
         == DayCellFor(year, month, j + 1, byRecords, byPending, selectedDay)
  {
    var front := MonthDays(year, month, n - 1, byRecords, byPending, selectedDay);
    var last := DayCellFor(year, month, n, byRecords, byPending, selectedDay);
    assert MonthDays(year, month, n, byRecords, byPending, selectedDay) == front + [last];
    if j < n - 1 {
      MonthDaysAt(year, month, n - 1, byRecords, byPending, selectedDay, j);
      assert (front + [last])[j] == front[j];
    } else {
      assert j + 1 == n;
    }
  }

  /** The leading blanks of the grid, one per weekday before the first. */
  method Blanks(n: nat) returns (cells: seq<Cell>)
    ensures cells == seq(n, _ => Blank)
  {
    cells := [];
    var i := 0;
    while i < n
      invariant 0 <= i <= n
      invariant cells == seq(i, _ => Blank)
    {
      cells := cells + [Blank];
      i := i + 1;
    }
  }

  /** The day cells of the grid: for each day, its key, the two lookups and
      the class they give. */
  method DayCells(year: int, month: nat, daysInMonth: nat,
                  byRecords: map<string, seq<CollectionRecord>>, byPending: map<string, seq<PendingDate>>,
                  selectedDay: Option<nat>)
    returns (cells: seq<Cell>)
    ensures cells == MonthDays(year, month, daysInMonth, byRecords, byPending, selectedDay)
  {
    cells := [];
    var day := 1;
    while day <= daysInMonth
      invariant 1 <= day <= daysInMonth + 1
      invariant cells == MonthDays(year, month, day - 1, byRecords, byPending, selectedDay)
    {
      var k := DayKey(year, month, day);
      var dayRecords := Get(byRecords, k);
      var dayPendingDates := Get(byPending, k);
      var cell := DayCell(day, dayRecords, dayPendingDates, Classify(dayRecords, dayPendingDates),
                          selectedDay == Some(day));
      assert cell == DayCellFor(year, month, day, byRecords, byPending, selectedDay);
      cells := cells + [cell];
      day := day + 1;
    }
  }

  /** `renderCalendarDays`: `firstDayOfMonth` blanks, then the days
      1..daysInMonth, each once and in order, each with the lookups of its
      own key and the class they give. */
  method RenderCalendarDays(year: int, month: nat, firstDayOfMonth: nat, daysInMonth: nat,
                            byRecords: map<string, seq<CollectionRecord>>, byPending: map<string, seq<PendingDate>>,
                            selectedDay: Option<nat>)
    returns (cells: seq<Cell>)
    ensures |cells| == firstDayOfMonth + daysInMonth
    ensures forall i :: 0 <= i < firstDayOfMonth ==> cells[i] == Blank
    ensures forall i :: firstDayOfMonth <= i < |cells|
              ==> cells[i] == DayCellFor(year, month, i - firstDayOfMonth + 1, byRecords, byPending, selectedDay)
  {
    var blanks := Blanks(firstDayOfMonth);
    var days := DayCells(year, month, daysInMonth, byRecords, byPending, selectedDay);
    cells := blanks + days;
    forall i | firstDayOfMonth <= i < |cells|
      ensures cells[i] == DayCellFor(year, month, i - firstDayOfMonth + 1, byRecords, byPending, selectedDay)
    {
      MonthDaysAt(year, month, daysInMonth, byRecords, byPending, selectedDay, i - firstDayOfMonth);
    }
  }

  // --------------------------------------------------------------- the modal

  /** `new Date(year, month + offset, 1)`: the month index moves by `offset`
      and overflows into the year. */
  function ShiftMonth(year: int, month: int, offset: int): (r: (int, int))
    ensures 0 <= r.1 < 12
    ensures r.0 * 12 + r.1 == year * 12 + month + offset
  {
    (year + (month + offset) / 12, (month + offset) % 12)
  }

  /** A year and an in-range month are determined by their month index. */
  lemma MonthIndexUnique(y1: int, m1: int, y2: int, m2: int)
    requires 0 <= m1 < 12 && 0 <= m2 < 12
    requires y1 * 12 + m1 == y2 * 12 + m2
    ensures y1 == y2 && m1 == m2
  {
  }

  /** Moving by `a` months and then by `b` is moving by `a + b`; in
      particular "Next" undoes "Prev". */
  lemma ShiftCompose(year: int, month: int, a: int, b: int)
    ensures var s := ShiftMonth(year, month, a);
            ShiftMonth(s.0, s.1, b) == ShiftMonth(year, month, a + b)
  {
    var s := ShiftMonth(year, month, a);
    var t := ShiftMonth(s.0, s.1, b);
    var u := ShiftMonth(year, month, a + b);
    MonthIndexUnique(t.0, t.1, u.0, u.1);
  }

  /** `reason: pendingReason || undefined`. */
  function ReasonOf(text: string): (r: Option<string>)
    ensures r.None? <==> text == []
    ensures r.Some? ==> r.value == text
  {
    if text == [] then None else Some(text)
  }

  /** The state of `CalendarModal`: the shown month (day 1 of it), the
      selected day with the two lookups captured when it was clicked, and
      the add-pending dialog with its reason text. */
  class CalendarModal {
    var year: int
    var month: int
    var selectedDay: Option<nat>
    var selectedDayRecords: Option<seq<CollectionRecord>>
    var selectedDayPendingDates: Option<seq<PendingDate>>
    var showAddPendingModal: bool
    var pendingReason: string

    ghost predicate Valid()
      reads this
    {
      0 <= month < 12
    }

    /** Opens on the month of the current date, which is passed in. */
    constructor (year: int, month: int)
      requires 0 <= month < 12
      ensures Valid()
      ensures this.year == year && this.month == month
      ensures selectedDay == None && selectedDayRecords == None && selectedDayPendingDates == None
      ensures !showAddPendingModal && pendingReason == ""
    {
      this.year, this.month := year, month;
      selectedDay, selectedDayRecords, selectedDayPendingDates := None, None, None;
      showAddPendingModal, pendingReason := false, "";
    }

    /** `changeMonth`: shows the month `offset` months away and clears the
        selection; the dialog state is left as it was. */
    method ChangeMonth(offset: int)
      requires Valid()
      modifies this
      ensures Valid()
      ensures (year, month) == ShiftMonth(old(year), old(month), offset)
      ensures selectedDay == None && selectedDayRecords == None && selectedDayPendingDates == None
      ensures showAddPendingModal == old(showAddPendingModal) && pendingReason == old(pendingReason)
    {
      var next := ShiftMonth(year, month, offset);
      year, month := next.0, next.1;
      selectedDay, selectedDayRecords, selectedDayPendingDates := None, None, None;
    }

    /** `handleDayClick`: selects the day with the lookups of its cell. */
    method HandleDayClick(day: nat, records: Option<seq<CollectionRecord>>, pendings: Option<seq<PendingDate>>)
      modifies this
      ensures selectedDay == Some(day) && selectedDayRecords == records && selectedDayPendingDates == pendings
      ensures year == old(year) && month == old(month)
      ensures showAddPendingModal == old(showAddPendingModal) && pendingReason == old(pendingReason)
    {
      selectedDay, selectedDayRecords, selectedDayPendingDates := Some(day), records, pendings;
    }

    /** The "Mark as Pending" button opens the dialog. */
    method OpenAddPending()
      modifies this
      ensures showAddPendingModal
      ensures year == old(year) && month == old(month) && selectedDay == old(selectedDay)
      ensures selectedDayRecords == old(selectedDayRecords) && selectedDayPendingDates == old(selectedDayPendingDates)
      ensures pendingReason == old(pendingReason)
    {
      showAddPendingModal := true;
    }

    /** The dialog's text area. */
    method SetPendingReason(text: string)
      modifies this
      ensures pendingReason == text
      ensures year == old(year) && month == old(month) && selectedDay == old(selectedDay)
      ensures selectedDayRecords == old(selectedDayRecords) && selectedDayPendingDates == old(selectedDayPendingDates)
      ensures showAddPendingModal == old(showAddPendingModal)
    {
      pendingReason := text;
    }

    /** The dialog's "Cancel": closes it and clears the reason. */
    method CancelAddPending()
      modifies this
      ensures !showAddPendingModal && pendingReason == ""
      ensures year == old(year) && month == old(month) && selectedDay == old(selectedDay)
      ensures selectedDayRecords == old(selectedDayRecords) && selectedDayPendingDates == old(selectedDayPendingDates)
    {
      showAddPendingModal, pendingReason := false, "";
    }

    /** `handleAddPendingDate`: without a selected day (none, or day 0)
        nothing happens. Otherwise one pending date for this household on
        the selected day's key is added, with an empty reason left out and
        `now` as its creation time; on success the dialog closes and its
        reason is cleared, on failure the modal's state stays. */
    method HandleAddPendingDate(store: Store, household: Household, now: Instant, reply: Reply<Id>)
      requires Valid()
      modifies this, store
      ensures Valid()
      ensures old(selectedDay) == None || old(selectedDay) == Some(0) ==>
                store.State() == old(store.State()) && pendingReason == old(pendingReason)
                && showAddPendingModal == old(showAddPendingModal)
      ensures old(selectedDay).Some? && old(selectedDay).value != 0 && reply.Done? ==>
                store.State() == old(store.State()).(pendingDates := old(store.pendingDates) + [
                  PendingDate(reply.value, household.id, DayKey(year, month, old(selectedDay).value),
                              ReasonOf(old(pendingReason)), now)])
                && pendingReason == "" && !showAddPendingModal
      ensures old(selectedDay).Some? && old(selectedDay).value != 0 && reply.Failed? ==>
                store.State() == old(store.State()).(error := Some(Describe(reply.fault, "Failed to add pending date")))
                && pendingReason == old(pendingReason) && showAddPendingModal == old(showAddPendingModal)
      ensures year == old(year) && month == old(month) && selectedDay == old(selectedDay)
      ensures selectedDayRecords == old(selectedDayRecords) && selectedDayPendingDates == old(selectedDayPendingDates)
    {
      if selectedDay.None? || selectedDay.value == 0 {
        return;
      }
      var dateStr := DayKey(year, month, selectedDay.value);
      var entry := PendingDate("", household.id, dateStr, ReasonOf(pendingReason), now);
      var r := store.AddPendingDate(entry, reply);
      if r.Done? {
        pendingReason := "";
        showAddPendingModal := false;
      }
    }

    /** `handleDeletePendingDate`: asks the store to delete the entry; a
        failure is only reported to the user. */
    method HandleDeletePendingDate(store: Store, pendingId: Id, ack: Ack)
      modifies store
      ensures ack.Done? ==> store.State() == old(store.State()).(
        pendingDates := Lists.Without(old(store.pendingDates), PendingDateId, pendingId))
      ensures ack.Failed? ==> store.State() == old(store.State()).(
        error := Some(Describe(ack.fault, "Failed to delete pending date")))
    {
      var _ := store.DeletePendingDate(pendingId, ack);
    }
  }
}
