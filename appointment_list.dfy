/**
 * The appointment table's data source: the fetched list (null becomes empty),
 * filtered by the search box and sorted by the chosen key with a stable sort,
 * as `Array.prototype.sort` must be (section 23.1.3.30 of ECMA-262, 2023 edition).
 */
module AppointmentList {
  import opened Optional
  import opened Strings

  const PENDING: string := "PENDING"
  const APPROVED: string := "APPROVED"
  const FULFILLED: string := "FULFILLED"
  const REJECTED: string := "REJECTED"
  const CANCELLED: string := "CANCELLED"

  /** The sort-key value that selects ordering by status; any other value orders by date. */
  const BY_STATUS: string := "status"

  /** Priority given to a status outside the table of five. */
  const UNKNOWN_PRIORITY: int := 99

  /**
   * An appointment as far as this view's logic reads it: identifier, date as a
   * day number (`None` when the record has no date), status text and the
   * owning member's id.
   */
  datatype Appointment = Appointment(id: nat, date: Option<int>, status: string, userId: int)

  /** `new Date(a.date)` as a day number: a record without a date reads as `new Date(null)`, the epoch, day 0. */
  function SortDay(a: Appointment): (day: int)
    ensures a.date.Some? ==> day == a.date.value
    ensures a.date.None? ==> day == 0
  {
    a.date.GetOr(0)
  }

  predicate IsKnownStatus(status: string) {
    status in {PENDING, APPROVED, FULFILLED, REJECTED, CANCELLED}
  }

  /** `statusPriority[status] || 99`. */
  function Priority(status: string): (p: int)
    ensures IsKnownStatus(status) ==> 1 <= p <= 5
    ensures !IsKnownStatus(status) ==> p == UNKNOWN_PRIORITY
  {
    if status == PENDING then 1
    else if status == APPROVED then 2
    else if status == FULFILLED then 3
    else if status == REJECTED then 4
    else if status == CANCELLED then 5
    else UNKNOWN_PRIORITY
  }

  /** The five statuses come in the order PENDING, APPROVED, FULFILLED, REJECTED, CANCELLED, before any other. */
  lemma StatusOrder(other: string)
    requires !IsKnownStatus(other)
    ensures Priority(PENDING) < Priority(APPROVED) < Priority(FULFILLED)
              < Priority(REJECTED) < Priority(CANCELLED) < Priority(other)
  {
  }

  // ---------------------------------------------------------------- filtering

  /** `String(a.id).toLowerCase().includes(searchTerm.toLowerCase())`. */
  predicate Matches(a: Appointment, searchTerm: string) {
    Includes(Lower(Decimal(a.id)), Lower(searchTerm))
  }

  /** The identifier has no letters, so only the search term's case matters. */
  lemma MatchesDigits(a: Appointment, searchTerm: string)
    ensures Matches(a, searchTerm) <==> exists k :: OccursAt(Decimal(a.id), Lower(searchTerm), k)
  {
    LowerKeepsDigits(Decimal(a.id));
    assert Matches(a, searchTerm) == Includes(Decimal(a.id), Lower(searchTerm));
    IncludesIffOccurs(Decimal(a.id), Lower(searchTerm));
  }

  /** `xs.filter(a => Matches(a, searchTerm))`. */
  function Filter(xs: seq<Appointment>, searchTerm: string): (r: seq<Appointment>)
    ensures |r| <= |xs|
    ensures forall a :: a in r ==> a in xs && Matches(a, searchTerm)
  {
    if xs == [] then []
    else (if Matches(xs[0], searchTerm) then [xs[0]] else []) + Filter(xs[1..], searchTerm)
  }

  /** Filtering splits over concatenation: it keeps input order. */
  lemma {:induction false} FilterAppend(xs: seq<Appointment>, ys: seq<Appointment>, searchTerm: string)
    ensures Filter(xs + ys, searchTerm) == Filter(xs, searchTerm) + Filter(ys, searchTerm)
  {
    if xs == [] {
      assert xs + ys == ys;
    } else {
      assert (xs + ys)[0] == xs[0];
      assert (xs + ys)[1..] == xs[1..] + ys;
      FilterAppend(xs[1..], ys, searchTerm);
    }
  }

  /** Each appointment is kept as often as it occurs if it matches, and dropped otherwise. */
  lemma {:induction false} FilterCount(xs: seq<Appointment>, searchTerm: string, a: Appointment)
    ensures multiset(Filter(xs, searchTerm))[a] == if Matches(a, searchTerm) then multiset(xs)[a] else 0
  {
    if xs != [] {
      FilterCount(xs[1..], searchTerm, a);
      assert xs == [xs[0]] + xs[1..];
    }
  }

  /** The filter keeps exactly the matching appointments. */
  lemma {:induction false} FilterMembers(xs: seq<Appointment>, searchTerm: string, a: Appointment)
    ensures a in Filter(xs, searchTerm) <==> a in xs && Matches(a, searchTerm)
  {
    FilterCount(xs, searchTerm, a);
  }

  /** An empty search box keeps the whole list. */
  lemma {:induction false} FilterEmptyTerm(xs: seq<Appointment>)
    ensures Filter(xs, "") == xs
  {
    if xs != [] {
      IncludesEmpty(Lower(Decimal(xs[0].id)));
      FilterEmptyTerm(xs[1..]);
    }
  }

  // ------------------------------------------------------------------ sorting

  /**
   * The comparator handed to `sort`: priority difference when sorting by
   * status, `new Date(b.date) - new Date(a.date)` otherwise.
   */
  function Compare(sortKey: string, a: Appointment, b: Appointment): (c: int)
    ensures c <= 0 <==> Rank(sortKey, a) <= Rank(sortKey, b)
    ensures c == 0 <==> Rank(sortKey, a) == Rank(sortKey, b)
  {
    if sortKey == BY_STATUS then Priority(a.status) - Priority(b.status)
    else SortDay(b) - SortDay(a)
  }

  /** The key the comparator orders by: priority, or the date negated (most recent first). */
  function Rank(sortKey: string, a: Appointment): int {
    if sortKey == BY_STATUS then Priority(a.status) else -SortDay(a)
  }

  /** The comparator is the difference of ranks, hence a consistent comparator. */
  lemma CompareIsRankDifference(sortKey: string, a: Appointment, b: Appointment)
    ensures Compare(sortKey, a, b) == Rank(sortKey, a) - Rank(sortKey, b)
    ensures Compare(sortKey, a, b) == -Compare(sortKey, b, a)
  {
  }

  /** No later element compares before an earlier one. */
  ghost predicate Sorted(sortKey: string, s: seq<Appointment>) {
    forall i, j :: 0 <= i < j < |s| ==> Rank(sortKey, s[i]) <= Rank(sortKey, s[j])
  }

  /** The elements of `s` whose rank is `r`, in their order in `s`: one tie class. */
  function OfRank(sortKey: string, s: seq<Appointment>, r: int): seq<Appointment> {
    if s == [] then []
    else (if Rank(sortKey, s[0]) == r then [s[0]] else []) + OfRank(sortKey, s[1..], r)
  }

  /** Place `x` before the first element that does not compare below it. */
  function Insert(sortKey: string, x: Appointment, s: seq<Appointment>): (r: seq<Appointment>)
    ensures |r| == |s| + 1
  {
    if s == [] || Compare(sortKey, x, s[0]) <= 0 then [x] + s
    else [s[0]] + Insert(sortKey, x, s[1..])
  }

  /** `xs.sort(comparator)`: stable insertion sort. */
  function SortBy(sortKey: string, xs: seq<Appointment>): (r: seq<Appointment>)
    ensures |r| == |xs|
  {
    if xs == [] then [] else Insert(sortKey, xs[0], SortBy(sortKey, xs[1..]))
  }

  lemma {:induction false} InsertPermutes(sortKey: string, x: Appointment, s: seq<Appointment>)
    ensures multiset(Insert(sortKey, x, s)) == multiset([x] + s)
  {
    if s != [] && Compare(sortKey, x, s[0]) > 0 {
      InsertPermutes(sortKey, x, s[1..]);
      assert s == [s[0]] + s[1..];
    }
  }

  lemma {:induction false} InsertSorted(sortKey: string, x: Appointment, s: seq<Appointment>)
    requires Sorted(sortKey, s)
    ensures Sorted(sortKey, Insert(sortKey, x, s))
  {
    if s != [] && Compare(sortKey, x, s[0]) > 0 {
      InsertSorted(sortKey, x, s[1..]);
      InsertPermutes(sortKey, x, s[1..]);
      var t := Insert(sortKey, x, s[1..]);
      forall j | 0 <= j < |t| ensures Rank(sortKey, s[0]) <= Rank(sortKey, t[j]) {
        assert t[j] in multiset(t);
        assert t[j] == x || t[j] in s[1..];
      }
    }
  }

  /** Inserting keeps every tie class in the order of `[x] + s`. */
  lemma {:induction false} InsertOfRank(sortKey: string, x: Appointment, s: seq<Appointment>, r: int)
    ensures OfRank(sortKey, Insert(sortKey, x, s), r) == OfRank(sortKey, [x] + s, r)
  {
    if s != [] && Compare(sortKey, x, s[0]) > 0 {
      InsertOfRank(sortKey, x, s[1..], r);
      assert ([x] + s)[1..] == s;
      assert ([x] + s[1..])[1..] == s[1..];
    }
  }

  /** Sorting returns a permutation of its input. */
  lemma {:induction false} SortPermutes(sortKey: string, xs: seq<Appointment>)
    ensures multiset(SortBy(sortKey, xs)) == multiset(xs)
  {
    if xs != [] {
      SortPermutes(sortKey, xs[1..]);
      InsertPermutes(sortKey, xs[0], SortBy(sortKey, xs[1..]));
      assert xs == [xs[0]] + xs[1..];
    }
  }

  /** Sorting orders by the comparator. */
  lemma {:induction false} SortSorts(sortKey: string, xs: seq<Appointment>)
    ensures Sorted(sortKey, SortBy(sortKey, xs))
  {
    if xs != [] {
      SortSorts(sortKey, xs[1..]);
      InsertSorted(sortKey, xs[0], SortBy(sortKey, xs[1..]));
    }
  }

  /** Sorting is stable: each tie class keeps its input order. */
  lemma {:induction false} SortStable(sortKey: string, xs: seq<Appointment>, r: int)
    ensures OfRank(sortKey, SortBy(sortKey, xs), r) == OfRank(sortKey, xs, r)
  {
    if xs != [] {
      SortStable(sortKey, xs[1..], r);
      InsertOfRank(sortKey, xs[0], SortBy(sortKey, xs[1..]), r);
    }
  }

  /** The first element of a sorted non-empty sequence has the least rank in it. */
  lemma {:induction false} HeadIsLeast(sortKey: string, s: seq<Appointment>, r: int)
    requires Sorted(sortKey, s) && s != []
    requires OfRank(sortKey, s, r) != []
    ensures Rank(sortKey, s[0]) <= r
  {
    var k := RankWitness(sortKey, s, r);
    assert k == 0 || Rank(sortKey, s[0]) <= Rank(sortKey, s[k]);
  }

  /** The first element's tie class is not empty. */
  lemma HeadClass(sortKey: string, s: seq<Appointment>)
    requires s != []
    ensures OfRank(sortKey, s, Rank(sortKey, s[0])) != []
  {
  }

  /** A non-empty tie class names a position of that rank. */
  lemma {:induction false} RankWitness(sortKey: string, s: seq<Appointment>, r: int) returns (k: nat)
    requires OfRank(sortKey, s, r) != []
    ensures k < |s| && Rank(sortKey, s[k]) == r
  {
    if Rank(sortKey, s[0]) == r {
      k := 0;
    } else {
      var k' := RankWitness(sortKey, s[1..], r);
      k := k' + 1;
    }
  }

  /**
   * A sorted sequence with the same tie classes as `SortBy(sortKey, xs)` is
   * `SortBy(sortKey, xs)`: a stable sort has one possible result, so the model
   * fixes the order every conforming engine produces.
   */
  lemma {:induction false} SortedTiesDetermine(sortKey: string, s: seq<Appointment>, t: seq<Appointment>)
    requires Sorted(sortKey, s) && Sorted(sortKey, t)
    requires forall r :: OfRank(sortKey, s, r) == OfRank(sortKey, t, r)
    ensures s == t
    decreases |s| + |t|
  {
    if s == [] || t == [] {
      EmptyTies(sortKey, s, t);
    } else {
      SameHead(sortKey, s, t);
      TailTies(sortKey, s, t);
      SortedTail(sortKey, s);
      SortedTail(sortKey, t);
      SortedTiesDetermine(sortKey, s[1..], t[1..]);
      assert s == [s[0]] + s[1..] && t == [t[0]] + t[1..];
    }
  }

  /** When one side is empty, equal tie classes force the other to be empty too. */
  lemma EmptyTies(sortKey: string, s: seq<Appointment>, t: seq<Appointment>)
    requires s == [] || t == []
    requires forall r :: OfRank(sortKey, s, r) == OfRank(sortKey, t, r)
    ensures s == t
  {
    if s != [] {
      HeadClass(sortKey, s);
    }
    if t != [] {
      HeadClass(sortKey, t);
    }
  }

  /** A suffix of a sorted sequence is sorted. */
  lemma SortedTail(sortKey: string, s: seq<Appointment>)
    requires Sorted(sortKey, s) && s != []
    ensures Sorted(sortKey, s[1..])
  {
  }

  /** Two non-empty sorted sequences with the same tie classes start with the same element. */
  lemma SameHead(sortKey: string, s: seq<Appointment>, t: seq<Appointment>)
    requires s != [] && t != []
    requires Sorted(sortKey, s) && Sorted(sortKey, t)
    requires forall r :: OfRank(sortKey, s, r) == OfRank(sortKey, t, r)
    ensures s[0] == t[0]
  {
    var rs, rt := Rank(sortKey, s[0]), Rank(sortKey, t[0]);
    HeadClass(sortKey, s);
    HeadClass(sortKey, t);
    HeadIsLeast(sortKey, t, rs);
    HeadIsLeast(sortKey, s, rt);
    assert OfRank(sortKey, s, rs)[0] == s[0];
    assert OfRank(sortKey, t, rs)[0] == t[0];
  }

  /** Dropping a shared first element keeps the tie classes equal. */
  lemma TailTies(sortKey: string, s: seq<Appointment>, t: seq<Appointment>)
    requires s != [] && t != [] && s[0] == t[0]
    requires forall r :: OfRank(sortKey, s, r) == OfRank(sortKey, t, r)
    ensures forall r :: OfRank(sortKey, s[1..], r) == OfRank(sortKey, t[1..], r)
  {
    forall r ensures OfRank(sortKey, s[1..], r) == OfRank(sortKey, t[1..], r) {
      var head := if r == Rank(sortKey, s[0]) then [s[0]] else [];
      assert OfRank(sortKey, s, r) == head + OfRank(sortKey, s[1..], r);
      assert OfRank(sortKey, t, r) == head + OfRank(sortKey, t[1..], r);
      assert OfRank(sortKey, s[1..], r) == (head + OfRank(sortKey, s[1..], r))[|head|..];
      assert OfRank(sortKey, t[1..], r) == (head + OfRank(sortKey, t[1..], r))[|head|..];
    }
  }

  /** Any sorted arrangement of `xs` that keeps every tie class in input order is `SortBy(sortKey, xs)`. */
  lemma SortIsTheStableOrder(sortKey: string, xs: seq<Appointment>, t: seq<Appointment>)
    requires Sorted(sortKey, t)
    requires forall r :: OfRank(sortKey, t, r) == OfRank(sortKey, xs, r)
    ensures t == SortBy(sortKey, xs)
  {
    SortSorts(sortKey, xs);
    forall r ensures OfRank(sortKey, SortBy(sortKey, xs), r) == OfRank(sortKey, t, r) {
      SortStable(sortKey, xs, r);
    }
    SortedTiesDetermine(sortKey, SortBy(sortKey, xs), t);
  }

  // --------------------------------------------------------------- the table

  /** The table's `dataSource`: `[...(appointments || [])].filter(...).sort(...)`. */
  function Derive(appointments: Option<seq<Appointment>>, searchTerm: string, sortKey: string): (rows: seq<Appointment>)
    ensures appointments.None? ==> rows == []
    ensures |rows| <= |appointments.GetOr([])|
    ensures forall a :: a in rows ==> a in appointments.GetOr([]) && Matches(a, searchTerm)
  {
    var kept := Filter(appointments.GetOr([]), searchTerm);
    SortPermutes(sortKey, kept);
    assert forall a :: a in SortBy(sortKey, kept) ==> a in multiset(kept);
    SortBy(sortKey, kept)
  }

  /** No list yet: no rows. */
  lemma DeriveNull(searchTerm: string, sortKey: string)
    ensures Derive(None, searchTerm, sortKey) == []
  {
  }

  /**
   * The rows are a permutation of the filtered list, so each appointment shows
   * as often as it occurs in the list if its id matches the search, else never.
   */
  lemma DeriveRows(xs: seq<Appointment>, searchTerm: string, sortKey: string, a: Appointment)
    ensures multiset(Derive(Some(xs), searchTerm, sortKey)) == multiset(Filter(xs, searchTerm))
    ensures a in Derive(Some(xs), searchTerm, sortKey) <==> a in xs && Matches(a, searchTerm)
  {
    SortPermutes(sortKey, Filter(xs, searchTerm));
    FilterMembers(xs, searchTerm, a);
    assert a in Derive(Some(xs), searchTerm, sortKey) <==> a in multiset(Derive(Some(xs), searchTerm, sortKey));
  }

  /** With an empty search box the rows are a permutation of the whole list. */
  lemma DeriveEmptyTerm(xs: seq<Appointment>, sortKey: string)
    ensures multiset(Derive(Some(xs), "", sortKey)) == multiset(xs)
  {
    FilterEmptyTerm(xs);
    SortPermutes(sortKey, xs);
  }

  /** Sorted by status: priorities never decrease down the table, unknown statuses last. */
  lemma DeriveByStatus(appointments: Option<seq<Appointment>>, searchTerm: string, i: int, j: int)
    requires 0 <= i < j < |Derive(appointments, searchTerm, BY_STATUS)|
    ensures Priority(Derive(appointments, searchTerm, BY_STATUS)[i].status)
              <= Priority(Derive(appointments, searchTerm, BY_STATUS)[j].status)
    ensures !IsKnownStatus(Derive(appointments, searchTerm, BY_STATUS)[i].status) ==>
              !IsKnownStatus(Derive(appointments, searchTerm, BY_STATUS)[j].status)
  {
    SortSorts(BY_STATUS, Filter(appointments.GetOr([]), searchTerm));
  }

  /** Sorted by anything else: dates never increase down the table. */
  lemma DeriveByDate(appointments: Option<seq<Appointment>>, searchTerm: string, sortKey: string, i: int, j: int)
    requires sortKey != BY_STATUS
    requires 0 <= i < j < |Derive(appointments, searchTerm, sortKey)|
    ensures SortDay(Derive(appointments, searchTerm, sortKey)[i]) >= SortDay(Derive(appointments, searchTerm, sortKey)[j])
  {
    SortSorts(sortKey, Filter(appointments.GetOr([]), searchTerm));
  }

  /** Rows that tie under the comparator appear in the order the list gave them. */
  lemma DeriveStable(appointments: Option<seq<Appointment>>, searchTerm: string, sortKey: string, r: int)
    ensures OfRank(sortKey, Derive(appointments, searchTerm, sortKey), r)
              == OfRank(sortKey, Filter(appointments.GetOr([]), searchTerm), r)
  {
    SortStable(sortKey, Filter(appointments.GetOr([]), searchTerm), r);
  }
}
