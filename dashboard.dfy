/**
 * The dashboard (src/components/Dashboard/Dashboard.js): the statistics computed from
 * the three fetched lists, the newest-first order of the bookings (an in-place stable
 * sort of the fetched array), the five most recent bookings, and the view state.
 */
module Dashboard {
  import opened Wrappers
  import opened Seqs
  import opened Records
  import Api
  import Bookings
  import Rooms

  const LoadError: string := "Failed to load dashboard data"

  /** The statuses of a booking that still counts as active. */
  const ActiveStatuses: seq<string> := ["PENDING", "CONFIRMED", "CHECKED_IN"]

  datatype DashboardStats = DashboardStats(
    totalHotels: nat,
    totalRooms: nat,
    totalBookings: nat,
    activeBookings: nat,
    availableRooms: nat,
    occupiedRooms: nat,
    revenue: real,
    occupancyRate: real)

  const InitialStats := DashboardStats(0, 0, 0, 0, 0, 0, 0.0, 0.0)

  /** The number of bookings whose status is one of the active statuses. */
  function ActiveCount(bookings: seq<Booking>): (n: nat)
    ensures n <= |bookings|
  {
    |Filter(bookings, KeyIn(Bookings.StatusOf, ActiveStatuses))|
  }

  /** The active count is the bookings view's pending, confirmed and checked-in counts added up. */
  lemma ActiveIsPendingConfirmedCheckedIn(bookings: seq<Booking>)
    ensures var c := Bookings.GetBookingCounts(bookings);
            ActiveCount(bookings) == c.pending + c.confirmed + c.checkedIn
  {
    var keys := ActiveStatuses;
    ActiveStatusesDistinct();
    FilterKeyInCounts(bookings, Bookings.StatusOf, keys);
    var c := Bookings.GetBookingCounts(bookings);
    var k1, k2 := keys[1..], keys[2..];
    assert k1 == ["CONFIRMED", "CHECKED_IN"] && k1[1..] == k2;
    assert k2 == ["CHECKED_IN"] && k2[1..] == [];
    assert CountByKeys(bookings, Bookings.StatusOf, k2) == c.checkedIn;
    assert CountByKeys(bookings, Bookings.StatusOf, k1) == c.confirmed + c.checkedIn;
  }

  lemma ActiveStatusesDistinct()
    ensures Distinct(ActiveStatuses)
  {
  }

  /** The amount a booking adds to revenue: parseFloat(totalAmount || 0). */
  function AmountOf(b: Booking): real
  {
    b.totalAmount.GetOr(0.0)
  }

  /** The amounts of the bookings added up from the left. */
  function SumAmounts(s: seq<Booking>): real
  {
    if s == [] then 0.0 else SumAmounts(s[..|s| - 1]) + AmountOf(s[|s| - 1])
  }

  lemma {:induction false} SumAmountsConcat(a: seq<Booking>, b: seq<Booking>)
    ensures SumAmounts(a + b) == SumAmounts(a) + SumAmounts(b)
  {
    if b != [] {
      assert (a + b)[..|a + b| - 1] == a + b[..|b| - 1];
      SumAmountsConcat(a, b[..|b| - 1]);
    } else {
      assert a + b == a;
    }
  }

  /** The sum of the amounts does not depend on the order of the bookings. */
  lemma {:induction false} SumAmountsPermutation(a: seq<Booking>, b: seq<Booking>)
    requires multiset(a) == multiset(b)
    ensures SumAmounts(a) == SumAmounts(b)
  {
    if a == [] {
      assert |b| == |multiset(b)| == 0;
    } else {
      var x := a[0];
      assert x in multiset(b);
      var i :| 0 <= i < |b| && b[i] == x;
      var rest := b[..i] + b[i + 1..];
      assert b == b[..i] + [x] + b[i + 1..];
      assert a == [x] + a[1..];
      assert multiset(b) == multiset(b[..i]) + multiset{x} + multiset(b[i + 1..]);
      assert multiset(a) == multiset{x} + multiset(a[1..]);
      assert multiset(rest) == multiset(b[..i]) + multiset(b[i + 1..]);
      assert multiset(a[1..]) == multiset(a) - multiset{x};
      assert multiset(rest) == multiset(b) - multiset{x};
      SumAmountsPermutation(a[1..], rest);
      SumAmountsConcat([x], a[1..]);
      SumAmountsConcat(b[..i] + [x], b[i + 1..]);
      SumAmountsConcat(b[..i], [x]);
      SumAmountsConcat(b[..i], b[i + 1..]);
      assert SumAmounts([x]) == AmountOf(x) by {
        assert [x][..0] == [];
      }
    }
  }

  function PaymentOf(b: Booking): string
  {
    b.paymentStatus
  }

  /** The revenue: the amounts of the paid bookings added up, a missing amount counting 0. */
  function Revenue(bookings: seq<Booking>): real
  {
    SumAmounts(Filter(bookings, KeyIs(PaymentOf, "PAID")))
  }

  /** The revenue does not depend on the order the bookings were fetched or sorted in. */
  lemma RevenueOrderIndependent(a: seq<Booking>, b: seq<Booking>)
    requires multiset(a) == multiset(b)
    ensures Revenue(a) == Revenue(b)
  {
    var paid := KeyIs(PaymentOf, "PAID");
    FilterMultiset(a, paid);
    FilterMultiset(b, paid);
    assert multiset(Filter(a, paid)) == multiset(Filter(b, paid));
    SumAmountsPermutation(Filter(a, paid), Filter(b, paid));
  }

  /** With no negative amounts the revenue is not negative. */
  lemma {:induction false} SumAmountsNonNegative(s: seq<Booking>)
    requires forall b :: b in s ==> AmountOf(b) >= 0.0
    ensures SumAmounts(s) >= 0.0
  {
    if s != [] {
      assert forall b :: b in s[..|s| - 1] ==> b in s;
      SumAmountsNonNegative(s[..|s| - 1]);
    }
  }

  /** With no negative amounts the revenue is not negative. */
  lemma RevenueNonNegative(bookings: seq<Booking>)
    ensures (forall b :: b in bookings ==> AmountOf(b) >= 0.0) ==> Revenue(bookings) >= 0.0
  {
    if forall b :: b in bookings ==> AmountOf(b) >= 0.0 {
      SumAmountsNonNegative(Filter(bookings, KeyIs(PaymentOf, "PAID")));
    }
  }

  /** The occupancy rate in percent; 0 when there are no rooms. */
  function OccupancyRate(occupied: nat, total: nat): (rate: real)
    requires occupied <= total
    ensures 0.0 <= rate <= 100.0
    ensures rate == 0.0 <==> total == 0 || occupied == 0
    ensures rate == 100.0 <==> total > 0 && occupied == total
  {
    if total > 0 then (occupied as real / total as real) * 100.0 else 0.0
  }

  /** The dashboard's statistics over the three fetched lists. */
  function ComputeStats(hotels: seq<Hotel>, rooms: seq<Room>, bookings: seq<Booking>): (st: DashboardStats)
    ensures st.totalHotels == |hotels| && st.totalRooms == |rooms| && st.totalBookings == |bookings|
    ensures st.activeBookings <= st.totalBookings
    ensures st.availableRooms + st.occupiedRooms <= st.totalRooms
    ensures st.availableRooms == Rooms.GetStatusCounts(rooms).available
    ensures st.occupiedRooms == Rooms.GetStatusCounts(rooms).occupied
    ensures 0.0 <= st.occupancyRate <= 100.0
    ensures (forall b :: b in bookings ==> AmountOf(b) >= 0.0) ==> st.revenue >= 0.0
  {
    var available := Filter(rooms, KeyIs(Rooms.StatusOf, "AVAILABLE"));
    var occupied := Filter(rooms, KeyIs(Rooms.StatusOf, "OCCUPIED"));
    DisjointFiltersFit(rooms, KeyIs(Rooms.StatusOf, "AVAILABLE"), KeyIs(Rooms.StatusOf, "OCCUPIED"));
    RevenueNonNegative(bookings);
    DashboardStats(
      |hotels|, |rooms|, |bookings|, ActiveCount(bookings), |available|, |occupied|,
      Revenue(bookings), OccupancyRate(|occupied|, |rooms|))
  }

  /** Every later booking was created no later than every earlier one. */
  ghost predicate NewestFirst(s: seq<Booking>)
  {
    forall i, j :: 0 <= i < j < |s| ==> s[i].createdAt >= s[j].createdAt
  }

  function CreatedAtOf(b: Booking): int
  {
    b.createdAt
  }

  /** Puts `x` after every booking of `t`, from the end, created no earlier than it. */
  function InsertNewestFirst(x: Booking, t: seq<Booking>): seq<Booking>
  {
    if t == [] then [x]
    else if t[|t| - 1].createdAt >= x.createdAt then t + [x]
    else InsertNewestFirst(x, t[..|t| - 1]) + [t[|t| - 1]]
  }

  /**
   * The bookings ordered by the comparator (a, b) => b.createdAt - a.createdAt under
   * Array.prototype.sort, which is stable: newest first, ties in fetched order.
   */
  function SortNewestFirst(s: seq<Booking>): seq<Booking>
  {
    if s == [] then [] else InsertNewestFirst(s[|s| - 1], SortNewestFirst(s[..|s| - 1]))
  }

  lemma {:induction false} InsertPermutes(x: Booking, t: seq<Booking>)
    ensures multiset(InsertNewestFirst(x, t)) == multiset(t) + multiset{x}
  {
    if t != [] && t[|t| - 1].createdAt < x.createdAt {
      InsertPermutes(x, t[..|t| - 1]);
      assert t == t[..|t| - 1] + [t[|t| - 1]];
    }
  }

  lemma {:induction false} InsertKeepsOrder(x: Booking, t: seq<Booking>)
    requires NewestFirst(t)
    ensures NewestFirst(InsertNewestFirst(x, t))
  {
    if t != [] && t[|t| - 1].createdAt < x.createdAt {
      var init := t[..|t| - 1];
      InsertKeepsOrder(x, init);
      InsertPermutes(x, init);
      var r := InsertNewestFirst(x, init);
      forall y | y in r ensures y.createdAt >= t[|t| - 1].createdAt {
        assert y in multiset(r);
        if y != x {
          assert y in multiset(init);
          var k :| 0 <= k < |init| && init[k] == y;
        }
      }
    }
  }

  /** Inserting keeps, among bookings created at the same instant, their order, with `x` last. */
  lemma {:induction false} InsertIsStable(x: Booking, t: seq<Booking>, k: int)
    ensures Filter(InsertNewestFirst(x, t), KeyIs(CreatedAtOf, k)) == Filter(t + [x], KeyIs(CreatedAtOf, k))
  {
    var same := KeyIs(CreatedAtOf, k);
    if t == [] {
      assert t + [x] == [x];
    } else if t[|t| - 1].createdAt < x.createdAt {
      var init, last := t[..|t| - 1], t[|t| - 1];
      assert same(last) ==> !same(x) by {
        assert same(last) <==> CreatedAtOf(last) == k;
        assert same(x) <==> CreatedAtOf(x) == k;
      }
      assert InsertNewestFirst(x, t) == InsertNewestFirst(x, init) + [last];
      assert t + [x] == init + [last] + [x];
      InsertIsStable(x, init, k);
      FilterSwapLast(InsertNewestFirst(x, init), init, x, last, same);
    }
  }

  /** The sorted list is ordered newest first. */
  lemma {:induction false} SortIsNewestFirst(s: seq<Booking>)
    ensures NewestFirst(SortNewestFirst(s))
  {
    if s != [] {
      SortIsNewestFirst(s[..|s| - 1]);
      InsertKeepsOrder(s[|s| - 1], SortNewestFirst(s[..|s| - 1]));
    }
  }

  /** The sorted list holds exactly the fetched bookings. */
  lemma {:induction false} SortPermutes(s: seq<Booking>)
    ensures multiset(SortNewestFirst(s)) == multiset(s)
  {
    if s != [] {
      var init, last := s[..|s| - 1], s[|s| - 1];
      calc {
        multiset(SortNewestFirst(s));
        multiset(InsertNewestFirst(last, SortNewestFirst(init)));
        { InsertPermutes(last, SortNewestFirst(init)); }
        multiset(SortNewestFirst(init)) + multiset{last};
        { SortPermutes(init); }
        multiset(init) + multiset{last};
        { assert s == init + [last]; }
        multiset(s);
      }
    }
  }

  /** The sort is stable: bookings created at the same instant keep their fetched order. */
  lemma {:induction false} SortIsStable(s: seq<Booking>, k: int)
    ensures Filter(SortNewestFirst(s), KeyIs(CreatedAtOf, k)) == Filter(s, KeyIs(CreatedAtOf, k))
  {
    if s != [] {
      var init, last := s[..|s| - 1], s[|s| - 1];
      var same := KeyIs(CreatedAtOf, k);
      assert s == init + [last];
      calc {
        Filter(SortNewestFirst(s), same);
        Filter(InsertNewestFirst(last, SortNewestFirst(init)), same);
        { InsertIsStable(last, SortNewestFirst(init), k); }
        Filter(SortNewestFirst(init) + [last], same);
        { FilterConcat(SortNewestFirst(init), [last], same); }
        Filter(SortNewestFirst(init), same) + Filter([last], same);
        { SortIsStable(init, k); }
        Filter(init, same) + Filter([last], same);
        { FilterConcat(init, [last], same); }
        Filter(s, same);
      }
    }
  }

  /** `x` goes right after the last booking not older than it, past the strictly older ones. */
  lemma {:induction false} InsertPosition(x: Booking, sorted: seq<Booking>, j: nat)
    requires j <= |sorted| && (j == 0 || sorted[j - 1].createdAt >= x.createdAt)
    requires forall k :: j <= k < |sorted| ==> sorted[k].createdAt < x.createdAt
    ensures InsertNewestFirst(x, sorted) == sorted[..j] + [x] + sorted[j..]
  {
    if j == |sorted| {
      assert sorted[..j] == sorted && sorted[j..] == [];
    } else {
      var init, last := sorted[..|sorted| - 1], sorted[|sorted| - 1];
      InsertPosition(x, init, j);
      assert init[..j] == sorted[..j];
      assert init[j..] + [last] == sorted[j..];
    }
  }

  /**
   * The in-place stable sort the dashboard applies to the fetched bookings array:
   * insertion sort, moving each booking left past the strictly older ones.
   */
  method SortRecentFirst(a: array<Booking>)
    modifies a
    ensures a[..] == SortNewestFirst(old(a[..]))
  {
    ghost var original := a[..];
    var i := 0;
    while i < a.Length
      invariant 0 <= i <= a.Length
      invariant a[..i] == SortNewestFirst(original[..i])
      invariant a[i..] == original[i..]
    {
      assert original[..i + 1] == original[..i] + [original[i]];
      InsertLast(a, i);
      i := i + 1;
    }
    assert original[..a.Length] == original;
  }

  /** Moves a[i] left past the strictly older bookings before it; a[..i] is already sorted. */
  method InsertLast(a: array<Booking>, i: nat)
    requires i < a.Length
    modifies a
    ensures a[..i + 1] == InsertNewestFirst(old(a[i]), old(a[..i]))
    ensures a[i + 1..] == old(a[i + 1..])
  {
    var x := a[i];
    ghost var sorted := a[..i];
    var j := i;
    while j > 0 && a[j - 1].createdAt < x.createdAt
      invariant 0 <= j <= i
      invariant forall k :: 0 <= k < j ==> a[k] == sorted[k]
      invariant forall k :: j < k <= i ==> a[k] == sorted[k - 1]
      invariant forall k :: i < k < a.Length ==> a[k] == old(a[k])
      invariant forall k :: j <= k < i ==> sorted[k].createdAt < x.createdAt
    {
      a[j] := a[j - 1];
      j := j - 1;
    }
    InsertPosition(x, sorted, j);
    a[j] := x;
    ghost var inserted := sorted[..j] + [x] + sorted[j..];
    assert forall k :: 0 <= k <= i ==> a[k] == inserted[k];
    assert a[..i + 1] == inserted;
  }

  /** The five most recent bookings: the first five of the newest-first order. */
  function Recent(bookings: seq<Booking>): (recent: seq<Booking>)
    ensures |recent| == if |bookings| < 5 then |bookings| else 5
  {
    assert |SortNewestFirst(bookings)| == |bookings| by {
      SortPermutes(bookings);
      assert |multiset(SortNewestFirst(bookings))| == |multiset(bookings)|;
    }
    Take(SortNewestFirst(bookings), 5)
  }

  /** No booking left off the recent list was created after one on it. */
  lemma RecentAreNewest(bookings: seq<Booking>)
    ensures var sorted := SortNewestFirst(bookings);
            var recent := Recent(bookings);
            && NewestFirst(recent)
            && multiset(recent) <= multiset(bookings)
            && forall i, j :: 0 <= i < |recent| <= j < |sorted| ==> sorted[j].createdAt <= recent[i].createdAt
  {
    var sorted := SortNewestFirst(bookings);
    SortIsNewestFirst(bookings);
    SortPermutes(bookings);
    var recent := Recent(bookings);
    assert recent == sorted[..|recent|];
    assert sorted == recent + sorted[|recent|..];
    assert multiset(sorted) == multiset(recent) + multiset(sorted[|recent|..]);
  }

  /** The state of the dashboard. */
  class DashboardView {
    var stats: DashboardStats
    var recentBookings: seq<Booking>
    var loading: bool
    var error: string

    constructor()
      ensures stats == InitialStats && recentBookings == [] && loading && error == ""
    {
      stats, recentBookings, loading, error := InitialStats, [], true, "";
    }

    /**
     * loadDashboardData: on success the statistics and the five newest bookings, after
     * sorting the fetched bookings in place; on failure the error text; loading ends.
     */
    method LoadDashboardData(fetched: Api.Reply<(seq<Hotel>, seq<Room>, seq<Booking>)>)
      modifies this
      ensures !loading
      ensures fetched.Ok? ==>
                stats == ComputeStats(fetched.value.0, fetched.value.1, fetched.value.2)
                && recentBookings == Recent(fetched.value.2) && error == old(error)
      ensures fetched.Fail? ==>
                stats == old(stats) && recentBookings == old(recentBookings) && error == LoadError
    {
      loading := true;
      if fetched.Ok? {
        var (hotels, rooms, bookings) := fetched.value;
        stats := ComputeStats(hotels, rooms, bookings);
        var a := new Booking[|bookings|](i requires 0 <= i < |bookings| => bookings[i]);
        assert a[..] == bookings;
        SortRecentFirst(a);
        recentBookings := Take(a[..], 5);
      } else {
        error := LoadError;
      }
      loading := false;
    }
  }
}
