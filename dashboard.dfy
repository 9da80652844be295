/** The Dashboard screen's figures: counts, gross revenue and the recent-activity list. */
module Dashboard {
  import opened Types
  import opened Listing

  /** The four stat cards. */
  datatype Stats = Stats(totalParcels: nat, activeMerchants: nat, coverageAreas: nat, grossRevenue: real)

  /** The reduce over entry amounts, with no filter by merchant. */
  function TotalRevenue(entries: seq<ParcelEntry>): real
    decreases |entries|
  {
    if entries == [] then 0.0 else TotalRevenue(entries[..|entries| - 1]) + entries[|entries| - 1].amount
  }

  /** Gross revenue over two runs of entries adds up. */
  lemma {:induction false} TotalRevenueAppend(a: seq<ParcelEntry>, b: seq<ParcelEntry>)
    ensures TotalRevenue(a + b) == TotalRevenue(a) + TotalRevenue(b)
    decreases |b|
  {
    if b == [] {
      assert a + b == a;
    } else {
      assert (a + b)[..|a + b| - 1] == a + b[..|b| - 1];
      TotalRevenueAppend(a, b[..|b| - 1]);
    }
  }

  /** With every amount non-negative, so is gross revenue. */
  lemma {:induction false} TotalRevenueNonNegative(entries: seq<ParcelEntry>)
    requires forall i :: 0 <= i < |entries| ==> entries[i].amount >= 0.0
    ensures TotalRevenue(entries) >= 0.0
    decreases |entries|
  {
    if entries != [] {
      TotalRevenueNonNegative(entries[..|entries| - 1]);
    }
  }

  function StatsOf(state: AppState): Stats {
    Stats(|state.entries|, |state.merchants|, |state.areas|, TotalRevenue(state.entries))
  }

  /** Where `slice(-5)` starts on a list of `n` entries. */
  function RecentStart(n: nat): nat {
    if n < 5 then 0 else n - 5
  }

  /** `entries.slice(-5).reverse()`: the last five entries at most, newest first. */
  function RecentActivities(entries: seq<ParcelEntry>): (r: seq<ParcelEntry>)
    ensures |r| == if |entries| < 5 then |entries| else 5
    ensures forall i :: 0 <= i < |r| ==> r[i] == entries[|entries| - 1 - i]
  {
    Reverse(entries[RecentStart(|entries|)..])
  }

  /** The "No recent activities" message replaces the list when there are no entries. */
  predicate ShowsEmptyMessage(state: AppState) {
    |state.entries| == 0
  }

  /** The message is shown exactly when the activity list would be empty. */
  lemma EmptyMessageIffNoActivity(state: AppState)
    ensures ShowsEmptyMessage(state) <==> RecentActivities(state.entries) == []
  {
  }

  /** A new entry heads the activity list and the parcel count grows by one. */
  lemma NewEntryHeadsActivity(state: AppState, e: ParcelEntry)
    ensures RecentActivities(state.entries + [e])[0] == e
    ensures StatsOf(state.(entries := state.entries + [e])).totalParcels == StatsOf(state).totalParcels + 1
    ensures StatsOf(state.(entries := state.entries + [e])).grossRevenue == StatsOf(state).grossRevenue + e.amount
  {
    assert (state.entries + [e])[..|state.entries|] == state.entries;
  }
}
