/**
 * How the screens' views of one `AppState` fit together: the Accounts totals against the
 * Dashboard's gross revenue, and what deleting a merchant or an area leaves behind, since
 * no screen cascades a delete to the records that refer to it.
 */
module Consistency {
  import opened Wrappers
  import opened Types
  import opened Listing
  import opened Accounts
  import opened Dashboard
  import App
  import AreaPanel

  /** The amount column of settlement is the same sum the Dashboard calls gross revenue. */
  lemma {:induction false} CollectedIsRevenue(charges: RateCard, areas: seq<Area>, es: seq<ParcelEntry>)
    ensures TallyOf(charges, areas, es).collected == TotalRevenue(es)
    decreases |es|
  {
    if es != [] {
      CollectedIsRevenue(charges, areas, es[..|es| - 1]);
    }
  }

  /**
   * Splitting a list of entries by two tests no entry passes together: the revenue of the
   * entries passing either is the sum of the two parts.
   */
  lemma {:induction false} RevenueSplits(es: seq<ParcelEntry>, p: ParcelEntry -> bool, q: ParcelEntry -> bool,
                                         either: ParcelEntry -> bool)
    requires forall i :: 0 <= i < |es| ==> (either(es[i]) <==> p(es[i]) || q(es[i]))
    requires forall i :: 0 <= i < |es| ==> !(p(es[i]) && q(es[i]))
    ensures TotalRevenue(Filter(es, either)) == TotalRevenue(Filter(es, p)) + TotalRevenue(Filter(es, q))
    decreases |es|
  {
    if es != [] {
      var front, last := es[..|es| - 1], es[|es| - 1];
      assert es == front + [last];
      RevenueSplits(front, p, q, either);
      FilterAppend(front, [last], either);
      FilterAppend(front, [last], p);
      FilterAppend(front, [last], q);
      TotalRevenueAppend(Filter(front, either), Filter([last], either));
      TotalRevenueAppend(Filter(front, p), Filter([last], p));
      TotalRevenueAppend(Filter(front, q), Filter([last], q));
      assert Filter([last], either) == if either(last) then [last] else [];
      assert Filter([last], p) == if p(last) then [last] else [];
      assert Filter([last], q) == if q(last) then [last] else [];
    }
  }

  /** No two merchants share an id (ids come from distinct clock readings). */
  predicate DistinctIds(merchants: seq<Merchant>) {
    forall i, j :: 0 <= i < j < |merchants| ==> merchants[i].id != merchants[j].id
  }

  /** The revenue of each merchant's own entries, summed over the merchants. */
  function PerMerchantRevenue(entries: seq<ParcelEntry>, merchants: seq<Merchant>): real
    decreases |merchants|
  {
    if merchants == [] then 0.0
    else PerMerchantRevenue(entries, merchants[..|merchants| - 1])
         + TotalRevenue(EntriesOf(entries, merchants[|merchants| - 1].id))
  }

  /** A merchant's row collects exactly the revenue of that merchant's entries. */
  lemma RowCollectsRevenue(state: AppState, m: Merchant)
    ensures SummaryRow(state, m).summary.totalCollected == TotalRevenue(EntriesOf(state.entries, m.id))
  {
    CollectedIsRevenue(m.charges, state.areas, EntriesOf(state.entries, m.id));
  }

  /** The collected total of one more row adds that row's collected amount. */
  lemma TotalsCollectedStep(rows: seq<MerchantSummary>, k: nat)
    requires 0 < k <= |rows|
    ensures Totals(rows[..k]).collected == Totals(rows[..k - 1]).collected + rows[k - 1].summary.totalCollected
  {
    assert rows[..k][..k - 1] == rows[..k - 1];
  }

  /** One more merchant adds the revenue of that merchant's entries. */
  lemma PerMerchantRevenueStep(entries: seq<ParcelEntry>, merchants: seq<Merchant>, k: nat)
    requires 0 < k <= |merchants|
    ensures PerMerchantRevenue(entries, merchants[..k])
         == PerMerchantRevenue(entries, merchants[..k - 1]) + TotalRevenue(EntriesOf(entries, merchants[k - 1].id))
  {
    assert merchants[..k][..k - 1] == merchants[..k - 1];
  }

  /** The collected total of the first `k` rows is the revenue of the first `k` merchants. */
  lemma {:induction false} RowsCollectPerMerchant(state: AppState, k: nat)
    requires k <= |state.merchants|
    ensures Totals(AllSummaries(state)[..k]).collected == PerMerchantRevenue(state.entries, state.merchants[..k])
  {
    if k > 0 {
      var rows, m := AllSummaries(state), state.merchants[k - 1];
      TotalsCollectedStep(rows, k);
      PerMerchantRevenueStep(state.entries, state.merchants, k);
      RowsCollectPerMerchant(state, k - 1);
      assert rows[k - 1] == SummaryRow(state, m);
      RowCollectsRevenue(state, m);
    }
  }

  /** With distinct ids, the per-merchant revenues add up to the revenue of entries with a known merchant. */
  lemma {:induction false} PerMerchantIsKnownRevenue(entries: seq<ParcelEntry>, merchants: seq<Merchant>)
    requires DistinctIds(merchants)
    ensures PerMerchantRevenue(entries, merchants) == TotalRevenue(Filter(entries, HasMerchant(merchants)))
    decreases |merchants|
  {
    if merchants == [] {
      FilterNone(entries, HasMerchant(merchants));
    } else {
      var front, m := merchants[..|merchants| - 1], merchants[|merchants| - 1];
      assert DistinctIds(front) by {
        forall i, j | 0 <= i < j < |front|
          ensures front[i].id != front[j].id
        {
          assert front[i] == merchants[i] && front[j] == merchants[j];
        }
      }
      PerMerchantIsKnownRevenue(entries, front);
      forall i | 0 <= i < |entries| {
        LastMerchantSplits(merchants, entries[i]);
      }
      RevenueSplits(entries, HasMerchant(front), MerchantIs(m.id), HasMerchant(merchants));
    }
  }

  /** An entry's merchant is known to a list exactly when it is known to its front or is the last one, never both. */
  lemma LastMerchantSplits(merchants: seq<Merchant>, e: ParcelEntry)
    requires DistinctIds(merchants) && merchants != []
    ensures var front, m := merchants[..|merchants| - 1], merchants[|merchants| - 1];
      (HasMerchant(merchants)(e) <==> HasMerchant(front)(e) || MerchantIs(m.id)(e)) &&
      !(HasMerchant(front)(e) && MerchantIs(m.id)(e))
  {
    var front, m := merchants[..|merchants| - 1], merchants[|merchants| - 1];
    if HasMerchant(merchants)(e) && !MerchantIs(m.id)(e) {
      var k :| 0 <= k < |merchants| && merchants[k].id == e.merchantId;
      assert front[k] == merchants[k];
    }
    if HasMerchant(front)(e) {
      var k :| 0 <= k < |front| && front[k].id == e.merchantId;
      assert merchants[k] == front[k];
    }
    if MerchantIs(m.id)(e) {
      assert merchants[|merchants| - 1].id == e.merchantId;
    }
  }

  /**
   * With the filter at "all" and distinct merchant ids, the Accounts "Total Collected" is
   * the Dashboard's gross revenue of exactly the entries whose merchant still exists.
   */
  lemma AccountsCollectedIsKnownRevenue(state: AppState)
    requires DistinctIds(state.merchants)
    ensures Totals(MerchantSummaries(state, "all")).collected
         == TotalRevenue(Filter(state.entries, HasMerchant(state.merchants)))
  {
    FilterKeepsAll(AllSummaries(state), Selects("all"));
    AllRowsCollectPerMerchant(state);
    PerMerchantIsKnownRevenue(state.entries, state.merchants);
  }

  /** The collected total of all rows is the summed revenue of every merchant's entries. */
  lemma AllRowsCollectPerMerchant(state: AppState)
    ensures Totals(AllSummaries(state)).collected == PerMerchantRevenue(state.entries, state.merchants)
  {
    RowsCollectPerMerchant(state, |state.merchants|);
    WholeSlice(AllSummaries(state));
    WholeSlice(state.merchants);
  }

  /** Every row the Accounts screen shows belongs to a merchant of the state. */
  lemma RowsAreOfMerchants(state: AppState, selectedId: string)
    ensures forall i :: 0 <= i < |MerchantSummaries(state, selectedId)| ==>
      MerchantSummaries(state, selectedId)[i].merchant in state.merchants
  {
    var rows, all := MerchantSummaries(state, selectedId), AllSummaries(state);
    forall i | 0 <= i < |rows|
      ensures rows[i].merchant in state.merchants
    {
      var k :| 0 <= k < |all| && all[k] == rows[i];
      assert all[k].merchant == state.merchants[k];
    }
  }

  function Dangling(merchants: seq<Merchant>): ParcelEntry -> bool {
    (e: ParcelEntry) => !HasMerchant(merchants)(e)
  }

  /**
   * Gross revenue on the Dashboard is the Accounts "Total Collected" plus the amounts of
   * entries whose merchant no longer exists: the two screens agree exactly when there are none.
   */
  lemma GrossRevenueSplits(state: AppState)
    requires DistinctIds(state.merchants)
    ensures StatsOf(state).grossRevenue
         == Totals(MerchantSummaries(state, "all")).collected
          + TotalRevenue(Filter(state.entries, Dangling(state.merchants)))
  {
    AccountsCollectedIsKnownRevenue(state);
    var all := (e: ParcelEntry) => true;
    RevenueSplits(state.entries, HasMerchant(state.merchants), Dangling(state.merchants), all);
    FilterKeepsAll(state.entries, all);
  }

  /**
   * Deleting a merchant keeps all its entries: the Dashboard's parcel count and gross
   * revenue do not move, no Accounts row is that merchant's, and its entries are dangling.
   */
  lemma DeletedMerchantLeavesEntries(state: AppState, id: string, selectedId: string)
    ensures var after := state.(merchants := Remove(state.merchants, MerchantId, id));
      StatsOf(after).totalParcels == StatsOf(state).totalParcels &&
      StatsOf(after).grossRevenue == StatsOf(state).grossRevenue &&
      (forall i :: 0 <= i < |MerchantSummaries(after, selectedId)| ==>
         MerchantSummaries(after, selectedId)[i].merchant.id != id) &&
      (forall i :: 0 <= i < |state.entries| && state.entries[i].merchantId == id ==>
         Dangling(after.merchants)(state.entries[i]))
  {
    var after := state.(merchants := Remove(state.merchants, MerchantId, id));
    RemoveKeepsOthers(state.merchants, MerchantId, id);
    RowsAreOfMerchants(after, selectedId);
    forall i | 0 <= i < |state.entries| && state.entries[i].merchantId == id {
      RemovedMerchantOrphans(state.merchants, id, state.entries[i]);
    }
  }

  /** After a merchant id is removed, an entry carrying it has no merchant. */
  lemma RemovedMerchantOrphans(merchants: seq<Merchant>, id: string, e: ParcelEntry)
    requires e.merchantId == id
    ensures Dangling(Remove(merchants, MerchantId, id))(e)
  {
    var after := Remove(merchants, MerchantId, id);
    RemoveKeepsOthers(merchants, MerchantId, id);
    assert forall k :: 0 <= k < |after| ==> after[k].id != id;
    assert !(exists k :: 0 <= k < |after| && after[k].id == e.merchantId);
    assert !HasMerchant(after)(e);
  }

  /** Once its merchant is deleted, a parcel can no longer be printed. */
  lemma DeletedMerchantBlocksPrint(state: AppState, id: string, modal: App.PrintConfig)
    ensures var after := state.(merchants := Remove(state.merchants, MerchantId, id));
      var r := App.PrintTarget(after, Some(modal));
      r.Some? ==> r.value.parcel.merchantId != id
  {
    var after := state.(merchants := Remove(state.merchants, MerchantId, id));
    RemoveKeepsOthers(state.merchants, MerchantId, id);
    var r := App.PrintTarget(after, Some(modal));
    if r.Some? {
      var k :| 0 <= k < |after.merchants| && after.merchants[k] == r.value.merchant;
    }
  }

  /** Deleting an area keeps the entries that point at it; settlement then bills them as Outside. */
  lemma DeletedAreaBillsOutside(areas: seq<Area>, id: string)
    ensures ResolveSite(Remove(areas, AreaId, id), id) == Outside
  {
    RemoveKeepsOthers(areas, AreaId, id);
  }

  /**
   * After the area form is cancelled its site is absent; an area then saved from it is
   * billed as Outside, whatever the site select appeared to show.
   */
  lemma CancelledAreaBillsOutside(areas: seq<Area>, district: string, areaName: string, now: nat)
    requires district != "" && areaName != ""
    requires forall i :: 0 <= i < |areas| ==> areas[i].id != AreaPanel.AreaIdAt(now)
    ensures var f := AreaPanel.BlankForm().(district := Some(district), areaName := Some(areaName));
      ResolveSite(AreaPanel.SubmitAreas(areas, f, None, now), AreaPanel.AreaIdAt(now)) == Outside
  {
    var f := AreaPanel.BlankForm().(district := Some(district), areaName := Some(areaName));
    var after := AreaPanel.SubmitAreas(areas, f, None, now);
    assert after[|areas|].id == AreaPanel.AreaIdAt(now);
  }

  /** Settlement bills a parcel at the site of the first area with its id. */
  lemma FirstAreaWins(areas: seq<Area>, i: nat)
    requires i < |areas| && forall j :: 0 <= j < i ==> areas[j].id != areas[i].id
    ensures ResolveSite(areas, areas[i].id) == areas[i].site.GetOr(Outside)
  {
  }

  /**
   * Each seed area bills at its own site (Inside, Inside, Sub Area, Outside for a1-a4): no
   * two seed areas share an id.
   */
  lemma SeedAreaResolves(areas: seq<Area>, i: nat)
    requires areas == App.InitialState().areas && i < |areas|
    ensures ResolveSite(areas, areas[i].id) == areas[i].site.GetOr(Outside)
  {
    assert forall j, k :: 0 <= j < k < |areas| ==> areas[j].id[1] != areas[k].id[1];
    FirstAreaWins(areas, i);
  }

  /** Any other area id bills Outside on the seed data. */
  lemma UnknownSeedAreaIsOutside(areas: seq<Area>, areaId: string)
    requires areas == App.InitialState().areas
    requires areaId != "a1" && areaId != "a2" && areaId != "a3" && areaId != "a4"
    ensures ResolveSite(areas, areaId) == Outside
  {
    assert forall i :: 0 <= i < |areas| ==> areas[i].id != areaId;
  }
}
