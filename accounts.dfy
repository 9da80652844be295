/**
 * The settlement engine of the Accounts screen: the site an entry is billed at, the three
 * fees of one entry, a merchant's summary, the per-merchant rows with the merchant filter,
 * and the grand totals over the rows shown.
 */
module Accounts {
  import opened Wrappers
  import opened Types
  import opened Listing

  /**
   * The site an entry is billed at: that of the first area with the entry's area id, and
   * Outside when no area has that id or the area found has no site.
   */
  function ResolveSite(areas: seq<Area>, areaId: string): (site: SiteType)
    ensures (forall i :: 0 <= i < |areas| ==> areas[i].id != areaId) ==> site == Outside
    ensures forall i :: (0 <= i < |areas| && areas[i].id == areaId &&
                         forall j :: 0 <= j < i ==> areas[j].id != areaId)
              ==> site == areas[i].site.GetOr(Outside)
  {
    match Lookup(areas, AreaId, areaId)
    case None => Outside
    case Some(a) => a.site.GetOr(Outside)
  }

  /** The three fees charged for one parcel. */
  datatype Fees = Fees(delivery: real, cod: real, weight: real)

  /** The COD charge: a percentage of the collected amount, unrounded. */
  function CodCharge(amount: real, percent: real): real {
    amount * percent / 100.0
  }

  /** The weight surcharge: the first kilogram is free, every kilogram beyond it costs `perKg`. */
  function WeightCharge(weight: real, perKg: real): real {
    if weight > 1.0 then (weight - 1.0) * perKg else 0.0
  }

  /** The fees of entry `e` under rate card `charges`, at the site its area resolves to. */
  function EntryFees(charges: RateCard, areas: seq<Area>, e: ParcelEntry): Fees {
    var site := ResolveSite(areas, e.areaId);
    Fees(charges.delivery.At(site), CodCharge(e.amount, charges.cod.At(site)),
         WeightCharge(e.weight, charges.weight.At(site)))
  }

  /** No surcharge up to 1 kg; linear beyond it; the two pieces meet at exactly 1 kg. */
  lemma WeightChargeThreshold(weight: real, perKg: real)
    ensures weight <= 1.0 ==> WeightCharge(weight, perKg) == 0.0
    ensures weight >= 1.0 ==> WeightCharge(weight, perKg) == (weight - 1.0) * perKg
  {
  }

  lemma ProductNonNegative(x: real, y: real)
    requires x >= 0.0 && y >= 0.0
    ensures x * y >= 0.0
  {
  }

  /** With a non-negative rate, a heavier parcel never pays a smaller surcharge. */
  lemma WeightChargeMonotone(lighter: real, heavier: real, perKg: real)
    requires lighter <= heavier && perKg >= 0.0
    ensures WeightCharge(lighter, perKg) <= WeightCharge(heavier, perKg)
  {
    if lighter > 1.0 {
      assert (heavier - 1.0) * perKg - (lighter - 1.0) * perKg == (heavier - lighter) * perKg;
    } else if heavier > 1.0 {
      ProductNonNegative(heavier - 1.0, perKg);
    }
  }

  /** The COD charge is linear in the amount: charging two parts equals charging their sum. */
  lemma CodChargeAdditive(a: real, b: real, percent: real)
    ensures CodCharge(a + b, percent) == CodCharge(a, percent) + CodCharge(b, percent)
  {
    assert (a + b) * percent == a * percent + b * percent;
  }

  /** The delivery fee depends only on the site: not on the weight, not on the amount. */
  lemma DeliveryIgnoresParcel(charges: RateCard, areas: seq<Area>, e: ParcelEntry, weight: real, amount: real)
    ensures EntryFees(charges, areas, e.(weight := weight, amount := amount)).delivery
         == EntryFees(charges, areas, e).delivery
         == charges.delivery.At(ResolveSite(areas, e.areaId))
  {
  }

  predicate NonNegativeRates(charges: RateCard) {
    forall kind, site :: charges.Rate(kind, site) >= 0.0
  }

  /** Non-negative rates and a non-negative amount give non-negative fees. */
  lemma FeesNonNegative(charges: RateCard, areas: seq<Area>, e: ParcelEntry)
    requires NonNegativeRates(charges) && e.amount >= 0.0
    ensures var f := EntryFees(charges, areas, e); f.delivery >= 0.0 && f.cod >= 0.0 && f.weight >= 0.0
  {
    var site := ResolveSite(areas, e.areaId);
    assert charges.Rate(Delivery, site) >= 0.0;
    assert charges.Rate(Cod, site) >= 0.0;
    assert charges.Rate(Weight, site) >= 0.0;
    ProductNonNegative(e.amount, charges.cod.At(site));
    if e.weight > 1.0 {
      ProductNonNegative(e.weight - 1.0, charges.weight.At(site));
    }
  }

  /** The four running totals of a merchant's entries. */
  datatype Tally = Tally(collected: real, delivery: real, cod: real, weight: real) {

    function Plus(other: Tally): Tally {
      Tally(collected + other.collected, delivery + other.delivery, cod + other.cod, weight + other.weight)
    }
  }

  lemma TallyPlusAssociative(x: Tally, y: Tally, z: Tally)
    ensures x.Plus(y).Plus(z) == x.Plus(y.Plus(z))
  {
  }

  /** The totals after the entries `es`, taken in order. */
  function TallyOf(charges: RateCard, areas: seq<Area>, es: seq<ParcelEntry>): Tally
    decreases |es|
  {
    if es == [] then Tally(0.0, 0.0, 0.0, 0.0)
    else
      var e := es[|es| - 1];
      var f := EntryFees(charges, areas, e);
      TallyOf(charges, areas, es[..|es| - 1]).Plus(Tally(e.amount, f.delivery, f.cod, f.weight))
  }

  /** One more entry adds its amount and its fees to the totals of the entries before it. */
  lemma TallyStep(charges: RateCard, areas: seq<Area>, es: seq<ParcelEntry>, i: nat)
    requires i < |es|
    ensures var f := EntryFees(charges, areas, es[i]);
      TallyOf(charges, areas, es[..i + 1])
      == TallyOf(charges, areas, es[..i]).Plus(Tally(es[i].amount, f.delivery, f.cod, f.weight))
  {
    assert es[..i + 1][..i] == es[..i];
  }

  /** Totals over two runs of entries add up: the fold keeps full precision and never clamps. */
  lemma {:induction false} TallyAppend(charges: RateCard, areas: seq<Area>, a: seq<ParcelEntry>, b: seq<ParcelEntry>)
    ensures TallyOf(charges, areas, a + b) == TallyOf(charges, areas, a).Plus(TallyOf(charges, areas, b))
    decreases |b|
  {
    if b == [] {
      assert a + b == a;
    } else {
      var front, e := b[..|b| - 1], b[|b| - 1];
      var f := EntryFees(charges, areas, e);
      var step := Tally(e.amount, f.delivery, f.cod, f.weight);
      assert (a + b)[..|a + b| - 1] == a + front && (a + b)[|a + b| - 1] == e;
      assert TallyOf(charges, areas, a + b) == TallyOf(charges, areas, a + front).Plus(step);
      assert TallyOf(charges, areas, b) == TallyOf(charges, areas, front).Plus(step);
      TallyAppend(charges, areas, a, front);
      TallyPlusAssociative(TallyOf(charges, areas, a), TallyOf(charges, areas, front), step);
    }
  }

  /** A merchant's settlement summary. */
  datatype Summary = Summary(
    totalCollected: real,
    totalDelivery: real,
    totalCODCharge: real,
    totalWeightCharge: real,
    netAmount: real)
  {
    function Charges(): real {
      totalDelivery + totalCODCharge + totalWeightCharge
    }

    /** The net payable is what was collected less every charge. */
    predicate Balanced() {
      netAmount == totalCollected - Charges()
    }
  }

  /** The summary of `merchant` over `es`: the totals, then collected less charges, unclamped. */
  function SummaryOf(merchant: Merchant, areas: seq<Area>, es: seq<ParcelEntry>): Summary {
    var t := TallyOf(merchant.charges, areas, es);
    Summary(t.collected, t.delivery, t.cod, t.weight, t.collected - (t.delivery + t.cod + t.weight))
  }

  /** A merchant with no entries has every total and the net amount at zero. */
  lemma SummaryOfNothing(merchant: Merchant, areas: seq<Area>)
    ensures SummaryOf(merchant, areas, []) == Summary(0.0, 0.0, 0.0, 0.0, 0.0)
  {
  }

  /** Net amounts of two runs of entries add up: no run is floored before the two are combined. */
  lemma NetAmountAdditive(merchant: Merchant, areas: seq<Area>, a: seq<ParcelEntry>, b: seq<ParcelEntry>)
    ensures SummaryOf(merchant, areas, a + b).netAmount
         == SummaryOf(merchant, areas, a).netAmount + SummaryOf(merchant, areas, b).netAmount
  {
    TallyAppend(merchant.charges, areas, a, b);
  }

  /**
   * The settlement loop: four accumulators updated entry by entry, then the net amount.
   * It computes exactly the summary `SummaryOf` specifies.
   */
  method CalculateMerchantSummary(merchant: Merchant, areas: seq<Area>, entries: seq<ParcelEntry>)
    returns (s: Summary)
    ensures s == SummaryOf(merchant, areas, entries)
  {
    var totalCollected, totalDelivery, totalCODCharge, totalWeightCharge := 0.0, 0.0, 0.0, 0.0;
    for i := 0 to |entries|
      invariant Tally(totalCollected, totalDelivery, totalCODCharge, totalWeightCharge)
             == TallyOf(merchant.charges, areas, entries[..i])
    {
      var entry := entries[i];
      var site := ResolveSite(areas, entry.areaId);
      var delivery := merchant.charges.delivery.At(site);
      var codPercent := merchant.charges.cod.At(site);
      var codCharge := CodCharge(entry.amount, codPercent);
      var weightCharge := WeightCharge(entry.weight, merchant.charges.weight.At(site));
      assert EntryFees(merchant.charges, areas, entry) == Fees(delivery, codCharge, weightCharge);
      TallyStep(merchant.charges, areas, entries, i);
      totalCollected := totalCollected + entry.amount;
      totalDelivery := totalDelivery + delivery;
      totalCODCharge := totalCODCharge + codCharge;
      totalWeightCharge := totalWeightCharge + weightCharge;
    }
    assert entries[..|entries|] == entries;
    var netAmount := totalCollected - (totalDelivery + totalCODCharge + totalWeightCharge);
    s := Summary(totalCollected, totalDelivery, totalCODCharge, totalWeightCharge, netAmount);
  }

  /** One row of the settlement table. */
  datatype MerchantSummary = MerchantSummary(merchant: Merchant, summary: Summary, parcelCount: nat)

  function MerchantIs(id: string): ParcelEntry -> bool {
    (e: ParcelEntry) => e.merchantId == id
  }

  /** The entries that carry merchant id `id`, in order. */
  function EntriesOf(entries: seq<ParcelEntry>, id: string): seq<ParcelEntry> {
    Filter(entries, MerchantIs(id))
  }

  function SummaryRow(state: AppState, m: Merchant): MerchantSummary {
    var es := EntriesOf(state.entries, m.id);
    MerchantSummary(m, SummaryOf(m, state.areas, es), |es|)
  }

  /** One row per merchant, in merchant order, before the merchant filter. */
  function AllSummaries(state: AppState): (rows: seq<MerchantSummary>)
    ensures |rows| == |state.merchants|
    ensures forall i :: 0 <= i < |rows| ==> rows[i] == SummaryRow(state, state.merchants[i])
  {
    seq(|state.merchants|, i requires 0 <= i < |state.merchants| => SummaryRow(state, state.merchants[i]))
  }

  function Selects(selectedId: string): MerchantSummary -> bool {
    (r: MerchantSummary) => selectedId == "all" || r.merchant.id == selectedId
  }

  /** The rows the Accounts screen shows for the merchant filter `selectedId`. */
  function MerchantSummaries(state: AppState, selectedId: string): seq<MerchantSummary> {
    Filter(AllSummaries(state), Selects(selectedId))
  }

  /**
   * With the filter at "all" there is one row per merchant, in input order, each built from
   * exactly that merchant's entries and counting them.
   */
  lemma AllKeepsEveryMerchant(state: AppState)
    ensures var rows := MerchantSummaries(state, "all");
      |rows| == |state.merchants| &&
      forall i :: 0 <= i < |rows| ==>
        rows[i].merchant == state.merchants[i] &&
        rows[i].parcelCount == |EntriesOf(state.entries, state.merchants[i].id)| &&
        rows[i].summary == SummaryOf(state.merchants[i], state.areas, EntriesOf(state.entries, state.merchants[i].id))
  {
    FilterKeepsAll(AllSummaries(state), Selects("all"));
  }

  /** Any other filter value keeps exactly the rows of merchants with that id, in order. */
  lemma OtherFilterKeepsExactMatches(state: AppState, selectedId: string)
    requires selectedId != "all"
    ensures var rows := MerchantSummaries(state, selectedId);
      (forall i :: 0 <= i < |rows| ==> rows[i].merchant.id == selectedId && rows[i] in AllSummaries(state)) &&
      (forall i :: 0 <= i < |state.merchants| && state.merchants[i].id == selectedId ==>
         SummaryRow(state, state.merchants[i]) in rows) &&
      (forall r :: multiset(rows)[r] == if r.merchant.id == selectedId then multiset(AllSummaries(state))[r] else 0) &&
      Subsequence(rows, AllSummaries(state))
  {
    var all := AllSummaries(state);
    FilterIsSubsequence(all, Selects(selectedId));
    FilterCounts(all, Selects(selectedId));
    forall i | 0 <= i < |state.merchants| && state.merchants[i].id == selectedId
      ensures SummaryRow(state, state.merchants[i]) in MerchantSummaries(state, selectedId)
    {
      assert all[i] == SummaryRow(state, state.merchants[i]);
    }
  }

  /** An entry counted in a row always carries that row's merchant id. */
  lemma RowsHoldOnlyTheirEntries(state: AppState, selectedId: string)
    ensures forall r, e :: r in MerchantSummaries(state, selectedId) && e in EntriesOf(state.entries, r.merchant.id)
              ==> e.merchantId == r.merchant.id
  {
    forall r, e | r in MerchantSummaries(state, selectedId) && e in EntriesOf(state.entries, r.merchant.id)
      ensures e.merchantId == r.merchant.id
    {
      var es := EntriesOf(state.entries, r.merchant.id);
      var k :| 0 <= k < |es| && es[k] == e;
      assert MerchantIs(r.merchant.id)(es[k]);
    }
  }

  function HasMerchant(merchants: seq<Merchant>): ParcelEntry -> bool {
    (e: ParcelEntry) => exists i :: 0 <= i < |merchants| && merchants[i].id == e.merchantId
  }

  /**
   * Entries whose merchant id matches no merchant do not reach settlement: dropping them
   * leaves every row unchanged.
   */
  lemma DanglingEntriesIgnored(state: AppState, selectedId: string)
    ensures MerchantSummaries(state.(entries := Filter(state.entries, HasMerchant(state.merchants))), selectedId)
         == MerchantSummaries(state, selectedId)
  {
    var known := state.(entries := Filter(state.entries, HasMerchant(state.merchants)));
    forall i | 0 <= i < |state.merchants|
      ensures SummaryRow(known, state.merchants[i]) == SummaryRow(state, state.merchants[i])
    {
      var id := state.merchants[i].id;
      forall k | 0 <= k < |state.entries| && MerchantIs(id)(state.entries[k])
        ensures HasMerchant(state.merchants)(state.entries[k])
      {
        assert state.merchants[i].id == state.entries[k].merchantId;
      }
      FilterNarrower(state.entries, HasMerchant(state.merchants), MerchantIs(id));
    }
    assert AllSummaries(known) == AllSummaries(state);
  }

  /** The three headline figures of the Accounts screen. */
  datatype GrandTotals = GrandTotals(collected: real, payable: real, revenue: real) {

    function Plus(other: GrandTotals): GrandTotals {
      GrandTotals(collected + other.collected, payable + other.payable, revenue + other.revenue)
    }
  }

  /** The reduce over the rows shown: field-wise sums. */
  function Totals(rows: seq<MerchantSummary>): GrandTotals
    decreases |rows|
  {
    if rows == [] then GrandTotals(0.0, 0.0, 0.0)
    else
      var s := rows[|rows| - 1].summary;
      Totals(rows[..|rows| - 1]).Plus(GrandTotals(s.totalCollected, s.netAmount, s.Charges()))
  }

  /** Totals over any split of the rows add up to the totals over all of them. */
  lemma {:induction false} TotalsAppend(a: seq<MerchantSummary>, b: seq<MerchantSummary>)
    ensures Totals(a + b) == Totals(a).Plus(Totals(b))
    decreases |b|
  {
    if b == [] {
      assert a + b == a;
    } else {
      assert (a + b)[..|a + b| - 1] == a + b[..|b| - 1];
      TotalsAppend(a, b[..|b| - 1]);
    }
  }

  /** Over balanced rows, what was collected is exactly what is payable plus the revenue. */
  lemma {:induction false} TotalsBalance(rows: seq<MerchantSummary>)
    requires forall i :: 0 <= i < |rows| ==> rows[i].summary.Balanced()
    ensures Totals(rows).collected == Totals(rows).payable + Totals(rows).revenue
    decreases |rows|
  {
    if rows != [] {
      TotalsBalance(rows[..|rows| - 1]);
    }
  }

  /** On the Accounts screen, total collected = total payable + total revenue, for every filter. */
  lemma SettlementBalances(state: AppState, selectedId: string)
    ensures var t := Totals(MerchantSummaries(state, selectedId));
      t.collected == t.payable + t.revenue
  {
    var rows := MerchantSummaries(state, selectedId);
    forall i | 0 <= i < |rows|
      ensures rows[i].summary.Balanced()
    {
      assert rows[i] in AllSummaries(state);
    }
    TotalsBalance(rows);
  }

  /** A merchant on the default rate card, and the one Inside area of the worked examples. */
  function ExampleShop(): Merchant {
    Merchant("M-1", "Shop", "Shop", "", "", "", DefaultCharges())
  }

  function ExampleAreas(): seq<Area> {
    [Area("a1", Some(Inside), "Dhaka", "Uttara", "1230", true)]
  }

  function ExampleEntry(areaId: string, weight: real, amount: real): ParcelEntry {
    ParcelEntry("P-1", "", "M-1", "RP100000", "", "Customer", "017", "", areaId, weight, amount, false)
  }

  /** The summary of a single entry is its amount and its three fees. */
  lemma SingleEntrySummary(merchant: Merchant, areas: seq<Area>, e: ParcelEntry)
    ensures var f := EntryFees(merchant.charges, areas, e);
      SummaryOf(merchant, areas, [e])
      == Summary(e.amount, f.delivery, f.cod, f.weight, e.amount - (f.delivery + f.cod + f.weight))
  {
    var f := EntryFees(merchant.charges, areas, e);
    assert [e][..0] == [] && [e][0] == e;
    assert TallyOf(merchant.charges, areas, [e])
        == Tally(0.0, 0.0, 0.0, 0.0).Plus(Tally(e.amount, f.delivery, f.cod, f.weight));
  }

  /** An Inside parcel of 3 kg collecting 1000: delivery 60, COD 0, weight 20, net 920. */
  lemma InsideParcelExample()
    ensures SummaryOf(ExampleShop(), ExampleAreas(), [ExampleEntry("a1", 3.0, 1000.0)]).netAmount == 920.0
  {
    var m, areas := ExampleShop(), ExampleAreas();
    var e := ExampleEntry("a1", 3.0, 1000.0);
    assert ResolveSite(areas, "a1") == Inside;
    assert EntryFees(m.charges, areas, e) == Fees(60.0, 0.0, 20.0);
    SingleEntrySummary(m, areas, e);
  }

  /** A parcel whose area is gone is billed Outside: 500 collected at 0.5 kg nets 345. */
  lemma DanglingAreaExample()
    ensures SummaryOf(ExampleShop(), ExampleAreas(), [ExampleEntry("a9", 0.5, 500.0)]).netAmount == 345.0
  {
    var m, areas := ExampleShop(), ExampleAreas();
    var e := ExampleEntry("a9", 0.5, 500.0);
    assert "a1"[1] != "a9"[1];
    assert ResolveSite(areas, "a9") == Outside;
    assert EntryFees(m.charges, areas, e) == Fees(150.0, 5.0, 0.0);
    SingleEntrySummary(m, areas, e);
  }

  /** Nets of -50 and +200 give 150: a negative net is carried, not floored at zero. */
  lemma NegativeNetCarriedExample()
    ensures SummaryOf(ExampleShop(), ExampleAreas(), [ExampleEntry("a1", 1.0, 10.0)]).netAmount == -50.0
    ensures SummaryOf(ExampleShop(), ExampleAreas(),
                      [ExampleEntry("a1", 1.0, 10.0)] + [ExampleEntry("a1", 1.0, 260.0)]).netAmount == 150.0
  {
    var m, areas := ExampleShop(), ExampleAreas();
    var a, b := ExampleEntry("a1", 1.0, 10.0), ExampleEntry("a1", 1.0, 260.0);
    assert ResolveSite(areas, "a1") == Inside;
    assert EntryFees(m.charges, areas, a) == Fees(60.0, 0.0, 0.0);
    assert EntryFees(m.charges, areas, b) == Fees(60.0, 0.0, 0.0);
    SingleEntrySummary(m, areas, a);
    SingleEntrySummary(m, areas, b);
    NetAmountAdditive(m, areas, [a], [b]);
  }
}
