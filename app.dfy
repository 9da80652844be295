/**
 * The application shell (App.tsx): the seed state, the single state slot that screens update
 * by merging a partial state into it, and the lookups behind the print overlay.
 */
module App {
  import opened Wrappers
  import opened Types
  import opened Listing

  /** `Partial<AppState>`: the lists an update replaces. */
  datatype StateUpdate = StateUpdate(
    merchants: Option<seq<Merchant>>,
    areas: Option<seq<Area>>,
    entries: Option<seq<ParcelEntry>>)
  {
    /** Applying `this` and then `later` in one step: a list in `later` wins. */
    function Then(later: StateUpdate): StateUpdate {
      StateUpdate(
        if later.merchants.Some? then later.merchants else merchants,
        if later.areas.Some? then later.areas else areas,
        if later.entries.Some? then later.entries else entries)
    }
  }

  /** `{ ...prev, ...update }`. */
  function Merge(state: AppState, update: StateUpdate): AppState {
    AppState(update.merchants.GetOr(state.merchants), update.areas.GetOr(state.areas),
             update.entries.GetOr(state.entries))
  }

  /** A list the update names is replaced; a list it leaves out keeps its value. */
  lemma MergeReplacesOnlyPresent(state: AppState, update: StateUpdate)
    ensures var r := Merge(state, update);
      (r.merchants == if update.merchants.Some? then update.merchants.value else state.merchants) &&
      (r.areas == if update.areas.Some? then update.areas.value else state.areas) &&
      (r.entries == if update.entries.Some? then update.entries.value else state.entries)
  {
  }

  /** Two merges in a row are one merge of the combined update; merging nothing changes nothing. */
  lemma MergeComposes(state: AppState, first: StateUpdate, second: StateUpdate)
    ensures Merge(Merge(state, first), second) == Merge(state, first.Then(second))
    ensures Merge(state, StateUpdate(None, None, None)) == state
  {
  }

  function EntriesUpdate(entries: seq<ParcelEntry>): StateUpdate {
    StateUpdate(None, None, Some(entries))
  }

  function MerchantsUpdate(merchants: seq<Merchant>): StateUpdate {
    StateUpdate(Some(merchants), None, None)
  }

  function AreasUpdate(areas: seq<Area>): StateUpdate {
    StateUpdate(None, Some(areas), None)
  }

  /** The state of a first start: no merchants, no entries, four seed areas a1-a4. */
  function InitialState(): (s: AppState)
    ensures s.merchants == [] && s.entries == [] && |s.areas| == 4
    ensures s.areas[0].id == "a1" && s.areas[0].site == Some(Inside)
    ensures s.areas[1].id == "a2" && s.areas[1].site == Some(Inside)
    ensures s.areas[2].id == "a3" && s.areas[2].site == Some(Sub)
    ensures s.areas[3].id == "a4" && s.areas[3].site == Some(Outside)
  {
    AppState([], [
      Area("a1", Some(Inside), "Dhaka", "Uttara", "1230", true),
      Area("a2", Some(Inside), "Dhaka", "Mirpur", "1216", true),
      Area("a3", Some(Sub), "Dhaka", "Savar", "1340", true),
      Area("a4", Some(Outside), "Chattogram", "Agrabad", "4100", true)
    ], [])
  }

  /** The one state slot every screen reads and updates. */
  class Store {
    var state: AppState

    /** A start with nothing saved. */
    constructor ()
      ensures state == InitialState()
    {
      state := InitialState();
    }

    /** `updateState`: merge a partial state into the slot. */
    method UpdateState(update: StateUpdate)
      modifies this
      ensures state == Merge(old(state), update)
    {
      state := Merge(state, update);
    }
  }

  datatype PrintLayout = Pos | Standard

  /** The print modal: which parcel, which layout, which roll size. */
  datatype PrintConfig = PrintConfig(parcelId: string, layout: PrintLayout, posSize: Option<string>)

  /** What the print overlay renders. */
  datatype PrintJob = PrintJob(parcel: ParcelEntry, merchant: Merchant, area: Area)

  /**
   * The print overlay's data: the first entry with the modal's parcel id, then the first
   * merchant and the first area with that entry's ids; nothing unless all three are found.
   */
  function PrintTarget(state: AppState, modal: Option<PrintConfig>): (r: Option<PrintJob>)
    ensures modal.None? ==> r.None?
    ensures r.Some? ==>
      r.value.parcel.id == modal.value.parcelId && r.value.parcel in state.entries &&
      r.value.merchant.id == r.value.parcel.merchantId && r.value.merchant in state.merchants &&
      r.value.area.id == r.value.parcel.areaId && r.value.area in state.areas
    ensures forall i :: (modal.Some? && 0 <= i < |state.entries| && state.entries[i].id == modal.value.parcelId &&
                         forall j :: 0 <= j < i ==> state.entries[j].id != modal.value.parcelId)
              ==> (r.Some? <==>
                    (exists k :: 0 <= k < |state.merchants| && state.merchants[k].id == state.entries[i].merchantId) &&
                    (exists k :: 0 <= k < |state.areas| && state.areas[k].id == state.entries[i].areaId)) &&
                  (r.Some? ==>
                    r.value.parcel == state.entries[i] &&
                    Some(r.value.merchant) == Lookup(state.merchants, MerchantId, state.entries[i].merchantId) &&
                    Some(r.value.area) == Lookup(state.areas, AreaId, state.entries[i].areaId))
    ensures (modal.Some? && forall i :: 0 <= i < |state.entries| ==> state.entries[i].id != modal.value.parcelId)
              ==> r.None?
  {
    if modal.None? then None
    else match Lookup(state.entries, EntryId, modal.value.parcelId)
      case None => None
      case Some(parcel) =>
        match (Lookup(state.merchants, MerchantId, parcel.merchantId), Lookup(state.areas, AreaId, parcel.areaId))
        case (Some(m), Some(a)) => Some(PrintJob(parcel, m, a))
        case _ => None
  }
}
