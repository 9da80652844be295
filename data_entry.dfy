/**
 * The Parcel Intake screen (views/DataEntry.tsx): the entry form, creating and editing entries,
 * invoice numbering, deleting, area detection on the address and the search box.
 */
module DataEntry {
  import opened Wrappers
  import opened Types
  import opened Listing
  import opened Text
  import App

  /** `Partial<ParcelEntry>`: the form state; a field never filled in is absent. */
  datatype EntryForm = EntryForm(
    id: Option<string>,
    date: Option<string>,
    merchantId: Option<string>,
    invoiceNumber: Option<string>,
    merchantInvoice: Option<string>,
    customerName: Option<string>,
    phone: Option<string>,
    address: Option<string>,
    areaId: Option<string>,
    weight: Option<real>,
    amount: Option<real>,
    isAiDetected: Option<bool>)

  /** `{}`: the form with nothing in it. */
  function BlankForm(): EntryForm {
    EntryForm(None, None, None, None, None, None, None, None, None, None, None, None)
  }

  /** The form on opening the screen and after a submit: today's date, 1 kg, amount 0, not detected. */
  function FreshForm(today: string): (f: EntryForm)
    ensures f.weight == Some(1.0) && f.amount == Some(0.0) && f.isAiDetected == Some(false)
    ensures f.date == Some(today) && !Present(f.merchantId) && !Present(f.areaId)
  {
    BlankForm().(date := Some(today), weight := Some(1.0), amount := Some(0.0), isAiDetected := Some(false))
  }

  /** `setFormData(e)`: the form loaded with an entry for editing. */
  function FormOf(e: ParcelEntry): EntryForm {
    EntryForm(Some(e.id), Some(e.date), Some(e.merchantId), Some(e.invoiceNumber), Some(e.merchantInvoice),
              Some(e.customerName), Some(e.phone), Some(e.address), Some(e.areaId), Some(e.weight),
              Some(e.amount), Some(e.isAiDetected))
  }

  /**
   * What a submit needs: the address, whose `required` textarea shows the form's address and
   * so stops the browser from submitting without one, and the four fields `handleSubmit`
   * checks itself (merchant, customer name, phone and area).
   */
  predicate CanSubmit(f: EntryForm) {
    Present(f.address) &&
    Present(f.merchantId) && Present(f.customerName) && Present(f.phone) && Present(f.areaId)
  }

  /**
   * `{ ...formData, id, invoiceNumber } as ParcelEntry`: an absent text field is stored as "",
   * an absent number as 0, an absent flag as false.
   */
  function ToEntry(f: EntryForm, id: string, invoiceNumber: string): ParcelEntry {
    ParcelEntry(id, f.date.GetOr(""), f.merchantId.GetOr(""), invoiceNumber, f.merchantInvoice.GetOr(""),
                f.customerName.GetOr(""), f.phone.GetOr(""), f.address.GetOr(""), f.areaId.GetOr(""),
                f.weight.GetOr(0.0), f.amount.GetOr(0.0), f.isAiDetected.GetOr(false))
  }

  /** `{ ...formData, id: e.id }`: the edited record keeps the old id and the form's invoice number. */
  function EditedEntry(f: EntryForm, id: string): ParcelEntry {
    ToEntry(f, id, f.invoiceNumber.GetOr(""))
  }

  /** Loading an entry into the form and saving it unchanged gives back the same entry. */
  lemma EditedEntryOfFormOf(e: ParcelEntry)
    ensures EditedEntry(FormOf(e), e.id) == e
  {
  }

  /** `Math.floor(100000 + r * 900000)` for a random `r` in [0, 1): a six-digit number. */
  function InvoiceSuffix(r: real): (n: int)
    requires 0.0 <= r < 1.0
    ensures 100000 <= n <= 999999
  {
    (100000.0 + r * 900000.0).Floor
  }

  /** The invoice number "RP" followed by the six digits of the suffix, which read back as the suffix. */
  function InvoiceNumber(r: real): (s: string)
    requires 0.0 <= r < 1.0
    ensures |s| == 8 && s[..2] == "RP"
    ensures forall i :: 2 <= i < 8 ==> '0' <= s[i] <= '9'
    ensures ParseDecimal(s[2..]) == InvoiceSuffix(r)
  {
    var n := InvoiceSuffix(r);
    assert Pow10(5) == 100000 && Pow10(6) == 1000000;
    DecimalLength(n, 6);
    ParseDecimalInvertsDecimal(n);
    assert ("RP" + Decimal(n))[2..] == Decimal(n);
    "RP" + Decimal(n)
  }

  /** Nothing keeps invoice numbers apart: two different random draws can give the same number. */
  lemma InvoiceNumbersCanCollide()
    ensures InvoiceNumber(0.0) == InvoiceNumber(0.000001)
  {
    assert InvoiceSuffix(0.0) == InvoiceSuffix(0.000001) == 100000;
  }

  /** `P-${Date.now()}`. */
  function EntryIdAt(now: nat): string {
    "P-" + Decimal(now)
  }

  /**
   * What submit does to the entry list: nothing when a required field is missing; with an
   * entry being edited, every entry with that id replaced by the form under the old id;
   * otherwise one new entry appended with a fresh id and a random invoice number.
   */
  function SubmitEntries(entries: seq<ParcelEntry>, f: EntryForm, editingId: Option<string>, now: nat, r: real)
    : (result: seq<ParcelEntry>)
    requires 0.0 <= r < 1.0
    ensures !CanSubmit(f) ==> result == entries
    ensures CanSubmit(f) && Present(editingId) ==>
      |result| == |entries| &&
      forall i :: 0 <= i < |entries| ==>
        result[i].id == entries[i].id &&
        result[i] == if entries[i].id == editingId.value then EditedEntry(f, entries[i].id) else entries[i]
    ensures CanSubmit(f) && !Present(editingId) ==>
      |result| == |entries| + 1 && result[..|entries|] == entries &&
      result[|entries|] == ToEntry(f, EntryIdAt(now), InvoiceNumber(r))
  {
    if !CanSubmit(f) then entries
    else if Present(editingId) then Replace(entries, EntryId, editingId.value, EditedEntry(f, editingId.value))
    else entries + [ToEntry(f, EntryIdAt(now), InvoiceNumber(r))]
  }

  /** Editing an entry and saving it without a change leaves the list as it was. */
  lemma UnchangedEditIsIdentity(entries: seq<ParcelEntry>, e: ParcelEntry, now: nat, r: real)
    requires 0.0 <= r < 1.0
    requires e.id != "" && CanSubmit(FormOf(e))
    requires forall i :: 0 <= i < |entries| && entries[i].id == e.id ==> entries[i] == e
    ensures SubmitEntries(entries, FormOf(e), Some(e.id), now, r) == entries
  {
    EditedEntryOfFormOf(e);
  }

  /** A created entry whose id is new can be deleted again, which restores the list. */
  lemma CreateThenDeleteRestores(entries: seq<ParcelEntry>, f: EntryForm, now: nat, r: real)
    requires 0.0 <= r < 1.0
    requires CanSubmit(f)
    requires forall i :: 0 <= i < |entries| ==> entries[i].id != EntryIdAt(now)
    ensures Remove(SubmitEntries(entries, f, None, now, r), EntryId, EntryIdAt(now)) == entries
  {
    AppendThenRemove(entries, EntryId, ToEntry(f, EntryIdAt(now), InvoiceNumber(r)));
  }

  /** The blur's test before it asks the service: an address is typed and no area is chosen yet. */
  predicate StartsDetection(f: EntryForm) {
    Present(f.address) && !Present(f.areaId)
  }

  /**
   * What the service's answer does to the form as it is when the answer arrives: an id sets
   * the area and marks it detected, whatever the form holds by then; no id changes nothing.
   */
  function ApplyDetection(f: EntryForm, detected: Option<string>): (g: EntryForm)
    ensures Present(detected) ==> g.areaId == detected && g.isAiDetected == Some(true)
    ensures !Present(detected) ==> g == f
    ensures g.(areaId := f.areaId, isAiDetected := f.isAiDetected) == f
  {
    if Present(detected) then f.(areaId := detected, isAiDetected := Some(true)) else f
  }

  /**
   * On leaving the address field, detection runs only when an address is typed and no area is
   * chosen yet; it fills in the area and marks it detected only when an id comes back. No
   * other input is made while the service answers.
   */
  function AfterAddressBlur(f: EntryForm, detected: Option<string>): (g: EntryForm)
    ensures Present(f.areaId) || !Present(f.address) || !Present(detected) ==> g == f
    ensures Present(f.address) && !Present(f.areaId) && Present(detected) ==>
      g == f.(areaId := detected, isAiDetected := Some(true))
  {
    if StartsDetection(f) then ApplyDetection(f, detected) else f
  }

  /** Picking an area by hand: the area is set and the detected mark cleared. */
  function ChooseArea(f: EntryForm, areaId: string): (g: EntryForm)
    ensures g.areaId == Some(areaId) && g.isAiDetected == Some(false)
    ensures g.(areaId := f.areaId, isAiDetected := f.isAiDetected) == f
  {
    f.(areaId := Some(areaId), isAiDetected := Some(false))
  }

  /** A chosen area is never overridden by a later blur, and it stays marked as chosen by hand. */
  lemma ManualAreaWins(f: EntryForm, areaId: string, detected: Option<string>)
    requires areaId != ""
    ensures AfterAddressBlur(ChooseArea(f, areaId), detected) == ChooseArea(f, areaId)
    ensures ChooseArea(f, areaId).isAiDetected == Some(false)
  {
  }

  /**
   * The blur tests the form before the service call and applies the answer without testing
   * again: an area chosen by hand while the call is pending is replaced by the detected one
   * and marked detected.
   */
  lemma LateAnswerOverridesManualChoice(f: EntryForm, areaId: string, detected: Option<string>)
    requires StartsDetection(f) && areaId != "" && Present(detected) && detected != Some(areaId)
    ensures !StartsDetection(ChooseArea(f, areaId))
    ensures ApplyDetection(ChooseArea(f, areaId), detected).areaId != Some(areaId)
    ensures ApplyDetection(ChooseArea(f, areaId), detected).isAiDetected == Some(true)
  {
  }

  /** The search box's test: name or invoice number contain the term ignoring case, or the phone contains it. */
  function Matches(term: string): ParcelEntry -> bool {
    (e: ParcelEntry) =>
      Includes(Lower(e.customerName), Lower(term)) || Includes(e.phone, term) ||
      Includes(Lower(e.invoiceNumber), Lower(term))
  }

  /** `filteredEntries`. */
  function SearchEntries(entries: seq<ParcelEntry>, term: string): seq<ParcelEntry> {
    Filter(entries, Matches(term))
  }

  /** Search keeps exactly the matching entries, in their original order. */
  lemma SearchKeepsMatchesInOrder(entries: seq<ParcelEntry>, term: string)
    ensures forall i :: 0 <= i < |SearchEntries(entries, term)| ==>
      Matches(term)(SearchEntries(entries, term)[i]) && SearchEntries(entries, term)[i] in entries
    ensures forall i :: 0 <= i < |entries| && Matches(term)(entries[i]) ==> entries[i] in SearchEntries(entries, term)
    ensures forall e :: multiset(SearchEntries(entries, term))[e] == if Matches(term)(e) then multiset(entries)[e] else 0
    ensures Subsequence(SearchEntries(entries, term), entries)
  {
    FilterIsSubsequence(entries, Matches(term));
    FilterCounts(entries, Matches(term));
  }

  /** An empty search box shows every entry. */
  lemma EmptySearchKeepsAll(entries: seq<ParcelEntry>)
    ensures SearchEntries(entries, "") == entries
  {
    forall i | 0 <= i < |entries|
      ensures Matches("")(entries[i])
    {
      IncludesEmpty(Lower(entries[i].customerName));
    }
    FilterKeepsAll(entries, Matches(""));
  }

  /**
   * As written, Cancel clears the form to `{}`. Filling in only the required fields then passes
   * the guard with no amount and no weight, so the saved entry has neither.
   */
  lemma CancelledFormLacksAmount(merchantId: string, customerName: string, phone: string, address: string,
                                  areaId: string)
    requires merchantId != "" && customerName != "" && phone != "" && address != "" && areaId != ""
    ensures var f := BlankForm().(merchantId := Some(merchantId), customerName := Some(customerName),
                                  phone := Some(phone), address := Some(address), areaId := Some(areaId));
      CanSubmit(f) && f.amount.None? && f.weight.None?
  {
  }

  /** The screen's own state: the form and the id of the entry being edited. */
  class Screen {
    var form: EntryForm
    var editingId: Option<string>

    /** Amount and weight are always in the form, so a saved entry always carries both. */
    ghost predicate Valid()
      reads this
    {
      form.weight.Some? && form.amount.Some?
    }

    constructor (today: string)
      ensures Valid() && form == FreshForm(today) && editingId == None
    {
      form := FreshForm(today);
      editingId := None;
    }

    /** `handleSubmit`; `now` stands for `Date.now()` and `r` for `Math.random()`. */
    method Submit(store: App.Store, today: string, now: nat, r: real) returns (accepted: bool)
      requires Valid() && 0.0 <= r < 1.0
      modifies this, store
      ensures Valid()
      ensures accepted == CanSubmit(old(form))
      ensures store.state
           == old(store.state).(entries := SubmitEntries(old(store.state.entries), old(form), old(editingId), now, r))
      ensures accepted ==> form == FreshForm(today)
      ensures accepted ==> editingId == if Present(old(editingId)) then None else old(editingId)
      ensures !accepted ==> form == old(form) && editingId == old(editingId)
    {
      if !CanSubmit(form) {
        accepted := false;
        return;
      }
      accepted := true;
      if Present(editingId) {
        var id := editingId.value;
        store.UpdateState(App.EntriesUpdate(Replace(store.state.entries, EntryId, id, EditedEntry(form, id))));
        editingId := None;
      } else {
        var newEntry := ToEntry(form, EntryIdAt(now), InvoiceNumber(r));
        store.UpdateState(App.EntriesUpdate(store.state.entries + [newEntry]));
      }
      form := FreshForm(today);
    }

    /** `handleDelete`: after the confirmation, every entry with that id goes. */
    method Delete(store: App.Store, id: string, confirmed: bool)
      modifies store
      ensures store.state == old(store.state).(entries := if confirmed then Remove(old(store.state.entries), EntryId, id)
                                                          else old(store.state.entries))
    {
      if confirmed {
        store.UpdateState(App.EntriesUpdate(Remove(store.state.entries, EntryId, id)));
      }
    }

    /** The edit button: load the entry into the form. */
    method Edit(e: ParcelEntry)
      modifies this
      ensures Valid() && form == FormOf(e) && editingId == Some(e.id)
    {
      form := FormOf(e);
      editingId := Some(e.id);
    }

    /** The cancel button: stop editing and start a fresh form. */
    method Cancel(today: string)
      modifies this
      ensures Valid() && form == FreshForm(today) && editingId == None
    {
      editingId := None;
      form := FreshForm(today);
    }

    /** `handleAddressBlur`; `detected` stands for the answer of the address-matching service. */
    method BlurAddress(detected: Option<string>)
      requires Valid()
      modifies this
      ensures Valid() && form == AfterAddressBlur(old(form), detected) && editingId == old(editingId)
    {
      if !StartsDetection(form) {
        return;
      }
      if Present(detected) {
        form := form.(areaId := detected, isAiDetected := Some(true));
      }
    }

    /** The area select. */
    method SelectArea(areaId: string)
      requires Valid()
      modifies this
      ensures Valid() && form == ChooseArea(old(form), areaId) && editingId == old(editingId)
    {
      form := form.(areaId := Some(areaId), isAiDetected := Some(false));
    }
  }
}
