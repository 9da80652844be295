/**
 * The Merchant Management screen (views/MerchantEntry.tsx): the merchant form with its rate
 * card, creating and editing merchants, per-cell rate edits, deleting and the search box.
 */
module MerchantEntry {
  import opened Wrappers
  import opened Types
  import opened Listing
  import opened Text
  import App

  /** `Partial<Merchant>`: the form state; a field never filled in is absent. */
  datatype MerchantForm = MerchantForm(
    id: Option<string>,
    name: Option<string>,
    pageName: Option<string>,
    pageLink: Option<string>,
    phone: Option<string>,
    address: Option<string>,
    charges: Option<RateCard>)

  /** The form on opening the screen and after a submit: only the default rate card. */
  function DefaultForm(): MerchantForm {
    MerchantForm(None, None, None, None, None, None, Some(DefaultCharges()))
  }

  /** `{}`: the form with nothing in it, not even a rate card. */
  function BlankForm(): MerchantForm {
    MerchantForm(None, None, None, None, None, None, None)
  }

  /** `setFormData(m)`: the form loaded with a merchant for editing. */
  function FormOf(m: Merchant): MerchantForm {
    MerchantForm(Some(m.id), Some(m.name), Some(m.pageName), Some(m.pageLink), Some(m.phone), Some(m.address),
                 Some(m.charges))
  }

  /** The guard of submit: name, page name and phone are filled in; the rate card is not checked. */
  predicate CanSubmit(f: MerchantForm) {
    Present(f.name) && Present(f.pageName) && Present(f.phone)
  }

  /** `{ ...formData, id } as Merchant`, for a form that carries a rate card. */
  function ToMerchant(f: MerchantForm, id: string): Merchant
    requires f.charges.Some?
  {
    Merchant(id, f.name.GetOr(""), f.pageName.GetOr(""), f.pageLink.GetOr(""), f.phone.GetOr(""),
             f.address.GetOr(""), f.charges.value)
  }

  /** Loading a merchant into the form and saving it unchanged gives back the same merchant. */
  lemma ToMerchantOfFormOf(m: Merchant)
    ensures ToMerchant(FormOf(m), m.id) == m
  {
  }

  /** `M-${Date.now()}`. */
  function MerchantIdAt(now: nat): string {
    "M-" + Decimal(now)
  }

  /**
   * What submit does to the merchant list: nothing unless the guard holds; with a merchant
   * being edited, every merchant with that id replaced by the form under the old id;
   * otherwise one new merchant appended.
   */
  function SubmitMerchants(merchants: seq<Merchant>, f: MerchantForm, editingId: Option<string>, now: nat)
    : (result: seq<Merchant>)
    requires f.charges.Some?
    ensures !CanSubmit(f) ==> result == merchants
    ensures CanSubmit(f) && Present(editingId) ==>
      |result| == |merchants| &&
      forall i :: 0 <= i < |merchants| ==>
        result[i].id == merchants[i].id &&
        result[i] == if merchants[i].id == editingId.value then ToMerchant(f, merchants[i].id) else merchants[i]
    ensures CanSubmit(f) && !Present(editingId) ==>
      |result| == |merchants| + 1 && result[..|merchants|] == merchants &&
      result[|merchants|] == ToMerchant(f, MerchantIdAt(now))
  {
    if !CanSubmit(f) then merchants
    else if Present(editingId) then Replace(merchants, MerchantId, editingId.value, ToMerchant(f, editingId.value))
    else merchants + [ToMerchant(f, MerchantIdAt(now))]
  }

  /** A rate input: only the cell (`kind`, `site`) of the form's rate card changes. */
  function SetRate(f: MerchantForm, kind: ChargeKind, site: SiteType, v: real): (g: MerchantForm)
    requires f.charges.Some?
    ensures g.charges.Some? && g == f.(charges := g.charges)
    ensures forall k, s :: g.charges.value.Rate(k, s) == if k == kind && s == site then v else f.charges.value.Rate(k, s)
  {
    f.(charges := Some(f.charges.value.WithRate(kind, site, v)))
  }

  /** Setting a cell and reading it back gives the value; setting it twice keeps the later value. */
  lemma SetRateTwice(f: MerchantForm, kind: ChargeKind, site: SiteType, v: real, w: real)
    requires f.charges.Some?
    ensures SetRate(SetRate(f, kind, site, v), kind, site, w).charges.value.Rate(kind, site) == w
    ensures forall k, s :: SetRate(SetRate(f, kind, site, v), kind, site, w).charges.value.Rate(k, s)
                        == SetRate(f, kind, site, w).charges.value.Rate(k, s)
  {
  }

  /** The search box's test: the name contains the term ignoring case, or the phone contains it. */
  function Matches(term: string): Merchant -> bool {
    (m: Merchant) => Includes(Lower(m.name), Lower(term)) || Includes(m.phone, term)
  }

  /** `filteredMerchants`. */
  function SearchMerchants(merchants: seq<Merchant>, term: string): seq<Merchant> {
    Filter(merchants, Matches(term))
  }

  /** Search keeps exactly the matching merchants, in order; an empty term keeps them all. */
  lemma SearchMerchantsKeepsMatches(merchants: seq<Merchant>, term: string)
    ensures forall i :: 0 <= i < |SearchMerchants(merchants, term)| ==>
      Matches(term)(SearchMerchants(merchants, term)[i]) && SearchMerchants(merchants, term)[i] in merchants
    ensures forall i :: 0 <= i < |merchants| && Matches(term)(merchants[i]) ==> merchants[i] in SearchMerchants(merchants, term)
    ensures forall m :: multiset(SearchMerchants(merchants, term))[m] == if Matches(term)(m) then multiset(merchants)[m] else 0
    ensures Subsequence(SearchMerchants(merchants, term), merchants)
    ensures term == "" ==> SearchMerchants(merchants, term) == merchants
  {
    FilterIsSubsequence(merchants, Matches(term));
    FilterCounts(merchants, Matches(term));
    if term == "" {
      forall i | 0 <= i < |merchants|
        ensures Matches("")(merchants[i])
      {
        IncludesEmpty(Lower(merchants[i].name));
      }
      FilterKeepsAll(merchants, Matches(""));
    }
  }

  /**
   * As written, Cancel clears the form to `{}`. Filling in the three required fields then
   * passes the guard although the form holds no rate card.
   */
  lemma CancelledFormLacksRateCard(name: string, pageName: string, phone: string)
    requires name != "" && pageName != "" && phone != ""
    ensures var f := BlankForm().(name := Some(name), pageName := Some(pageName), phone := Some(phone));
      CanSubmit(f) && f.charges.None?
  {
  }

  /** The screen's own state: the form and the id of the merchant being edited. */
  class Screen {
    var form: MerchantForm
    var editingId: Option<string>

    /** The form always holds a rate card, so every saved merchant has one. */
    ghost predicate Valid()
      reads this
    {
      form.charges.Some?
    }

    constructor ()
      ensures Valid() && form == DefaultForm() && editingId == None
    {
      form := DefaultForm();
      editingId := None;
    }

    /** `handleSubmit`; `now` stands for `Date.now()`. */
    method Submit(store: App.Store, now: nat) returns (accepted: bool)
      requires Valid()
      modifies this, store
      ensures Valid()
      ensures accepted == CanSubmit(old(form))
      ensures store.state == old(store.state).(merchants := SubmitMerchants(old(store.state.merchants), old(form), old(editingId), now))
      ensures accepted ==> form == DefaultForm()
      ensures accepted ==> editingId == if Present(old(editingId)) then None else old(editingId)
      ensures !accepted ==> form == old(form) && editingId == old(editingId)
    {
      if !CanSubmit(form) {
        accepted := false;
        return;
      }
      accepted := true;
      if Present(editingId) {
        var id := editingId.value;
        store.UpdateState(App.MerchantsUpdate(Replace(store.state.merchants, MerchantId, id, ToMerchant(form, id))));
        editingId := None;
      } else {
        var newMerchant := ToMerchant(form, MerchantIdAt(now));
        store.UpdateState(App.MerchantsUpdate(store.state.merchants + [newMerchant]));
      }
      form := DefaultForm();
    }

    /** `handleEdit`. */
    method Edit(m: Merchant)
      modifies this
      ensures Valid() && form == FormOf(m) && editingId == Some(m.id)
    {
      form := FormOf(m);
      editingId := Some(m.id);
    }

    /** `handleDelete`: after the confirmation the merchants with that id go; entries are untouched. */
    method Delete(store: App.Store, id: string, confirmed: bool)
      modifies store
      ensures store.state == old(store.state).(merchants := if confirmed then Remove(old(store.state.merchants), MerchantId, id)
                                                            else old(store.state.merchants))
    {
      if confirmed {
        store.UpdateState(App.MerchantsUpdate(Remove(store.state.merchants, MerchantId, id)));
      }
    }

    /** One of the nine rate inputs. */
    method EditRate(kind: ChargeKind, site: SiteType, v: real)
      requires Valid()
      modifies this
      ensures Valid() && form == SetRate(old(form), kind, site, v) && editingId == old(editingId)
    {
      form := form.(charges := Some(form.charges.value.WithRate(kind, site, v)));
    }

    /** The cancel button: stop editing and start from the default form. */
    method Cancel()
      modifies this
      ensures Valid() && form == DefaultForm() && editingId == None
    {
      editingId := None;
      form := DefaultForm();
    }
  }
}
