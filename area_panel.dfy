/**
 * The Area Management screen (views/AreaPanel.tsx): the area form, creating and editing
 * areas, deleting and the search box.
 */
module AreaPanel {
  import opened Wrappers
  import opened Types
  import opened Listing
  import opened Text
  import App

  /** `Partial<Area>`: the form state; a field never filled in is absent. */
  datatype AreaForm = AreaForm(
    id: Option<string>,
    site: Option<SiteType>,
    district: Option<string>,
    areaName: Option<string>,
    postCode: Option<string>,
    homeDelivery: Option<bool>)

  /** The form on opening the screen and after a submit: Inside, with home delivery. */
  function InitialForm(): (f: AreaForm)
    ensures f.site == Some(Inside) && f.homeDelivery == Some(true)
    ensures !Present(f.district) && !Present(f.areaName)
  {
    AreaForm(None, Some(Inside), None, None, None, Some(true))
  }

  /** `{}`: what Cancel leaves in the form, with no site at all. */
  function BlankForm(): AreaForm {
    AreaForm(None, None, None, None, None, None)
  }

  /** `setFormData(a)`: the form loaded with an area for editing. */
  function FormOf(a: Area): AreaForm {
    AreaForm(Some(a.id), a.site, Some(a.district), Some(a.areaName), Some(a.postCode), Some(a.homeDelivery))
  }

  /** The guard of submit: district and area name are filled in. */
  predicate CanSubmit(f: AreaForm) {
    Present(f.district) && Present(f.areaName)
  }

  /** `{ ...formData, id } as Area`: the site stays absent if the form has none. */
  function ToArea(f: AreaForm, id: string): Area {
    Area(id, f.site, f.district.GetOr(""), f.areaName.GetOr(""), f.postCode.GetOr(""), f.homeDelivery.GetOr(false))
  }

  /** Loading an area into the form and saving it unchanged gives back the same area. */
  lemma ToAreaOfFormOf(a: Area)
    ensures ToArea(FormOf(a), a.id) == a
  {
  }

  /** `A-${Date.now()}`. */
  function AreaIdAt(now: nat): string {
    "A-" + Decimal(now)
  }

  /**
   * What submit does to the area list: nothing unless the guard holds; with an area being
   * edited, every area with that id replaced by the form under the old id; otherwise one new
   * area appended.
   */
  function SubmitAreas(areas: seq<Area>, f: AreaForm, editingId: Option<string>, now: nat): (result: seq<Area>)
    ensures !CanSubmit(f) ==> result == areas
    ensures CanSubmit(f) && Present(editingId) ==>
      |result| == |areas| &&
      forall i :: 0 <= i < |areas| ==>
        result[i].id == areas[i].id &&
        result[i] == if areas[i].id == editingId.value then ToArea(f, areas[i].id) else areas[i]
    ensures CanSubmit(f) && !Present(editingId) ==>
      |result| == |areas| + 1 && result[..|areas|] == areas && result[|areas|] == ToArea(f, AreaIdAt(now))
  {
    if !CanSubmit(f) then areas
    else if Present(editingId) then Replace(areas, AreaId, editingId.value, ToArea(f, editingId.value))
    else areas + [ToArea(f, AreaIdAt(now))]
  }

  /** The search box's test: area name or district contain the term, ignoring case. */
  function Matches(term: string): Area -> bool {
    (a: Area) => Includes(Lower(a.areaName), Lower(term)) || Includes(Lower(a.district), Lower(term))
  }

  /** `filteredAreas`. */
  function SearchAreas(areas: seq<Area>, term: string): seq<Area> {
    Filter(areas, Matches(term))
  }

  /** Search keeps exactly the matching areas, in order; an empty term keeps them all. */
  lemma SearchAreasKeepsMatches(areas: seq<Area>, term: string)
    ensures forall i :: 0 <= i < |SearchAreas(areas, term)| ==>
      Matches(term)(SearchAreas(areas, term)[i]) && SearchAreas(areas, term)[i] in areas
    ensures forall i :: 0 <= i < |areas| && Matches(term)(areas[i]) ==> areas[i] in SearchAreas(areas, term)
    ensures forall a :: multiset(SearchAreas(areas, term))[a] == if Matches(term)(a) then multiset(areas)[a] else 0
    ensures Subsequence(SearchAreas(areas, term), areas)
    ensures term == "" ==> SearchAreas(areas, term) == areas
  {
    FilterIsSubsequence(areas, Matches(term));
    FilterCounts(areas, Matches(term));
    if term == "" {
      forall i | 0 <= i < |areas|
        ensures Matches("")(areas[i])
      {
        IncludesEmpty(Lower(areas[i].areaName));
      }
      FilterKeepsAll(areas, Matches(""));
    }
  }

  /** The screen's own state: the form and the id of the area being edited. */
  class Screen {
    var form: AreaForm
    var editingId: Option<string>

    constructor ()
      ensures form == InitialForm() && editingId == None
    {
      form := InitialForm();
      editingId := None;
    }

    /** `handleSubmit`; `now` stands for `Date.now()`. */
    method Submit(store: App.Store, now: nat) returns (accepted: bool)
      modifies this, store
      ensures accepted == CanSubmit(old(form))
      ensures store.state == old(store.state).(areas := SubmitAreas(old(store.state.areas), old(form), old(editingId), now))
      ensures accepted ==> form == InitialForm()
      ensures accepted ==> editingId == if Present(old(editingId)) then None else old(editingId)
      ensures !accepted ==> form == old(form) && editingId == old(editingId)
    {
      if !CanSubmit(form) {
        accepted := false;
        return;
      }
      accepted := true;
      if Present(editingId) {
        var id := editingId.value;
        store.UpdateState(App.AreasUpdate(Replace(store.state.areas, AreaId, id, ToArea(form, id))));
        editingId := None;
      } else {
        var newArea := ToArea(form, AreaIdAt(now));
        store.UpdateState(App.AreasUpdate(store.state.areas + [newArea]));
      }
      form := InitialForm();
    }

    /** The edit button of a row. */
    method Edit(a: Area)
      modifies this
      ensures form == FormOf(a) && editingId == Some(a.id)
    {
      editingId := Some(a.id);
      form := FormOf(a);
    }

    /** The delete button of a row: no confirmation; entries keep their area ids. */
    method Delete(store: App.Store, id: string)
      modifies store
      ensures store.state == old(store.state).(areas := Remove(old(store.state.areas), AreaId, id))
    {
      store.UpdateState(App.AreasUpdate(Remove(store.state.areas, AreaId, id)));
    }

    /** The site select. */
    method SelectSite(site: SiteType)
      modifies this
      ensures form == old(form).(site := Some(site)) && editingId == old(editingId)
    {
      form := form.(site := Some(site));
    }

    /** The cancel button: stop editing and clear the form to `{}`. */
    method Cancel()
      modifies this
      ensures form == BlankForm() && editingId == None
    {
      editingId := None;
      form := BlankForm();
    }
  }
}
