/**
 * The hotels view (src/components/Hotels/HotelsManagement.js): the search and city
 * filters, the sorted list of distinct cities, the hotel form, the create/edit modal,
 * deletion behind a confirmation, and the star rating.
 */
module Hotels {
  import opened Wrappers
  import opened Seqs
  import opened Text
  import opened Records
  import Api

  const LoadError: string := "Error loading hotels. Please try again."
  const UpdateSuccess: string := "Hotel updated successfully!"
  const CreateSuccess: string := "Hotel created successfully!"
  const SaveError: string := "Error saving hotel. Please try again."
  const DeleteSuccess: string := "Hotel deleted successfully!"
  const DeleteError: string := "Error deleting hotel. Please try again."

  /** A search matches a hotel whose name, city or address contains it, ignoring ASCII case. */
  predicate MatchesSearch(h: Hotel, needle: string)
  {
    Includes(ToLower(h.name), needle) || Includes(ToLower(h.city), needle) || Includes(ToLower(h.address), needle)
  }

  predicate Matches(h: Hotel, searchTerm: string, city: string)
  {
    MatchesSearch(h, ToLower(searchTerm)) && (city == "" || h.city == city)
  }

  /** The filter on the already lower-cased search term. */
  function Kept(needle: string, city: string): Hotel -> bool
  {
    h => MatchesSearch(h, needle) && (city == "" || h.city == city)
  }

  /** filteredHotels: the hotels the search and the city filter keep, in their original order. */
  function FilteredHotels(hotels: seq<Hotel>, searchTerm: string, city: string): (r: seq<Hotel>)
    ensures forall h :: h in r <==> h in hotels && Matches(h, searchTerm, city)
    ensures forall h :: multiset(r)[h] == if Matches(h, searchTerm, city) then multiset(hotels)[h] else 0
  {
    FilterMultiset(hotels, Kept(ToLower(searchTerm), city));
    Filter(hotels, Kept(ToLower(searchTerm), city))
  }

  /** The filtered list keeps the original order: it is a subsequence of the hotels. */
  lemma FilteredHotelsIsSubsequence(hotels: seq<Hotel>, searchTerm: string, city: string)
    ensures IsSubsequence(FilteredHotels(hotels, searchTerm, city), hotels)
  {
    FilterIsSubsequence(hotels, Kept(ToLower(searchTerm), city));
  }

  /** With no search term and no city every hotel is listed. */
  lemma NoFilterKeepsAll(hotels: seq<Hotel>)
    ensures FilteredHotels(hotels, "", "") == hotels
  {
    forall h | h in hotels ensures Kept(ToLower(""), "")(h) {
      assert OccursAt(ToLower(h.name), "", 0);
    }
    FilterKeepsAll(hotels, Kept(ToLower(""), ""));
  }

  /** The search ignores case: the term, its lower-case and its upper-case forms list the same hotels. */
  lemma SearchIgnoresCase(hotels: seq<Hotel>, searchTerm: string, city: string)
    ensures FilteredHotels(hotels, ToLower(searchTerm), city) == FilteredHotels(hotels, searchTerm, city)
    ensures FilteredHotels(hotels, ToUpper(searchTerm), city) == FilteredHotels(hotels, searchTerm, city)
  {
    ToLowerIdempotent(searchTerm);
    LowerOfUpper(searchTerm);
  }

  /** A chosen city keeps only hotels in that city. */
  lemma CityFilterKeepsCity(hotels: seq<Hotel>, searchTerm: string, city: string)
    requires city != ""
    ensures forall h :: h in FilteredHotels(hotels, searchTerm, city) ==> h.city == city
  {
  }

  function CityList(hotels: seq<Hotel>): (cs: seq<string>)
    ensures |cs| == |hotels|
    ensures forall i :: 0 <= i < |hotels| ==> cs[i] == hotels[i].city
  {
    seq(|hotels|, i requires 0 <= i < |hotels| => hotels[i].city)
  }

  /** cities: the distinct cities of the hotels, in ascending order. */
  function Cities(hotels: seq<Hotel>): (cs: seq<string>)
    ensures forall c :: c in cs <==> exists h :: h in hotels && h.city == c
    ensures StrictlyAscending(cs)
  {
    var all := CityList(hotels);
    assert forall c :: c in all <==> exists h :: h in hotels && h.city == c by {
      forall c ensures c in all <==> exists h :: h in hotels && h.city == c {
        if c in all {
          var i :| 0 <= i < |all| && all[i] == c;
          assert hotels[i] in hotels;
        }
        if exists h :: h in hotels && h.city == c {
          var h :| h in hotels && h.city == c;
          var i :| 0 <= i < |hotels| && hotels[i] == h;
          assert all[i] == c;
        }
      }
    }
    SortDistinct(Dedupe(all))
  }

  /** Each city the city menu offers lists at least one hotel while the search is empty. */
  lemma EveryCityListsAHotel(hotels: seq<Hotel>, city: string)
    requires city in Cities(hotels)
    ensures FilteredHotels(hotels, "", city) != []
  {
    var h :| h in hotels && h.city == city;
    assert OccursAt(ToLower(h.name), "", 0);
    assert h in FilteredHotels(hotels, "", city);
  }

  /** A form field holds the text an input produced, or the numeric rating a form starts with. */
  datatype FieldValue = Str(text: string) | Num(number: real)

  type Form = map<string, FieldValue>

  const FieldNames: set<string> :=
    {"name", "description", "address", "city", "state", "country", "postalCode", "phone", "email", "rating"}

  /** The form's fields are the ten hotel fields. */
  predicate HasHotelFields(form: Form)
  {
    form.Keys == FieldNames
  }

  /** The blank form: nine empty strings and a rating of 0. */
  const EmptyForm: Form := map[
    "name" := Str(""), "description" := Str(""), "address" := Str(""), "city" := Str(""),
    "state" := Str(""), "country" := Str(""), "postalCode" := Str(""), "phone" := Str(""),
    "email" := Str(""), "rating" := Num(0.0)]

  /** handleEdit's form: the hotel's fields, with a missing text field blank and a missing rating 0. */
  function FormFromHotel(h: Hotel): (form: Form)
    ensures HasHotelFields(form)
    ensures form["name"] == Str(h.name) && form["city"] == Str(h.city) && form["address"] == Str(h.address)
    ensures forall k :: k in form && k != "rating" ==> form[k].Str?
    ensures form["rating"] == Num(if h.rating.Some? then h.rating.value else 0.0)
    ensures (&& h.description.None? && h.state.None? && h.country.None? && h.postalCode.None?
             && h.phone.None? && h.email.None? && h.rating.None? && h.name == "" && h.city == ""
             && h.address == "") ==> form == EmptyForm
  {
    map[
      "name" := Str(h.name), "description" := Str(h.description.GetOr("")),
      "address" := Str(h.address), "city" := Str(h.city),
      "state" := Str(h.state.GetOr("")), "country" := Str(h.country.GetOr("")),
      "postalCode" := Str(h.postalCode.GetOr("")), "phone" := Str(h.phone.GetOr("")),
      "email" := Str(h.email.GetOr("")), "rating" := Num(h.rating.GetOr(0.0))]
  }

  lemma EmptyFormHasHotelFields()
    ensures HasHotelFields(EmptyForm)
  {
  }

  /** Editing a field the form has keeps the form's fields. */
  lemma ChangeKeepsFields(form: Form, name: string, value: string)
    requires HasHotelFields(form) && name in FieldNames
    ensures HasHotelFields(form[name := Str(value)])
  {
  }

  /** renderStars: five stars, the i-th (from 1) filled when i <= rating. */
  method RenderStars(rating: real) returns (stars: seq<bool>)
    ensures |stars| == 5
    ensures forall i :: 0 <= i < 5 ==> (stars[i] <==> (i + 1) as real <= rating)
    ensures forall i :: 0 <= i < 5 ==> (stars[i] <==> i < rating.Floor)
    ensures forall i, j :: 0 <= i <= j < 5 && stars[j] ==> stars[i]
  {
    stars := [];
    var i := 1;
    while i <= 5
      invariant 1 <= i <= 6
      invariant |stars| == i - 1
      invariant forall k :: 0 <= k < |stars| ==> (stars[k] <==> (k + 1) as real <= rating)
      invariant forall k :: 0 <= k < |stars| ==> (stars[k] <==> k < rating.Floor)
    {
      FloorBound(rating, i);
      stars := stars + [i as real <= rating];
      i := i + 1;
    }
  }

  /** A whole number is at most a real exactly when it is at most the real's floor. */
  lemma FloorBound(r: real, n: int)
    ensures n as real <= r <==> n <= r.Floor
  {
  }

  /** The state of the hotels view. */
  class HotelsView {
    var hotels: seq<Hotel>
    var loading: bool
    var showModal: bool
    var editingHotel: Option<Hotel>
    var searchTerm: string
    var filterCity: string
    var message: Message
    var formLoading: bool
    var form: Form

    /** A closed modal holds no edit in progress: the next "Add Hotel" starts blank and creates. */
    predicate Valid()
      reads this
    {
      !showModal ==> editingHotel == None && form == EmptyForm
    }

    constructor()
      ensures Valid()
      ensures hotels == [] && loading && !showModal && editingHotel == None
      ensures searchTerm == "" && filterCity == "" && message == NoMessage && !formLoading && form == EmptyForm
    {
      hotels, loading, showModal, editingHotel := [], true, false, None;
      searchTerm, filterCity, message, formLoading, form := "", "", NoMessage, false, EmptyForm;
    }

    /** The list the grid shows. */
    function Filtered(): seq<Hotel>
      reads this
    {
      FilteredHotels(hotels, searchTerm, filterCity)
    }

    /** loadHotels: the list is replaced, or an error banner appears; loading ends. */
    method LoadHotels(fetched: Api.Reply<seq<Hotel>>)
      modifies this
      ensures !loading
      ensures fetched.Ok? ==> hotels == fetched.value && message == old(message)
      ensures fetched.Fail? ==> hotels == old(hotels) && message == Message("error", LoadError)
      ensures showModal == old(showModal) && editingHotel == old(editingHotel) && form == old(form)
      ensures searchTerm == old(searchTerm) && filterCity == old(filterCity) && formLoading == old(formLoading)
      ensures old(Valid()) ==> Valid()
    {
      loading := true;
      if fetched.Ok? {
        hotels := fetched.value;
      } else {
        message := Message("error", LoadError);
      }
      loading := false;
    }

    /** The "Add Hotel" buttons: open the modal on whatever the form holds. */
    method OpenModal()
      modifies this
      ensures showModal
      ensures old(Valid()) && !old(showModal) ==> editingHotel == None && form == EmptyForm
      ensures editingHotel == old(editingHotel) && form == old(form)
      ensures hotels == old(hotels) && loading == old(loading) && message == old(message)
      ensures searchTerm == old(searchTerm) && filterCity == old(filterCity) && formLoading == old(formLoading)
    {
      showModal := true;
    }

    /** handleEdit: load the hotel into the form and open the modal on it. */
    method HandleEdit(h: Hotel)
      modifies this
      ensures Valid() && showModal
      ensures editingHotel == Some(h) && form == FormFromHotel(h)
      ensures hotels == old(hotels) && loading == old(loading) && message == old(message)
      ensures searchTerm == old(searchTerm) && filterCity == old(filterCity) && formLoading == old(formLoading)
    {
      editingHotel := Some(h);
      form := FormFromHotel(h);
      showModal := true;
    }

    /** resetForm: the blank form and no hotel being edited. */
    method ResetForm()
      modifies this
      ensures form == EmptyForm && editingHotel == None
      ensures showModal == old(showModal)
      ensures hotels == old(hotels) && loading == old(loading) && message == old(message)
      ensures searchTerm == old(searchTerm) && filterCity == old(filterCity) && formLoading == old(formLoading)
    {
      form := EmptyForm;
      editingHotel := None;
    }

    /** handleChange: the named field takes the input's text; every other field is kept. */
    method HandleChange(name: string, value: string)
      modifies this
      ensures form == old(form)[name := Str(value)]
      ensures forall k :: k in old(form) && k != name ==> k in form && form[k] == old(form)[k]
      ensures showModal == old(showModal) && editingHotel == old(editingHotel)
      ensures hotels == old(hotels) && loading == old(loading) && message == old(message)
      ensures searchTerm == old(searchTerm) && filterCity == old(filterCity) && formLoading == old(formLoading)
    {
      form := form[name := Str(value)];
    }

    /** handleModalClose: close the modal and reset the form. */
    method HandleModalClose()
      modifies this
      ensures Valid() && !showModal && form == EmptyForm && editingHotel == None
      ensures hotels == old(hotels) && loading == old(loading) && message == old(message)
      ensures searchTerm == old(searchTerm) && filterCity == old(filterCity) && formLoading == old(formLoading)
    {
      showModal := false;
      ResetForm();
    }

    /**
     * handleSubmit: PUT the form to the hotel being edited, or POST it as a new hotel.
     * A saved form closes the modal and resets, whatever the reload brings; a rejected
     * one stays open as it was.
     */
    method HandleSubmit(reply: Api.Reply<()>, reload: Api.Reply<seq<Hotel>>) returns (sent: Api.Call<Form>)
      modifies this
      ensures old(editingHotel).Some? ==> sent == Api.UpdateHotel(old(editingHotel).value.id, old(form))
      ensures old(editingHotel).None? ==> sent == Api.CreateHotel(old(form))
      ensures sent.body == Some(old(form))
      ensures !formLoading
      ensures reply.Ok? ==>
                !showModal && form == EmptyForm && editingHotel == None && !loading
                && (reload.Ok? ==> hotels == reload.value
                                   && message == Message("success", if old(editingHotel).Some? then UpdateSuccess else CreateSuccess))
                && (reload.Fail? ==> hotels == old(hotels) && message == Message("error", LoadError))
      ensures reply.Fail? ==>
                message == Message("error", SaveError)
                && showModal == old(showModal) && form == old(form) && editingHotel == old(editingHotel)
                && hotels == old(hotels) && loading == old(loading)
      ensures reply.Fail? && old(Valid()) ==> Valid()
      ensures searchTerm == old(searchTerm) && filterCity == old(filterCity)
    {
      formLoading := true;
      if editingHotel.Some? {
        sent := Api.UpdateHotel(editingHotel.value.id, form);
      } else {
        sent := Api.CreateHotel(form);
      }
      if reply.Ok? {
        message := Message("success", if editingHotel.Some? then UpdateSuccess else CreateSuccess);
        LoadHotels(reload);
        showModal := false;
        ResetForm();
      } else {
        message := Message("error", SaveError);
      }
      formLoading := false;
    }

    /** handleDelete: only a confirmed deletion sends DELETE; success reloads, failure shows an error. */
    method HandleDelete(id: int, confirmed: bool, reply: Api.Reply<()>, reload: Api.Reply<seq<Hotel>>)
      returns (sent: Option<Api.Call<Form>>)
      modifies this
      ensures sent.Some? <==> confirmed
      ensures confirmed ==> sent == Some(Api.DeleteHotel(id))
      ensures !confirmed ==> hotels == old(hotels) && loading == old(loading) && message == old(message)
      ensures confirmed && reply.Fail? ==>
                hotels == old(hotels) && loading == old(loading) && message == Message("error", DeleteError)
      ensures confirmed && reply.Ok? ==>
                !loading
                && (reload.Ok? ==> hotels == reload.value && message == Message("success", DeleteSuccess))
                && (reload.Fail? ==> hotels == old(hotels) && message == Message("error", LoadError))
      ensures showModal == old(showModal) && editingHotel == old(editingHotel) && form == old(form)
      ensures searchTerm == old(searchTerm) && filterCity == old(filterCity) && formLoading == old(formLoading)
      ensures old(Valid()) ==> Valid()
    {
      if confirmed {
        sent := Some(Api.DeleteHotel(id));
        if reply.Ok? {
          message := Message("success", DeleteSuccess);
          LoadHotels(reload);
        } else {
          message := Message("error", DeleteError);
        }
      } else {
        sent := None;
      }
    }
  }

  /** The question window.confirm asks before a deletion. */
  function ConfirmPrompt(name: string): (prompt: string)
    ensures StartsWith(prompt, "Are you sure you want to delete \"")
    ensures OccursAt(prompt, name, 33)
  {
    "Are you sure you want to delete \"" + name + "\"? This action cannot be undone."
  }
}
