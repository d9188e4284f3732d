/** The provider's listing form: its initial state, the required-field check
    on submit, the weekday checkboxes and the amenity and rule tag lists. */
module ListingForm {
  import opened Wrappers
  import opened Strings
  import opened Seqs
  import opened ServiceTypes

  /** The weekday checkboxes, in display order. */
  const DaysOfWeek: seq<string> :=
    ["monday", "tuesday", "wednesday", "thursday", "friday", "saturday", "sunday"]

  /** The weekday checkboxes are seven distinct lower-case day names, and the
      category select lists the five categories in declaration order. */
  lemma FormChoices()
    ensures |DaysOfWeek| == 7 && NoDuplicates(DaysOfWeek)
    ensures forall i :: 0 <= i < |DaysOfWeek| ==> DaysOfWeek[i] == Lower(DaysOfWeek[i])
    ensures AllServiceTypes == [Gym, CoWorking, Banquet, Cafe, Other]
  {
  }

  // ---------------------------------------------------------------------------
  // Initial state

  /** The form's state before any initial data is applied. */
  const Defaults: ServiceFormData := ServiceFormData(
    "", "", Gym, None, "", 0, "09:00", "17:00", [], 1, Some([]), Some([]))

  /** Partial initial data: each present field overrides its default. A
      present `amenities` or `rules` may itself be null. */
  datatype FormPatch = FormPatch(
    name: Option<string>,
    description: Option<string>,
    category: Option<ServiceType>,
    imageUrl: Option<Option<string>>,
    location: Option<string>,
    pricePerHour: Option<int>,
    openingTime: Option<string>,
    closingTime: Option<string>,
    availableDays: Option<seq<string>>,
    maxCapacity: Option<int>,
    amenities: Option<Option<seq<string>>>,
    rules: Option<Option<seq<string>>>)

  const EmptyPatch: FormPatch :=
    FormPatch(None, None, None, None, None, None, None, None, None, None, None, None)

  /** The defaults spread first, then the initial data. */
  function InitialState(initial: Option<FormPatch>): (f: ServiceFormData)
    ensures initial.None? ==> f == Defaults
    ensures initial.Some? ==> f.name == initial.value.name.GetOr(Defaults.name)
    ensures initial.Some? ==> f.description == initial.value.description.GetOr(Defaults.description)
    ensures initial.Some? ==> f.category == initial.value.category.GetOr(Gym)
    ensures initial.Some? ==> f.imageUrl == initial.value.imageUrl.GetOr(None)
    ensures initial.Some? ==> f.location == initial.value.location.GetOr(Defaults.location)
    ensures initial.Some? ==> f.pricePerHour == initial.value.pricePerHour.GetOr(0)
    ensures initial.Some? ==> f.openingTime == initial.value.openingTime.GetOr("09:00")
    ensures initial.Some? ==> f.closingTime == initial.value.closingTime.GetOr("17:00")
    ensures initial.Some? ==> f.availableDays == initial.value.availableDays.GetOr([])
    ensures initial.Some? ==> f.maxCapacity == initial.value.maxCapacity.GetOr(1)
    ensures initial.Some? ==> f.amenities == initial.value.amenities.GetOr(Some([]))
    ensures initial.Some? ==> f.rules == initial.value.rules.GetOr(Some([]))
  {
    if initial.None? then Defaults
    else
      var p := initial.value;
      ServiceFormData(
        p.name.GetOr(Defaults.name), p.description.GetOr(Defaults.description),
        p.category.GetOr(Defaults.category), p.imageUrl.GetOr(Defaults.imageUrl),
        p.location.GetOr(Defaults.location), p.pricePerHour.GetOr(Defaults.pricePerHour),
        p.openingTime.GetOr(Defaults.openingTime), p.closingTime.GetOr(Defaults.closingTime),
        p.availableDays.GetOr(Defaults.availableDays), p.maxCapacity.GetOr(Defaults.maxCapacity),
        p.amenities.GetOr(Defaults.amenities), p.rules.GetOr(Defaults.rules))
  }

  /** Initial data holding every field of a stored listing. */
  function PatchOf(s: Service): FormPatch {
    FormPatch(Some(s.name), Some(s.description), Some(s.category), Some(s.imageUrl),
              Some(s.location), Some(s.pricePerHour), Some(s.openingTime), Some(s.closingTime),
              Some(s.availableDays), Some(s.maxCapacity), Some(s.amenities), Some(s.rules))
  }

  /** The object the form submits when its initial data is a whole stored
      listing. The spread copies every column of the row into the state, and
      the inputs edit only the twelve form fields, so the row's id,
      timestamps, owner and approval state go out beside them unchanged. */
  function SubmittedObject(initial: Service, f: ServiceFormData): (s: Service)
    ensures FormOf(s) == f
    ensures s.id == initial.id && s.createdAt == initial.createdAt && s.updatedAt == initial.updatedAt
    ensures s.providerId == initial.providerId && s.status == initial.status
  {
    FormDataIsServiceMinusFive(initial, f, initial.id, initial.createdAt, initial.updatedAt,
                               initial.providerId, initial.status);
    WithForm(f, initial.id, initial.createdAt, initial.updatedAt, initial.providerId, initial.status)
  }

  /** Editing a listing starts the twelve form fields from the listing's own,
      nulls included, and the untouched form submits the listing itself;
      empty initial data starts from the defaults. */
  lemma InitialStateOfListing(s: Service)
    ensures InitialState(Some(PatchOf(s))) == FormOf(s)
    ensures SubmittedObject(s, InitialState(Some(PatchOf(s)))) == s
    ensures InitialState(Some(EmptyPatch)) == InitialState(None)
  {
    FormDataIsServiceMinusFive(s, FormOf(s), s.id, s.createdAt, s.updatedAt, s.providerId, s.status);
  }

  // ---------------------------------------------------------------------------
  // Submit

  const RequiredFieldsMessage: string := "Please fill in all required fields"

  /** Name, description or location empty, or a price of zero. */
  predicate MissingRequired(f: ServiceFormData) {
    f.name == "" || f.description == "" || f.location == "" || f.pricePerHour == 0
  }

  /** What the submit handler does with the current state. */
  datatype SubmitStep = Blocked(message: string) | CallSubmit(data: ServiceFormData)

  function ValidateForm(f: ServiceFormData): (r: SubmitStep)
    ensures r.Blocked? <==> MissingRequired(f)
    ensures r.Blocked? ==> r.message == RequiredFieldsMessage
    ensures r.CallSubmit? ==> r.data == f
  {
    if MissingRequired(f) then Blocked(RequiredFieldsMessage) else CallSubmit(f)
  }

  /** The message under the form once the handler has finished: the check's
      message, or the message the submit callback threw, or none. */
  function ErrorAfterSubmit(f: ServiceFormData, callbackError: Option<string>): (m: string)
    ensures MissingRequired(f) ==> m == RequiredFieldsMessage
    ensures !MissingRequired(f) ==> m == callbackError.GetOr("")
  {
    match ValidateForm(f)
    case Blocked(msg) => msg
    case CallSubmit(_) => callbackError.GetOr("")
  }

  /** The untouched form cannot be submitted: its price is still zero. Any
      state with the three texts filled in and a non-zero price reaches the
      callback unchanged. */
  lemma SubmitGate(f: ServiceFormData)
    ensures ValidateForm(Defaults).Blocked?
    ensures ValidateForm(InitialState(None).(name := "a", description := "b", location := "c")).Blocked?
    ensures f.name != "" && f.description != "" && f.location != "" && f.pricePerHour != 0 ==>
              ValidateForm(f) == CallSubmit(f)
  {
  }

  // ---------------------------------------------------------------------------
  // Weekday checkboxes

  /** `handleDayToggle`: remove every occurrence of a checked day, append an
      unchecked one at the end; an absent list counts as empty. */
  function ToggleDay(days: seq<string>, day: string): (r: seq<string>)
    ensures day in r <==> day !in days
    ensures forall d :: d != day ==> (d in r <==> d in days)
    ensures day !in days ==> r == days + [day]
    ensures day in days ==> IsSubsequence(r, days) && |r| < |days|
    ensures NoDuplicates(days) ==> NoDuplicates(r)
  {
    if day in days then
      var p := (d: string) => d != day;
      FilterIsSubsequence(days, p);
      FilterDropsRejected(days, p, day);
      if NoDuplicates(days) then FilterNoDuplicates(days, p); Filter(days, p)
      else Filter(days, p)
    else
      var r := days + [day];
      assert NoDuplicates(days) ==> NoDuplicates(r) by {
        if NoDuplicates(days) {
          forall i, j | 0 <= i < j < |r|
            ensures r[i] != r[j]
          {
            if j == |days| {
              assert r[i] == days[i];
            }
          }
        }
      }
      r
  }

  /** The checkbox state of a list of days. */
  function Checked(days: Option<seq<string>>, day: string): bool {
    days.Some? && day in days.value
  }

  /** The toggle as the form applies it to a possibly absent list. */
  function ToggleField(days: Option<seq<string>>, day: string): (r: seq<string>)
    ensures Checked(Some(r), day) == !Checked(days, day)
    ensures forall d :: d != day ==> Checked(Some(r), d) == Checked(days, d)
  {
    ToggleDay(days.GetOr([]), day)
  }

  /** Toggling an unchecked day twice gives back the same list; toggling a
      checked day twice keeps the same set of days. */
  lemma {:induction false} ToggleTwice(days: seq<string>, day: string)
    ensures day !in days ==> ToggleDay(ToggleDay(days, day), day) == days
    ensures forall d :: d in ToggleDay(ToggleDay(days, day), day) <==> d in days
  {
    if day !in days {
      var p := (d: string) => d != day;
      FilterConcat(days, [day], p);
      FilterKeepsAll(days, p);
      assert Filter([day], p) == [];
    }
  }

  // ---------------------------------------------------------------------------
  // Tag lists

  /** A tag list and the text in its entry field. */
  datatype TagInput = TagInput(items: Option<seq<string>>, draft: string)

  /** `handleArrayInput`: Enter with text that is not all white space appends
      the trimmed text (an absent list counts as empty) and clears the field;
      anything else changes nothing. */
  function AddTag(t: TagInput, key: string): (r: TagInput)
    ensures key == "Enter" && !AllSpace(t.draft) ==>
              r.draft == "" && r.items == Some(t.items.GetOr([]) + [Trim(t.draft)])
    ensures key != "Enter" || AllSpace(t.draft) ==> r == t
    ensures r.items.Some? ==> forall i :: 0 <= i < |r.items.value| - 1 ==> r.items.value[i] == t.items.value[i]
  {
    var v := Trim(t.draft);
    if key == "Enter" && v != "" then TagInput(Some(t.items.GetOr([]) + [v]), "") else t
  }

  /** `removeArrayItem`: drops position `i`; an absent list stays absent. */
  function RemoveTag(items: Option<seq<string>>, i: int): (r: Option<seq<string>>)
    ensures r.None? <==> items.None?
    ensures items.Some? && 0 <= i < |items.value| ==>
              |r.value| == |items.value| - 1
              && (forall k :: 0 <= k < i ==> r.value[k] == items.value[k])
              && (forall k :: i <= k < |r.value| ==> r.value[k] == items.value[k + 1])
    ensures items.Some? && !(0 <= i < |items.value|) ==> r == items
  {
    match items
    case None => None
    case Some(s) => Some(RemoveAt(s, i))
  }

  /** Removing the tag just added restores the list. */
  lemma RemoveUndoesAdd(t: TagInput)
    requires t.items.Some? && !AllSpace(t.draft)
    ensures RemoveTag(AddTag(t, "Enter").items, |t.items.value|) == t.items
  {
    var r := AddTag(t, "Enter").items.value;
    assert RemoveAt(r, |t.items.value|) == t.items.value;
  }

  /** The detail page's amenities or rules section follows the form's tag
      lists: the untouched form's empty lists show none, a list the form
      added a tag to shows it, and removing the only tag hides it again. */
  lemma ListSectionsFollowTags(t: TagInput)
    ensures !ShowsListSection(Defaults.amenities) && !ShowsListSection(Defaults.rules)
    ensures !AllSpace(t.draft) ==> ShowsListSection(AddTag(t, "Enter").items)
    ensures t.items.GetOr([]) == [] && !AllSpace(t.draft) ==>
              !ShowsListSection(RemoveTag(AddTag(t, "Enter").items, 0))
    ensures ShowsListSection(RemoveTag(t.items, 0)) ==> ShowsListSection(t.items)
  {
  }

  /** The tag added is the draft without surrounding white space, and never
      empty. */
  lemma AddedTagIsTrimmed(t: TagInput)
    requires !AllSpace(t.draft)
    ensures var r := AddTag(t, "Enter").items.value;
            var v := r[|r| - 1];
            v != "" && !IsSpace(v[0]) && !IsSpace(v[|v| - 1])
  {
  }
}
