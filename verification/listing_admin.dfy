/** The administrator's listing table: approval-state changes, deletes, the
    inline edit row, and the join of each listing with its provider's
    e-mail. */
module ListingAdmin {
  import opened Wrappers
  import opened Seqs
  import opened ServiceTypes

  /** A listing together with its provider's e-mail, when one was found. */
  datatype ServiceWithProvider = ServiceWithProvider(service: Service, providerEmail: Option<string>)

  /** A profile row as the table lookup returns it. */
  datatype Profile = Profile(id: string, email: Option<string>)

  // ---------------------------------------------------------------------------
  // The provider join

  /** The provider ids of the listings, each once, in order of first
      appearance. */
  function ProviderIds(ss: seq<Service>): (r: seq<string>)
    ensures NoDuplicates(r)
    ensures forall pid :: pid in r <==> exists i :: 0 <= i < |ss| && ss[i].providerId == pid
  {
    var ids := seq(|ss|, i requires 0 <= i < |ss| => ss[i].providerId);
    assert forall pid :: pid in ids <==> exists i :: 0 <= i < |ss| && ss[i].providerId == pid by {
      forall pid
        ensures pid in ids <==> exists i :: 0 <= i < |ss| && ss[i].providerId == pid
      {
        if pid in ids {
          var k :| 0 <= k < |ids| && ids[k] == pid;
          assert ss[k].providerId == pid;
        }
        if exists i :: 0 <= i < |ss| && ss[i].providerId == pid {
          var k :| 0 <= k < |ss| && ss[k].providerId == pid;
          assert ids[k] == pid;
        }
      }
    }
    Dedup(ids)
  }

  /** `profiles?.find(p => p.id === pid)?.email`: nothing when the lookup
      returned no rows or no profile has that id. */
  function ProviderEmail(profiles: Option<seq<Profile>>, pid: string): (e: Option<string>)
    ensures profiles.None? ==> e.None?
    ensures profiles.Some? && (forall i :: 0 <= i < |profiles.value| ==> profiles.value[i].id != pid) ==> e.None?
    ensures e.Some? ==> exists i :: 0 <= i < |profiles.value| && profiles.value[i].id == pid
                                    && profiles.value[i].email == e
                                    && forall k :: 0 <= k < i ==> profiles.value[k].id != pid
  {
    match profiles
    case None => None
    case Some(ps) =>
      match FindFirst(ps, (p: Profile) => p.id == pid)
      case None => None
      case Some(p) => p.email
  }

  /** Each listing with the e-mail of its provider's profile. */
  function JoinProviders(ss: seq<Service>, profiles: Option<seq<Profile>>): (r: seq<ServiceWithProvider>)
    ensures |r| == |ss|
    ensures forall i :: 0 <= i < |ss| ==> r[i].service == ss[i]
    ensures forall i :: 0 <= i < |ss| ==> r[i].providerEmail == ProviderEmail(profiles, ss[i].providerId)
  {
    seq(|ss|, i requires 0 <= i < |ss| => ServiceWithProvider(ss[i], ProviderEmail(profiles, ss[i].providerId)))
  }

  /** Two listings of the same provider show the same e-mail, and a provider
      with a matching profile gets that profile's e-mail. */
  lemma JoinConsistent(ss: seq<Service>, profiles: seq<Profile>, i: int, j: int, k: int)
    requires 0 <= i < |ss| && 0 <= j < |ss| && ss[i].providerId == ss[j].providerId
    requires 0 <= k < |profiles| && profiles[k].id == ss[i].providerId
    requires forall m :: 0 <= m < k ==> profiles[m].id != ss[i].providerId
    ensures JoinProviders(ss, Some(profiles))[i].providerEmail == JoinProviders(ss, Some(profiles))[j].providerEmail
    ensures JoinProviders(ss, Some(profiles))[i].providerEmail == profiles[k].email
  {
    var e := ProviderEmail(Some(profiles), ss[i].providerId);
    if e.None? {
      assert !(forall m :: 0 <= m < |profiles| ==> profiles[m].id != ss[i].providerId);
    }
  }

  /** The provider column: the e-mail when it is present and non-empty,
      otherwise the provider id. */
  function DisplayProvider(row: ServiceWithProvider): (d: string)
    ensures row.providerEmail.Some? && row.providerEmail.value != "" ==> d == row.providerEmail.value
    ensures row.providerEmail.None? || row.providerEmail.value == "" ==> d == row.service.providerId
  {
    if row.providerEmail.Some? && row.providerEmail.value != "" then row.providerEmail.value
    else row.service.providerId
  }

  // ---------------------------------------------------------------------------
  // Table state and its operations

  /** The rows shown, the row being edited (a draft copy) and the error. */
  datatype TableState = TableState(rows: seq<ServiceWithProvider>, editing: Option<ServiceWithProvider>, error: string)

  /** Whether two rows agree on everything but the listing's status. */
  predicate SameButStatus(a: ServiceWithProvider, b: ServiceWithProvider) {
    a == b.(service := b.service.(status := a.service.status))
  }

  /** `handleStatusChange`: after the backend call, the matching rows take
      the new status; on failure only the error changes. Any of the three
      states may be chosen from any other. */
  function ChangeStatus(st: TableState, id: string, newStatus: ServiceStatus, backendError: Option<string>): (r: TableState)
    ensures r.editing == st.editing && |r.rows| == |st.rows|
    ensures backendError.Some? ==> r == st.(error := backendError.value)
    ensures backendError.None? ==> r.error == st.error
    ensures backendError.None? ==> forall i :: 0 <= i < |st.rows| && st.rows[i].service.id == id ==>
              r.rows[i].service.status == newStatus
    ensures forall i :: 0 <= i < |st.rows| && st.rows[i].service.id != id ==> r.rows[i] == st.rows[i]
    ensures forall i :: 0 <= i < |st.rows| ==> SameButStatus(r.rows[i], st.rows[i])
  {
    if backendError.Some? then st.(error := backendError.value)
    else
      var rows := seq(|st.rows|, i requires 0 <= i < |st.rows| =>
        if st.rows[i].service.id == id then st.rows[i].(service := st.rows[i].service.(status := newStatus))
        else st.rows[i]);
      st.(rows := rows)
  }

  /** A row's status select: the value it shows and the option values it
      offers. */
  datatype StatusSelect = StatusSelect(value: string, options: seq<string>)

  /** The three option values of every row's select. */
  const StatusOptionValues: seq<string> := ["pending", "approved", "rejected"]

  /** The select shows the row's state and offers the same three options
      whatever that state is: every approval state, each a stored name. */
  function StatusSelectOf(row: ServiceWithProvider): (v: StatusSelect)
    ensures v.value == StatusName(row.service.status)
    ensures |v.options| == 3
    ensures forall s: ServiceStatus :: StatusName(s) in v.options
    ensures forall k :: 0 <= k < |v.options| ==> ParseStatus(v.options[k]).Some?
  {
    StatusSelect(StatusName(row.service.status), StatusOptionValues)
  }

  /** Every state is reachable from every state, back to pending included:
      any row's select offers the target state, and choosing any option sets
      that row to the option's state. */
  lemma AnyStatusFromAny(st: TableState, i: int, newStatus: ServiceStatus)
    requires 0 <= i < |st.rows|
    ensures StatusName(newStatus) in StatusSelectOf(st.rows[i]).options
    ensures ParseStatus(StatusName(newStatus)) == Some(newStatus)
    ensures var opts := StatusSelectOf(st.rows[i]).options;
            forall k :: 0 <= k < |opts| ==>
              ChangeStatus(st, st.rows[i].service.id, ParseStatus(opts[k]).value, None).rows[i].service.status
              == ParseStatus(opts[k]).value
  {
  }

  /** `handleDelete` once confirmed: the rows with that id go, the rest keep
      their order; on failure only the error changes. */
  function DeleteListing(st: TableState, id: string, backendError: Option<string>): (r: TableState)
    ensures backendError.Some? ==> r == st.(error := backendError.value)
    ensures backendError.None? ==> r.editing == st.editing && r.error == st.error
    ensures backendError.None? ==> forall x :: x in r.rows <==> x in st.rows && x.service.id != id
    ensures backendError.None? ==>
              forall x :: multiset(r.rows)[x] == if x.service.id != id then multiset(st.rows)[x] else 0
    ensures IsSubsequence(r.rows, st.rows)
  {
    if backendError.Some? then
      SubsequenceRefl(st.rows);
      st.(error := backendError.value)
    else
      var p := (x: ServiceWithProvider) => x.service.id != id;
      FilterIsSubsequence(st.rows, p);
      FilterMultiset(st.rows, p);
      st.(rows := Filter(st.rows, p))
  }

  lemma {:induction false} SubsequenceRefl<T>(s: seq<T>)
    ensures IsSubsequence(s, s)
    decreases |s|
  {
    if |s| > 0 {
      SubsequenceRefl(s[1..]);
    }
  }

  /** The fields the inline edit writes: no id, owner, approval state,
      image or timestamps. */
  datatype EditPayload = EditPayload(
    name: string,
    description: string,
    category: ServiceType,
    location: string,
    pricePerHour: int,
    openingTime: string,
    closingTime: string,
    maxCapacity: int,
    availableDays: seq<string>,
    amenities: Option<seq<string>>,
    rules: Option<seq<string>>)

  function PayloadOf(s: Service): EditPayload {
    EditPayload(s.name, s.description, s.category, s.location, s.pricePerHour, s.openingTime,
                s.closingTime, s.maxCapacity, s.availableDays, s.amenities, s.rules)
  }

  /** The stored row after the backend applies an edit payload. */
  function ApplyPayload(row: Service, p: EditPayload): (s: Service)
    ensures PayloadOf(s) == p
    ensures s.id == row.id && s.providerId == row.providerId && s.status == row.status
    ensures s.imageUrl == row.imageUrl && s.createdAt == row.createdAt && s.updatedAt == row.updatedAt
  {
    row.(name := p.name, description := p.description, category := p.category, location := p.location,
         pricePerHour := p.pricePerHour, openingTime := p.openingTime, closingTime := p.closingTime,
         maxCapacity := p.maxCapacity, availableDays := p.availableDays, amenities := p.amenities,
         rules := p.rules)
  }

  /** Applying a row's own payload changes nothing. */
  lemma ApplyOwnPayload(row: Service)
    ensures ApplyPayload(row, PayloadOf(row)) == row
  {
  }

  /** `handleEdit` as written. With nothing being edited the clicked row
      becomes the draft and nothing is written. Otherwise the clicked row's
      payload is written and, on success, the matching rows are replaced by
      the clicked row wholesale and editing ends; on failure only the error
      changes. */
  function HandleEditAsWritten(st: TableState, clicked: ServiceWithProvider, backendError: Option<string>): (r: TableState)
    ensures st.editing.None? ==> r == st.(editing := Some(clicked))
    ensures st.editing.Some? && backendError.Some? ==> r == st.(error := backendError.value)
    ensures st.editing.Some? && backendError.None? ==>
              r.editing.None? && r.error == st.error && |r.rows| == |st.rows|
              && (forall i :: 0 <= i < |st.rows| && st.rows[i].service.id == clicked.service.id ==> r.rows[i] == clicked)
              && (forall i :: 0 <= i < |st.rows| && st.rows[i].service.id != clicked.service.id ==> r.rows[i] == st.rows[i])
  {
    if st.editing.None? then st.(editing := Some(clicked))
    else if backendError.Some? then st.(error := backendError.value)
    else
      var rows := seq(|st.rows|, i requires 0 <= i < |st.rows| =>
        if st.rows[i].service.id == clicked.service.id then clicked else st.rows[i]);
      TableState(rows, None, st.error)
  }

  /** The payload `handleEdit` sends for a click. */
  function WrittenPayload(st: TableState, clicked: ServiceWithProvider): (p: Option<EditPayload>)
    ensures p.None? <==> st.editing.None?
    ensures p.Some? ==> p.value == PayloadOf(clicked.service)
  {
    if st.editing.None? then None else Some(PayloadOf(clicked.service))
  }

  /** The first click only enters edit mode and writes nothing; the save
      writes the draft's payload, which carries no status, owner or id. */
  lemma EditTwoClicks(rows: seq<ServiceWithProvider>, row: ServiceWithProvider, draft: ServiceWithProvider)
    requires draft.service.id == row.service.id
    ensures var st1 := HandleEditAsWritten(TableState(rows, None, ""), row, None);
            && WrittenPayload(TableState(rows, None, ""), row).None?
            && st1.editing == Some(row) && st1.rows == rows
            && WrittenPayload(st1.(editing := Some(draft)), draft) == Some(PayloadOf(draft.service))
            && HandleEditAsWritten(st1.(editing := Some(draft)), draft, None).editing.None?
  {
  }

  /** Clicking Edit on another row while a draft is open saves that other
      row as it is and drops the draft's changes. */
  lemma OtherRowClickDropsDraft(st: TableState, other: ServiceWithProvider)
    requires st.editing.Some? && other.service.id != st.editing.value.service.id
    requires other in st.rows
    ensures WrittenPayload(st, other) == Some(PayloadOf(other.service))
    ensures HandleEditAsWritten(st, other, None).editing.None?
    ensures forall i :: 0 <= i < |st.rows| && st.rows[i].service.id == st.editing.value.service.id ==>
              HandleEditAsWritten(st, other, None).rows[i] == st.rows[i]
  {
  }

  /** A concrete run showing that the replaced row can disagree with the
      stored one: the draft is taken while the listing is pending, the
      status select then approves it (which does not touch the draft), and
      the save writes a payload without status, so the stored row stays
      approved while the table shows the draft's "pending". */
  lemma SavedRowShowsStaleStatus()
    ensures var s := Service("s1", "", "", "p1", "Gym", "d", Gym, None, "x", 10, "09:00", "17:00", [], 1,
                             Pending, None, None);
            var row := ServiceWithProvider(s, None);
            var st0 := TableState([row], Some(row), "");
            var st1 := ChangeStatus(st0, "s1", Approved, None);
            var st2 := HandleEditAsWritten(st1, st1.editing.value, None);
            && st1.rows[0].service.status == Approved
            && ApplyPayload(st1.rows[0].service, PayloadOf(st1.editing.value.service)).status == Approved
            && st2.rows[0].service.status == Pending
  {
  }

  /** `handleEdit` with the save corrected to mirror the write: the matching
      rows take the payload's fields and keep everything else, exactly as
      the stored rows do. */
  function HandleEdit(st: TableState, clicked: ServiceWithProvider, backendError: Option<string>): (r: TableState)
    ensures st.editing.None? ==> r == st.(editing := Some(clicked))
    ensures st.editing.Some? && backendError.Some? ==> r == st.(error := backendError.value)
    ensures st.editing.Some? && backendError.None? ==>
              r.editing.None? && r.error == st.error && |r.rows| == |st.rows|
              && (forall i :: 0 <= i < |st.rows| && st.rows[i].service.id != clicked.service.id ==> r.rows[i] == st.rows[i])
              && (forall i :: 0 <= i < |st.rows| && st.rows[i].service.id == clicked.service.id ==>
                    r.rows[i].service == ApplyPayload(st.rows[i].service, PayloadOf(clicked.service))
                    && r.rows[i].providerEmail == st.rows[i].providerEmail)
  {
    if st.editing.None? then st.(editing := Some(clicked))
    else if backendError.Some? then st.(error := backendError.value)
    else
      var p := PayloadOf(clicked.service);
      var rows := seq(|st.rows|, i requires 0 <= i < |st.rows| =>
        if st.rows[i].service.id == clicked.service.id
        then st.rows[i].(service := ApplyPayload(st.rows[i].service, p))
        else st.rows[i]);
      TableState(rows, None, st.error)
  }

  /** With the corrected save, a table that mirrored the stored listings
      still mirrors them after a successful save, whatever happened to the
      rows' statuses while the draft was open. */
  lemma SaveKeepsTableInSync(st: TableState, stored: seq<Service>, clicked: ServiceWithProvider)
    requires st.editing.Some? && |stored| == |st.rows|
    requires forall i :: 0 <= i < |st.rows| ==> st.rows[i].service == stored[i]
    ensures var r := HandleEdit(st, clicked, None);
            forall i :: 0 <= i < |stored| ==>
              r.rows[i].service == (if stored[i].id == clicked.service.id
                                    then ApplyPayload(stored[i], PayloadOf(clicked.service))
                                    else stored[i])
  {
  }

  /** The corrected save agrees with the one as written whenever the draft
      matches its row outside the edited fields: same status, image, owner,
      timestamps and provider e-mail. */
  lemma CorrectedSaveAgreesOnFreshDraft(st: TableState, clicked: ServiceWithProvider)
    requires st.editing.Some?
    requires forall i :: 0 <= i < |st.rows| && st.rows[i].service.id == clicked.service.id ==>
               && st.rows[i].providerEmail == clicked.providerEmail
               && clicked.service == ApplyPayload(st.rows[i].service, PayloadOf(clicked.service))
    ensures HandleEdit(st, clicked, None) == HandleEditAsWritten(st, clicked, None)
  {
    var a := HandleEdit(st, clicked, None);
    var b := HandleEditAsWritten(st, clicked, None);
    forall i | 0 <= i < |st.rows|
      ensures a.rows[i] == b.rows[i]
    {
      if st.rows[i].service.id == clicked.service.id {
        assert clicked.service == ApplyPayload(st.rows[i].service, PayloadOf(clicked.service));
      }
    }
    assert a.rows == b.rows;
  }

  /** The cancel button of the edit row. */
  function CancelEdit(st: TableState): (r: TableState)
    ensures r.editing.None? && r.rows == st.rows && r.error == st.error
  {
    st.(editing := None)
  }

  // ---------------------------------------------------------------------------
  // What the page renders

  datatype AdminView = LoadingListings | ErrorOnly(message: string)
                     | Table(rows: seq<ServiceWithProvider>, editing: Option<ServiceWithProvider>)

  /** The loading text while the first fetch runs, then the error alone
      whenever one is set, otherwise the table with its edit row. */
  function View(loading: bool, st: TableState): (v: AdminView)
    ensures v == LoadingListings <==> loading
    ensures v.Table? <==> !loading && st.error == ""
    ensures v.Table? ==> v.rows == st.rows && v.editing == st.editing
    ensures v.ErrorOnly? ==> v.message == st.error
  {
    if loading then LoadingListings
    else if st.error != "" then ErrorOnly(st.error)
    else Table(st.rows, st.editing)
  }

  /** A failed call with a message replaces the whole table by that message,
      and nothing on the page clears it: once an error is set, every status
      change, delete, edit click or cancel leaves an error set, so the table
      stays hidden. */
  lemma ErrorHidesTable(st: TableState, id: string, s: ServiceStatus, clicked: ServiceWithProvider, e: Option<string>)
    ensures e.Some? && e.value != "" ==>
              && View(false, ChangeStatus(st, id, s, e)) == ErrorOnly(e.value)
              && View(false, DeleteListing(st, id, e)) == ErrorOnly(e.value)
    ensures st.error != "" && (e.None? || e.value != "") ==>
              && View(false, ChangeStatus(st, id, s, e)).ErrorOnly?
              && View(false, DeleteListing(st, id, e)).ErrorOnly?
              && View(false, HandleEditAsWritten(st, clicked, e)).ErrorOnly?
              && View(false, HandleEdit(st, clicked, e)).ErrorOnly?
              && View(false, CancelEdit(st)).ErrorOnly?
  {
  }
}
