/** The provider's dashboard: per-status counts of the provider's listings,
    the record a new listing is inserted as, the add/update dispatch of the
    listing form and the status badge colour. */
module Dashboard {
  import opened Wrappers
  import opened Seqs
  import opened ServiceTypes
  import ListingForm
  import Browse

  /** The four counters above the listing table. */
  datatype Stats = Stats(total: nat, pending: nat, approved: nat, rejected: nat)

  const ZeroStats: Stats := Stats(0, 0, 0, 0)

  /** One step of the `reduce`: count the listing and its status. */
  function Bump(acc: Stats, s: Service): Stats {
    match s.status
    case Pending => acc.(total := acc.total + 1, pending := acc.pending + 1)
    case Approved => acc.(total := acc.total + 1, approved := acc.approved + 1)
    case Rejected => acc.(total := acc.total + 1, rejected := acc.rejected + 1)
  }

  /** The left fold of `Bump` over the fetched listings. */
  function Tally(acc: Stats, ss: seq<Service>): Stats
    decreases |ss|
  {
    if |ss| == 0 then acc else Tally(Bump(acc, ss[0]), ss[1..])
  }

  function StatsOf(ss: seq<Service>): Stats {
    Tally(ZeroStats, ss)
  }

  predicate IsPending(s: Service) { s.status == Pending }
  predicate IsApproved(s: Service) { s.status == Approved }
  predicate IsRejected(s: Service) { s.status == Rejected }

  /** The fold adds, to whatever it starts from, the number of listings and
      the number in each status. */
  lemma {:induction false} TallyCounts(acc: Stats, ss: seq<Service>)
    ensures Tally(acc, ss).total == acc.total + |ss|
    ensures Tally(acc, ss).pending == acc.pending + Count(ss, IsPending)
    ensures Tally(acc, ss).approved == acc.approved + Count(ss, IsApproved)
    ensures Tally(acc, ss).rejected == acc.rejected + Count(ss, IsRejected)
    decreases |ss|
  {
    if |ss| > 0 {
      TallyCounts(Bump(acc, ss[0]), ss[1..]);
    }
  }

  /** Every listing has exactly one of the three statuses. */
  lemma {:induction false} StatusesPartition(ss: seq<Service>)
    ensures Count(ss, IsPending) + Count(ss, IsApproved) + Count(ss, IsRejected) == |ss|
    decreases |ss|
  {
    if |ss| > 0 {
      StatusesPartition(ss[1..]);
    }
  }

  /** The counters: total is the number of listings, each status counter the
      number of listings in that status, and the three add up to the total. */
  lemma StatsAreCounts(ss: seq<Service>)
    ensures StatsOf(ss).total == |ss|
    ensures StatsOf(ss).pending == Count(ss, IsPending)
    ensures StatsOf(ss).approved == Count(ss, IsApproved)
    ensures StatsOf(ss).rejected == Count(ss, IsRejected)
    ensures StatsOf(ss).pending + StatsOf(ss).approved + StatsOf(ss).rejected == StatsOf(ss).total
  {
    TallyCounts(ZeroStats, ss);
    StatusesPartition(ss);
  }

  // ---------------------------------------------------------------------------
  // Adding and updating a listing

  /** The row inserted for a new listing: the form's fields, the current
      user as owner and the approval state "pending". */
  datatype NewListingRow = NewListingRow(data: ServiceFormData, providerId: string, status: ServiceStatus)

  /** What the dashboard's submit callback does: insert a row, update the
      row with the given id with the twelve form fields, write a whole
      listing object over that row, report a failure, or nothing. */
  datatype SaveOutcome =
    | InsertRow(row: NewListingRow)
    | UpdateRow(id: string, data: ServiceFormData)
    | WriteRow(id: string, written: Service)
    | SaveFailed(message: string)
    | NoSave

  const AddFailedMessage: string := "Failed to add service"
  const UpdateFailedMessage: string := "Failed to update service"

  /** `handleAddService`: looks up the current user, inserts the row; a
      failed lookup or insert is reported with one fixed message. */
  function HandleAdd(data: ServiceFormData, userId: Option<string>, insertOk: bool): (o: SaveOutcome)
    ensures o.InsertRow? <==> userId.Some? && insertOk
    ensures o.InsertRow? ==> o.row.status == Pending && o.row.providerId == userId.value && o.row.data == data
    ensures !o.InsertRow? ==> o == SaveFailed(AddFailedMessage)
  {
    if userId.Some? && insertOk then InsertRow(NewListingRow(data, userId.value, Pending))
    else SaveFailed(AddFailedMessage)
  }

  /** The row a successful add stores, with the id and timestamps the
      backend assigns, holds exactly the submitted fields and belongs to the
      signed-in user. Listed first (newest first), it raises the pending and
      total counters by one, and it stays out of the customers' catalogue
      until an administrator approves it. */
  lemma AddedListingAwaitsApproval(data: ServiceFormData, uid: string, id: string, now: string,
                                   others: seq<Service>)
    ensures var o := HandleAdd(data, Some(uid), true);
            var s := WithForm(o.row.data, id, now, now, o.row.providerId, o.row.status);
            && FormOf(s) == data && s.providerId == uid
            && StatsOf([s] + others).pending == StatsOf(others).pending + 1
            && StatsOf([s] + others).total == StatsOf(others).total + 1
            && s !in Browse.BrowseFetch([s] + others)
  {
    var s := WithForm(data, id, now, now, uid, Pending);
    FormDataIsServiceMinusFive(s, data, id, now, now, uid, Pending);
    assert ([s] + others)[1..] == others;
    TallyCounts(Bump(ZeroStats, s), others);
    TallyCounts(ZeroStats, others);
  }

  /** `handleUpdateService` as written: nothing without a listing being
      edited; otherwise the form's whole object is written over the row with
      the edited listing's id. That object is the copy the dashboard fetched
      when Edit was clicked, with the form's fields over it, so it carries
      the copy's owner and approval state. */
  function HandleUpdateAsWritten(editing: Option<Service>, data: ServiceFormData, updateOk: bool): (o: SaveOutcome)
    ensures editing.None? ==> o == NoSave
    ensures editing.Some? && updateOk ==>
              o.WriteRow? && o.id == editing.value.id && FormOf(o.written) == data
              && o.written.status == editing.value.status && o.written.providerId == editing.value.providerId
    ensures editing.Some? && !updateOk ==> o == SaveFailed(UpdateFailedMessage)
  {
    if editing.None? then NoSave
    else if updateOk then WriteRow(editing.value.id, ListingForm.SubmittedObject(editing.value, data))
    else SaveFailed(UpdateFailedMessage)
  }

  /** A copy fetched while the listing was pending, saved after an
      administrator approved it, writes "pending" back: the stored approval
      state becomes the copy's, whatever the administrator decided since. */
  lemma StaleCopyRevertsApproval(stored: Service, copy: Service, data: ServiceFormData)
    requires copy.id == stored.id && copy.status == Pending && stored.status == Approved
    ensures var o := HandleUpdateAsWritten(Some(copy), data, true);
            o.WriteRow? && o.id == stored.id && o.written.status == Pending && o.written.status != stored.status
  {
  }

  /** `handleUpdateService` as its `ServiceFormData` parameter intends:
      nothing without a listing being edited, otherwise an update of that
      listing's row with the twelve form fields alone. */
  function HandleUpdate(editing: Option<Service>, data: ServiceFormData, updateOk: bool): (o: SaveOutcome)
    ensures editing.None? ==> o == NoSave
    ensures editing.Some? && updateOk ==> o == UpdateRow(editing.value.id, data)
    ensures editing.Some? && !updateOk ==> o == SaveFailed(UpdateFailedMessage)
  {
    if editing.None? then NoSave
    else if updateOk then UpdateRow(editing.value.id, data)
    else SaveFailed(UpdateFailedMessage)
  }

  /** The form's callback as written: the update handler, with its
      whole-object write, while a listing is being edited, and the add
      handler otherwise. */
  function OnSubmit(editing: Option<Service>, data: ServiceFormData, userId: Option<string>, backendOk: bool): (o: SaveOutcome)
    ensures editing.Some? ==> o == HandleUpdateAsWritten(editing, data, backendOk)
    ensures editing.None? ==> o == HandleAdd(data, userId, backendOk)
    ensures o != NoSave
  {
    if editing.Some? then HandleUpdateAsWritten(editing, data, backendOk) else HandleAdd(data, userId, backendOk)
  }

  /** The same callback with the corrected update handler. */
  function OnSubmitCorrected(editing: Option<Service>, data: ServiceFormData, userId: Option<string>, backendOk: bool): (o: SaveOutcome)
    ensures editing.Some? ==> o == HandleUpdate(editing, data, backendOk)
    ensures editing.None? ==> o == HandleAdd(data, userId, backendOk)
    ensures o != NoSave
  {
    if editing.Some? then HandleUpdate(editing, data, backendOk) else HandleAdd(data, userId, backendOk)
  }

  /** The stored row after an update: the form's fields over the existing
      listing's id, timestamps, owner and approval state. */
  function Updated(existing: Service, data: ServiceFormData): (s: Service)
    ensures FormOf(s) == data
    ensures s.id == existing.id && s.providerId == existing.providerId && s.status == existing.status
  {
    FormDataIsServiceMinusFive(existing, data, existing.id, existing.createdAt, existing.updatedAt,
                               existing.providerId, existing.status);
    WithForm(data, existing.id, existing.createdAt, existing.updatedAt, existing.providerId, existing.status)
  }

  /** With the form fields alone written, a provider's edit never touches the
      approval state, whatever copy the form was started from: an approved
      listing stays approved after its content changes, and saving the
      unchanged form writes back the same listing. */
  lemma EditKeepsApproval(stored: Service, copy: Service, data: ServiceFormData)
    requires copy.id == stored.id
    ensures var o := HandleUpdate(Some(copy), data, true);
            o == UpdateRow(stored.id, data) && Updated(stored, o.data).status == stored.status
    ensures Updated(stored, FormOf(stored)) == stored
  {
    FormDataIsServiceMinusFive(stored, data, stored.id, stored.createdAt, stored.updatedAt,
                               stored.providerId, stored.status);
  }

  /** When nothing changed the row since the dashboard fetched it, the write
      as written and the corrected update store the same row. */
  lemma CorrectedUpdateAgreesOnFreshCopy(stored: Service, data: ServiceFormData)
    ensures var o := HandleUpdateAsWritten(Some(stored), data, true);
            o.WriteRow? && o.written == Updated(stored, HandleUpdate(Some(stored), data, true).data)
  {
  }

  /** As written, a successful save stores the submitted fields in either
      mode: an edit as the whole copy the form started from, so with that
      copy's owner and approval state, whatever the stored row holds; an add
      as a new pending row of the signed-in user. */
  lemma SuccessfulSaveStoresForm(editing: Option<Service>, data: ServiceFormData, uid: string)
    ensures var o := OnSubmit(editing, data, Some(uid), true);
            && (editing.Some? ==>
                  o.WriteRow? && o.id == editing.value.id
                  && FormOf(o.written) == data
                  && o.written.status == editing.value.status
                  && o.written.providerId == editing.value.providerId
                  && o.written.createdAt == editing.value.createdAt)
            && (editing.None? ==>
                  o.InsertRow? && o.row.data == data && o.row.status == Pending && o.row.providerId == uid)
  {
  }

  /** Corrected: a successful save stores the submitted fields in either
      mode: an edit over the row being edited, keeping its owner and approval
      state; an add as a new pending row of the signed-in user. */
  lemma CorrectedSaveStoresForm(editing: Option<Service>, stored: Service, data: ServiceFormData, uid: string)
    requires editing.Some? ==> editing.value.id == stored.id
    ensures var o := OnSubmitCorrected(editing, data, Some(uid), true);
            && (editing.Some? ==>
                  o.UpdateRow? && o.id == stored.id
                  && FormOf(Updated(stored, o.data)) == data
                  && Updated(stored, o.data).status == stored.status
                  && Updated(stored, o.data).providerId == stored.providerId)
            && (editing.None? ==>
                  o.InsertRow? && o.row.data == data && o.row.status == Pending && o.row.providerId == uid)
  {
  }

  // ---------------------------------------------------------------------------
  // Badge colour

  datatype BadgeColor = SuccessBadge | ErrorBadge | WarningBadge

  /** Approved is success, rejected is error, anything else warning. */
  function StatusBadge(status: string): (c: BadgeColor)
    ensures c == SuccessBadge <==> status == StatusName(Approved)
    ensures c == ErrorBadge <==> status == StatusName(Rejected)
    ensures c == WarningBadge <==> status != StatusName(Approved) && status != StatusName(Rejected)
  {
    if status == "approved" then SuccessBadge
    else if status == "rejected" then ErrorBadge
    else WarningBadge
  }

  /** The three approval states get three different colours. */
  lemma BadgesDistinct(a: ServiceStatus, b: ServiceStatus)
    ensures StatusBadge(StatusName(a)) == StatusBadge(StatusName(b)) <==> a == b
    ensures StatusBadge(StatusName(Pending)) == WarningBadge
  {
  }
}
