/** The listing record shared by every page: its category and approval
    enumerations, the stored row and the editable part of it. */
module ServiceTypes {
  import opened Wrappers

  /** A listing's category. */
  datatype ServiceType = Gym | CoWorking | Banquet | Cafe | Other

  /** A listing's approval state. */
  datatype ServiceStatus = Pending | Approved | Rejected

  /** The category as the backend stores it. */
  function TypeName(t: ServiceType): string {
    match t
    case Gym => "gym"
    case CoWorking => "co-working"
    case Banquet => "banquet"
    case Cafe => "cafe"
    case Other => "other"
  }

  function ParseType(s: string): (r: Option<ServiceType>)
    ensures r.Some? ==> TypeName(r.value) == s
  {
    if s == "gym" then Some(Gym)
    else if s == "co-working" then Some(CoWorking)
    else if s == "banquet" then Some(Banquet)
    else if s == "cafe" then Some(Cafe)
    else if s == "other" then Some(Other)
    else None
  }

  /** A string is a category iff it is one of the five stored names. */
  lemma TypeNameRoundTrip(t: ServiceType, s: string)
    ensures ParseType(s) == Some(t) <==> TypeName(t) == s
    ensures ParseType(s).None? <==> s !in {"gym", "co-working", "banquet", "cafe", "other"}
  {
  }

  function StatusName(st: ServiceStatus): string {
    match st
    case Pending => "pending"
    case Approved => "approved"
    case Rejected => "rejected"
  }

  function ParseStatus(s: string): (r: Option<ServiceStatus>)
    ensures r.Some? ==> StatusName(r.value) == s
  {
    if s == "pending" then Some(Pending)
    else if s == "approved" then Some(Approved)
    else if s == "rejected" then Some(Rejected)
    else None
  }

  /** A string is an approval state iff it is one of the three stored names. */
  lemma StatusNameRoundTrip(st: ServiceStatus, s: string)
    ensures ParseStatus(s) == Some(st) <==> StatusName(st) == s
    ensures ParseStatus(s).None? <==> s !in {"pending", "approved", "rejected"}
  {
  }

  /** The category choices the listing form offers, in display order. */
  const AllServiceTypes: seq<ServiceType> := [Gym, CoWorking, Banquet, Cafe, Other]

  /** The form offers every category exactly once. */
  lemma ServiceTypesComplete(t: ServiceType)
    ensures t in AllServiceTypes
    ensures |set i | 0 <= i < |AllServiceTypes| && AllServiceTypes[i] == t| == 1
  {
    var k := match t case Gym => 0 case CoWorking => 1 case Banquet => 2 case Cafe => 3 case Other => 4;
    assert (set i | 0 <= i < |AllServiceTypes| && AllServiceTypes[i] == t) == {k};
  }

  /** A stored listing. Latitude, longitude, rating and review count are
      floating-point display data and are not part of the model. Prices are
      whole currency units. */
  datatype Service = Service(
    id: string,
    createdAt: string,
    updatedAt: string,
    providerId: string,
    name: string,
    description: string,
    category: ServiceType,
    imageUrl: Option<string>,
    location: string,
    pricePerHour: int,
    openingTime: string,
    closingTime: string,
    availableDays: seq<string>,
    maxCapacity: int,
    status: ServiceStatus,
    amenities: Option<seq<string>>,
    rules: Option<seq<string>>)

  /** What the listing form edits: a listing without its id, timestamps, owner
      and approval state. */
  datatype ServiceFormData = ServiceFormData(
    name: string,
    description: string,
    category: ServiceType,
    imageUrl: Option<string>,
    location: string,
    pricePerHour: int,
    openingTime: string,
    closingTime: string,
    availableDays: seq<string>,
    maxCapacity: int,
    amenities: Option<seq<string>>,
    rules: Option<seq<string>>)

  /** The editable part of a listing. */
  function FormOf(s: Service): (f: ServiceFormData)
    ensures f.name == s.name && f.description == s.description && f.category == s.category
    ensures f.imageUrl == s.imageUrl && f.location == s.location && f.pricePerHour == s.pricePerHour
    ensures f.openingTime == s.openingTime && f.closingTime == s.closingTime
    ensures f.availableDays == s.availableDays && f.maxCapacity == s.maxCapacity
    ensures f.amenities == s.amenities && f.rules == s.rules
  {
    ServiceFormData(s.name, s.description, s.category, s.imageUrl, s.location, s.pricePerHour,
                    s.openingTime, s.closingTime, s.availableDays, s.maxCapacity, s.amenities, s.rules)
  }

  /** A listing assembled from form data and the five fields the form omits. */
  function WithForm(f: ServiceFormData, id: string, createdAt: string, updatedAt: string,
                    providerId: string, status: ServiceStatus): (s: Service)
    ensures s.id == id && s.createdAt == createdAt && s.updatedAt == updatedAt
    ensures s.providerId == providerId && s.status == status
  {
    Service(id, createdAt, updatedAt, providerId, f.name, f.description, f.category, f.imageUrl,
            f.location, f.pricePerHour, f.openingTime, f.closingTime, f.availableDays,
            f.maxCapacity, status, f.amenities, f.rules)
  }

  /** The form data is exactly a listing minus id, timestamps, owner and
      status: splitting a listing and reassembling it gives it back, and
      reassembling form data and reading the form back gives the data back. */
  lemma FormDataIsServiceMinusFive(s: Service, f: ServiceFormData, id: string, createdAt: string,
                                   updatedAt: string, providerId: string, status: ServiceStatus)
    ensures WithForm(FormOf(s), s.id, s.createdAt, s.updatedAt, s.providerId, s.status) == s
    ensures FormOf(WithForm(f, id, createdAt, updatedAt, providerId, status)) == f
  {
  }

  /** The detail page shows the amenities or rules section only for a present,
      non-empty list; a null list and an empty list both hide it. */
  predicate ShowsListSection(items: Option<seq<string>>) {
    items.Some? && |items.value| > 0
  }
}
