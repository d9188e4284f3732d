/** The customer's catalogue page: only approved listings are fetched, and
    the list shown is narrowed by a search query, a category and a price
    range. */
module Browse {
  import opened Wrappers
  import opened Strings
  import opened Seqs
  import opened ServiceTypes

  /** The fetch asks the backend for approved listings only. */
  predicate IsBrowsable(s: Service) {
    s.status == Approved
  }

  /** The listings the page receives from the table `all`. */
  function BrowseFetch(all: seq<Service>): (r: seq<Service>)
    ensures forall s :: s in r <==> s in all && s.status == Approved
    ensures forall i :: 0 <= i < |r| ==> r[i].status != Pending && r[i].status != Rejected
  {
    Filter(all, IsBrowsable)
  }

  // ---------------------------------------------------------------------------
  // Search

  /** The lower-cased query occurs in the lower-cased name, description or
      location. */
  predicate SearchMatches(s: Service, query: string) {
    var q := Lower(query);
    Contains(Lower(s.name), q) || Contains(Lower(s.description), q) || Contains(Lower(s.location), q)
  }

  /** Search passes iff the folded query occurs at some offset of one of the
      three folded fields; the empty query passes every listing, and the
      query's own case does not matter. */
  lemma SearchIff(s: Service, query: string)
    ensures SearchMatches(s, query) <==>
              (exists i :: OccursAt(Lower(s.name), Lower(query), i))
              || (exists i :: OccursAt(Lower(s.description), Lower(query), i))
              || (exists i :: OccursAt(Lower(s.location), Lower(query), i))
    ensures SearchMatches(s, "")
    ensures SearchMatches(s, Lower(query)) == SearchMatches(s, query)
  {
    ContainsIff(Lower(s.name), Lower(query));
    ContainsIff(Lower(s.description), Lower(query));
    ContainsIff(Lower(s.location), Lower(query));
    assert Lower("") == "";
    ContainsEmpty(Lower(s.name));
    LowerIdempotent(query);
  }

  // ---------------------------------------------------------------------------
  // Category

  /** The category select holds "all" or one of the category names. */
  predicate TypeMatches(s: Service, selected: string) {
    selected == "all" || TypeName(s.category) == selected
  }

  lemma TypeFilterIff(s: Service, t: ServiceType, other: string)
    ensures TypeMatches(s, "all")
    ensures TypeMatches(s, TypeName(t)) <==> s.category == t
    ensures other != "all" && ParseType(other).None? ==> !TypeMatches(s, other)
  {
    TypeNameRoundTrip(s.category, TypeName(t));
    TypeNameRoundTrip(s.category, other);
  }

  // ---------------------------------------------------------------------------
  // Price range

  /** A piece of the split range: "+" stands for infinity, anything else goes
      through `Number`. */
  function PieceValue(p: string): (n: JsNumber)
    ensures n == Infinity <==> p == "+"
    ensures AllDigits(p) ==> n == Finite(DecimalValue(p))
  {
    if p == "+" then Infinity else NumberOf(p)
  }

  /** `price >= min`: false against NaN and against infinity. */
  predicate AtLeast(price: int, min: JsNumber) {
    min.Finite? && price >= min.value
  }

  /** `max === Infinity ? true : price <= max`; a missing `max` is
      `undefined`, which compares false. */
  predicate AtMost(price: int, max: Option<JsNumber>) {
    max.Some? && (max.value == Infinity || (max.value.Finite? && price <= max.value.value))
  }

  /** The price test as written: split the range on '-', read the first two
      pieces, compare. */
  predicate PriceMatches(price: int, range: string) {
    if range == "all" then true
    else
      var parts := Split(range, '-');
      var min := PieceValue(parts[0]);
      var max := if |parts| > 1 then Some(PieceValue(parts[1])) else None;
      AtLeast(price, min) && AtMost(price, max)
  }

  /** A range of two digit runs matches exactly the prices between them,
      both ends included. */
  lemma ClosedRangeInclusive(price: int, lo: string, hi: string)
    requires AllDigits(lo) && AllDigits(hi)
    ensures PriceMatches(price, lo + "-" + hi) <==> DecimalValue(lo) <= price <= DecimalValue(hi)
  {
    assert '-' !in lo && '-' !in hi;
    SplitAtFirst(lo, '-', hi);
    assert lo + "-" + hi == lo + ['-'] + hi;
    assert (lo + "-" + hi)[|lo|] == '-';
    assert lo != "+" && hi != "+";
  }

  /** The four closed options of the price select behave as their labels
      say; "all" matches every price. */
  lemma PriceOptions(price: int)
    ensures PriceMatches(price, "all")
    ensures PriceMatches(price, "0-50") <==> 0 <= price <= 50
    ensures PriceMatches(price, "51-100") <==> 51 <= price <= 100
    ensures PriceMatches(price, "101-200") <==> 101 <= price <= 200
  {
    OptionBounds();
    ClosedRangeInclusive(price, "0", "50");
    ClosedRangeInclusive(price, "51", "100");
    ClosedRangeInclusive(price, "101", "200");
  }

  /** The option strings and the numbers their pieces denote. */
  lemma OptionBounds()
    ensures "0" + "-" + "50" == "0-50" && "51" + "-" + "100" == "51-100" && "101" + "-" + "200" == "101-200"
    ensures AllDigits("0") && AllDigits("50") && AllDigits("51") && AllDigits("100")
    ensures AllDigits("101") && AllDigits("200")
    ensures DecimalValue("0") == 0 && DecimalValue("50") == 50 && DecimalValue("51") == 51
    ensures DecimalValue("100") == 100 && DecimalValue("101") == 101 && DecimalValue("200") == 200
  {
    TwoDigits('5', '0');
    TwoDigits('5', '1');
    ThreeDigits('1', '0', '0');
    ThreeDigits('1', '0', '1');
    ThreeDigits('2', '0', '0');
    assert "0"[..0] == "";
  }

  lemma TwoDigits(a: char, b: char)
    requires IsDigit(a) && IsDigit(b)
    ensures DecimalValue([a, b]) == 10 * DigitValue(a) + DigitValue(b)
  {
    assert [a, b][..1] == [a];
    assert [a][..0] == [];
    assert DecimalValue([a]) == DigitValue(a);
  }

  lemma ThreeDigits(a: char, b: char, c: char)
    requires IsDigit(a) && IsDigit(b) && IsDigit(c)
    ensures DecimalValue([a, b, c]) == 100 * DigitValue(a) + 10 * DigitValue(b) + DigitValue(c)
  {
    assert [a, b, c][..2] == [a, b];
    TwoDigits(a, b);
  }

  /** "201+" has no '-': the whole string is the minimum, `Number` of it is
      NaN and the maximum is undefined, so no price matches. */
  lemma OpenRangeMatchesNothing(price: int)
    ensures !PriceMatches(price, "201+")
  {
    assert '-' !in "201+";
    assert Split("201+", '-') == ["201+"];
    assert !IsDigit("201+"[3]);
    assert PieceValue("201+") == NaN;
  }

  /** The price test the "201+" option evidently expects: a trailing '+'
      makes the digits before it an open lower bound; every other range is
      read as before. */
  predicate PriceMatchesIntended(price: int, range: string) {
    if |range| > 0 && range[|range| - 1] == '+' then
      var lo := NumberOf(range[..|range| - 1]);
      lo.Finite? && price >= lo.value
    else PriceMatches(price, range)
  }

  /** The corrected test makes "201+" match exactly the prices from 201 up. */
  lemma IntendedOpenRange(price: int)
    ensures PriceMatchesIntended(price, "201+") <==> price >= 201
  {
    assert "201+"[..3] == "201";
    assert "201" == ['2', '0', '1'];
    ThreeDigits('2', '0', '1');
  }

  /** Every other option of the price select is read as before. */
  lemma IntendedKeepsClosedRanges(price: int, range: string)
    requires range in {"all", "0-50", "51-100", "101-200"}
    ensures PriceMatchesIntended(price, range) == PriceMatches(price, range)
  {
    assert range[|range| - 1] == '0' || range[|range| - 1] == 'l';
  }

  // ---------------------------------------------------------------------------
  // The combined filter

  predicate Passes(s: Service, query: string, selectedType: string, range: string) {
    SearchMatches(s, query) && TypeMatches(s, selectedType) && PriceMatches(s.pricePerHour, range)
  }

  /** `filterServices`: a listing stays iff it passes search, category and
      price, and the survivors keep their order. */
  function FilterServices(ss: seq<Service>, query: string, selectedType: string, range: string): (r: seq<Service>)
    ensures forall s :: s in r <==>
              s in ss && SearchMatches(s, query) && TypeMatches(s, selectedType) && PriceMatches(s.pricePerHour, range)
    ensures IsSubsequence(r, ss)
    ensures forall s :: multiset(r)[s] == if Passes(s, query, selectedType, range) then multiset(ss)[s] else 0
  {
    var p := (s: Service) => Passes(s, query, selectedType, range);
    FilterIsSubsequence(ss, p);
    FilterMultiset(ss, p);
    Filter(ss, p)
  }

  /** With every control at its initial value the whole fetched list is
      shown; with the "201+" option nothing is. */
  lemma FilterExtremes(ss: seq<Service>, query: string, selectedType: string)
    ensures FilterServices(ss, "", "all", "all") == ss
    ensures FilterServices(ss, query, selectedType, "201+") == []
  {
    forall i | 0 <= i < |ss|
      ensures Passes(ss[i], "", "all", "all")
    {
      SearchIff(ss[i], "");
    }
    FilterKeepsAll(ss, (s: Service) => Passes(s, "", "all", "all"));
    forall i | 0 <= i < |ss|
      ensures !Passes(ss[i], query, selectedType, "201+")
    {
      OpenRangeMatchesNothing(ss[i].pricePerHour);
    }
    FilterKeepsNone(ss, (s: Service) => Passes(s, query, selectedType, "201+"));
  }

  /** What the catalogue area shows. */
  datatype BrowseView = LoadingServices | FetchError(message: string) | NoResults | Grid(cards: seq<Service>)

  function View(loading: bool, error: string, shown: seq<Service>): (v: BrowseView)
    ensures v.Grid? <==> !loading && error == "" && |shown| > 0
    ensures v.Grid? ==> v.cards == shown
    ensures v == NoResults <==> !loading && error == "" && |shown| == 0
  {
    if loading then LoadingServices
    else if error != "" then FetchError(error)
    else if |shown| == 0 then NoResults
    else Grid(shown)
  }
}
