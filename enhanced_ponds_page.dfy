/** The ponds page fed by the backend API (components/enhanced-ponds-page.tsx):
    `safeToFixed`, the page's own threshold table for the reading tiles,
    the pond and search filters and the clear-filters button.  A reading
    that is `null`, `undefined` or `NaN` is `None`. */
module EnhancedPondsPage {
  import opened Wrappers
  import opened Text
  import opened Numbers
  import opened Collections
  import opened WaterQuality

  // ---------------------------------------------------------------- safeToFixed

  /** `x.toFixed(d)` on an exact value: a minus for a negative `x`, then
      the magnitude rounded to `d` decimals and written with exactly `d`
      digits after the point. */
  function ToFixed(x: real, d: nat): (r: string)
    ensures |r| >= 1
    ensures r[0] == '-' <==> x < 0.0
    ensures x >= 0.0 ==> '0' <= r[0] <= '9'
  {
    var m := if x < 0.0 then -x else x;
    var digits := PlainText(RoundedUnits(m, d), d);
    assert '0' <= digits[0] <= '9';
    (if x < 0.0 then "-" else "") + digits
  }

  /** A whole number with no decimals prints as its digits. */
  lemma ToFixedOfNat(n: nat)
    ensures ToFixed(n as real, 0) == NatText(n)
  {
    assert Pow10(0) == 1;
    assert RoundedUnits(n as real, 0) == n;
    assert Quotient(n, 0) == n;
  }

  /** `safeToFixed`: "N/A" exactly for a missing value; a present value
      is written by `toFixed`, which never gives "N/A". */
  function SafeToFixed(value: Option<real>, decimals: nat): (r: string)
    ensures r == "N/A" <==> value.None?
    ensures value.Some? ==> r == ToFixed(value.value, decimals)
  {
    match value
    case None => "N/A"
    case Some(v) => ToFixed(v, decimals)
  }

  // ---------------------------------------------------------------- getParameterStatus

  /** The page's `getParameterStatus`: a missing value is normal; the
      critical band of each parameter is tested before its warning band;
      a parameter other than these three is normal. */
  function TileStatus(value: Option<real>, parameter: string): (r: Status)
    ensures value.None? ==> r == Normal
    ensures parameter != "temperature" && parameter != "ph" && parameter != "dissolved_oxygen" ==> r == Normal
  {
    match value
    case None => Normal
    case Some(v) =>
      if parameter == "temperature" then
        if v < 18.0 || v > 32.0 then Critical else if v < 20.0 || v > 30.0 then Warning else Normal
      else if parameter == "ph" then
        if v < 6.5 || v > 8.5 then Critical else if v < 7.0 || v > 8.0 then Warning else Normal
      else if parameter == "dissolved_oxygen" then
        if v < 4.0 then Critical else if v < 5.0 then Warning else Normal
      else Normal
  }

  function Rank(s: Status): nat {
    match s
    case Normal => 0
    case Warning => 1
    case Critical => 2
  }

  function Max(a: nat, b: nat): nat { if a < b then b else a }

  /** The bands are nested intervals: a value between two others is never
      graded worse than both of them. */
  lemma TileBandsNested(parameter: string, x: real, y: real, z: real)
    requires x <= y <= z
    ensures Rank(TileStatus(Some(y), parameter)) <= Max(Rank(TileStatus(Some(x), parameter)), Rank(TileStatus(Some(z), parameter)))
  {
  }

  /** This table is not the service's (lib/mongodb.ts): 28 °C is normal
      here and a warning there, a pH of 6.2 is critical here and a warning
      there, and dissolved oxygen is named differently, so the service's
      name is always normal here. */
  lemma TablesDisagree()
    ensures TileStatus(Some(28.0), "temperature") == Normal && ParameterStatus(28.0, "temperature") == Warning
    ensures TileStatus(Some(6.2), "ph") == Critical && ParameterStatus(6.2, "ph") == Warning
    ensures TileStatus(Some(2.0), "oxygen") == Normal && ParameterStatus(2.0, "oxygen") == Critical
  {
    assert Named("temperature") == Some(Temperature);
    assert Named("ph") == Some(Ph);
    assert Named("oxygen") == Some(Oxygen);
  }

  // ---------------------------------------------------------------- filters

  /** A pond as the overview lists it, with its latest readings. */
  datatype ApiPond = ApiPond(pondId: string, temperature: Option<real>, ph: Option<real>, dissolvedOxygen: Option<real>)

  /** The tests of the `filteredPonds` filter: the selected pond (or all),
      and the search found in the pond id, ignoring case. */
  predicate Kept(p: ApiPond, selectedPond: string, search: string) {
    (selectedPond == "all" || p.pondId == selectedPond)
    && (search == "" || ContainsIgnoringCase(p.pondId, search))
  }

  /** `filteredPonds`: the ponds passing both tests, in list order. */
  function FilteredPonds(ponds: seq<ApiPond>, selectedPond: string, search: string): (r: seq<ApiPond>)
    ensures forall p :: p in r <==> p in ponds && Kept(p, selectedPond, search)
    ensures multiset(r) <= multiset(ponds)
  {
    var keep := (p: ApiPond) => Kept(p, selectedPond, search);
    FilterSubMultiset(ponds, keep);
    Filter(ponds, keep)
  }

  /** With the filters cleared the whole list is shown, in its order. */
  lemma {:induction false} ClearedShowsAll(ponds: seq<ApiPond>)
    ensures FilteredPonds(ponds, "all", "") == ponds
  {
    FilterAll(ponds, (p: ApiPond) => Kept(p, "all", ""));
  }

  /** The page's own filter state. */
  class PageState {
    var selectedPond: string
    var searchTerm: string

    /** The first render selects pond_001, so only that pond is shown. */
    constructor(ponds: seq<ApiPond>)
      ensures selectedPond == "pond_001" && searchTerm == ""
      ensures forall p :: p in FilteredPonds(ponds, selectedPond, searchTerm) <==> p in ponds && p.pondId == "pond_001"
    {
      selectedPond := "pond_001";
      searchTerm := "";
    }

    /** The clear-filters button: afterwards every pond is shown. */
    method ClearFilters(ponds: seq<ApiPond>)
      modifies this
      ensures selectedPond == "all" && searchTerm == ""
      ensures FilteredPonds(ponds, selectedPond, searchTerm) == ponds
    {
      selectedPond := "all";
      searchTerm := "";
      ClearedShowsAll(ponds);
    }
  }
}
