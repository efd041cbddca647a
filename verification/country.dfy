/**
 * The pure logic of the country view: which countries support the
 * drill-down, and the state table built from the fetched boundary features.
 */
module CountryView {
  import opened Wrappers

  /** ASCII lower-casing of one character. */
  function LowerChar(c: char): char {
    if 'A' <= c <= 'Z' then (c as int + 32) as char else c
  }

  /** ASCII lower-casing of a string, character by character. */
  function Lower(s: string): (r: string)
    ensures |r| == |s|
    ensures forall i :: 0 <= i < |s| ==> r[i] == LowerChar(s[i])
  {
    if s == [] then [] else [LowerChar(s[0])] + Lower(s[1..])
  }

  /** The lower-cased name of the one country with state-level data. */
  const DrillDownName := "india"

  /** Two characters are the same letter, ignoring ASCII case. */
  predicate SameLetter(a: char, b: char) {
    || a == b
    || ('A' <= a <= 'Z' && b as int == a as int + 32)
    || ('A' <= b <= 'Z' && a as int == b as int + 32)
  }

  /** Two strings are equal up to ASCII case, position by position. */
  predicate EqualIgnoringCase(a: string, b: string) {
    |a| == |b| && forall i :: 0 <= i < |a| ==> SameLetter(a[i], b[i])
  }

  lemma SameLetterIffSameLower(a: char, b: char)
    ensures SameLetter(a, b) <==> LowerChar(a) == LowerChar(b)
  {
  }

  /** Lower-casing identifies exactly the strings that differ only in case. */
  lemma {:induction false} LowerEqualIff(a: string, b: string)
    ensures Lower(a) == Lower(b) <==> EqualIgnoringCase(a, b)
  {
    if Lower(a) == Lower(b) {
      forall i | 0 <= i < |a|
        ensures SameLetter(a[i], b[i])
      {
        assert Lower(a)[i] == Lower(b)[i];
        SameLetterIffSameLower(a[i], b[i]);
      }
    }
    if EqualIgnoringCase(a, b) {
      forall i | 0 <= i < |a|
        ensures Lower(a)[i] == Lower(b)[i]
      {
        SameLetterIffSameLower(a[i], b[i]);
      }
    }
  }

  lemma LowerOfIndia()
    ensures Lower("India") == DrillDownName
  {
    assert Lower("India")[0] == 'i';
  }

  /**
   * The drill-down test of the country view: the lower-cased name is `india`,
   * which holds exactly for the spellings of "India" that differ only in case.
   */
  function IsSupported(country: string): (r: bool)
    ensures r <==> EqualIgnoringCase(country, "India")
  {
    LowerOfIndia();
    LowerEqualIff(country, "India");
    Lower(country) == DrillDownName
  }

  /** The test does not depend on letter case. */
  lemma SupportedIgnoresCase(a: string, b: string)
    requires EqualIgnoringCase(a, b)
    ensures IsSupported(a) <==> IsSupported(b)
  {
    LowerEqualIff(a, b);
  }

  /** One feature of the fetched boundary collection; only its `properties` are read. */
  datatype Feature = Feature(properties: map<string, string>)

  /** The property that names a state. */
  const StateNameKey := "ST_NM"

  /** The name lookup fails (a `KeyError`) at the first feature without a state name. */
  datatype ExtractError = MissingStateName(index: nat)

  /** Every feature of `features` carries a state name. */
  predicate AllNamed(features: seq<Feature>) {
    forall i :: 0 <= i < |features| ==> StateNameKey in features[i].properties
  }

  /**
   * The state names of the features, one per feature and in feature order,
   * or the position of the first feature without one.
   */
  function StateNames(features: seq<Feature>): (r: Result<seq<string>, ExtractError>)
    ensures r.Success? <==> AllNamed(features)
    ensures r.Success? ==> |r.value| == |features|
    ensures r.Success? ==> forall i :: 0 <= i < |features| ==> r.value[i] == features[i].properties[StateNameKey]
    ensures r.Failure? ==> r.error.index < |features|
    ensures r.Failure? ==> StateNameKey !in features[r.error.index].properties
    ensures r.Failure? ==> forall j :: 0 <= j < r.error.index ==> StateNameKey in features[j].properties
  {
    if features == [] then Success([])
    else if StateNameKey !in features[0].properties then Failure(MissingStateName(0))
    else match StateNames(features[1..])
      case Success(rest) => Success([features[0].properties[StateNameKey]] + rest)
      case Failure(MissingStateName(i)) => Failure(MissingStateName(i + 1))
  }

  /** The two-column table of the country map: one row per state, value 1 in every row. */
  datatype StateTable = StateTable(state: seq<string>, value: seq<int>)

  /** A table whose columns have equal length, as a data frame requires. */
  predicate WellFormed(t: StateTable) {
    |t.state| == |t.value|
  }

  /** The constant value column: `[1] * n`. */
  function Ones(n: nat): (r: seq<int>)
    ensures |r| == n
    ensures forall i :: 0 <= i < n ==> r[i] == 1
  {
    seq(n, _ => 1)
  }

  /** The table drawn for the features, or the extraction error. */
  function BuildTable(features: seq<Feature>): (r: Result<StateTable, ExtractError>)
    ensures r.Success? <==> AllNamed(features)
    ensures r.Success? ==> WellFormed(r.value) && |r.value.state| == |features|
    ensures r.Success? ==> forall i :: 0 <= i < |features| ==>
      r.value.state[i] == features[i].properties[StateNameKey] && r.value.value[i] == 1
    ensures r.Failure? ==> r == Failure(StateNames(features).error)
  {
    match StateNames(features)
    case Success(names) => Success(StateTable(names, Ones(|names|)))
    case Failure(e) => Failure(e)
  }

  /** What the country view shows for a country. */
  datatype CountryPage =
    | StatesMap(table: StateTable)
    | ExtractionFailed(error: ExtractError)
    | Unavailable(country: string)

  /**
   * The country view of `country`; `fetched` is the feature list the boundary
   * request would return, and it is consulted only for a supported country.
   */
  function Page(country: string, fetched: seq<Feature>): (r: CountryPage)
    ensures r.Unavailable? <==> !IsSupported(country)
    ensures r.Unavailable? ==> r.country == country
    ensures r.StatesMap? ==> WellFormed(r.table) && |r.table.state| == |fetched|
    ensures r.ExtractionFailed? <==> IsSupported(country) && !AllNamed(fetched)
    ensures r.StatesMap? ==> BuildTable(fetched) == Success(r.table)
    ensures r.ExtractionFailed? ==> BuildTable(fetched) == Failure(r.error)
  {
    if IsSupported(country) then
      match BuildTable(fetched)
      case Success(t) => StatesMap(t)
      case Failure(e) => ExtractionFailed(e)
    else
      Unavailable(country)
  }

  /** An unsupported country never depends on the boundary data: nothing is fetched for it. */
  lemma UnsupportedIgnoresFetch(country: string, a: seq<Feature>, b: seq<Feature>)
    requires !IsSupported(country)
    ensures Page(country, a) == Page(country, b) == Unavailable(country)
  {
  }

  /** "India" is supported in any case; "France" is not. */
  lemma SupportExamples()
    ensures IsSupported("India") && IsSupported("INDIA") && IsSupported("india")
    ensures !IsSupported("France")
  {
    assert !SameLetter("France"[0], "India"[0]);
  }
}
