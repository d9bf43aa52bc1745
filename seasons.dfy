/**
 * The season classifier: the three location conventions and the two
 * month-to-season tables they are built from (src/index.js:1-10, 95-157).
 * Months are numbered 1..12; any other number matches no case of the
 * source's switch statements and yields `undefined`, here `None`.
 */
module Seasons {
  import opened Wrappers

  /** The ordered season names of the northern hemisphere convention. */
  const NorthernNames: seq<string> := ["winter", "spring", "summer", "autumn"]

  /** The ordered season names of the southern hemisphere convention. */
  const SouthernNames: seq<string> := ["summer", "autumn", "winter", "spring"]

  /** The four season names the India convention uses. */
  const IndiaNames: seq<string> := ["winter", "summer", "monsoon", "autumn"]

  /**
   * The meteorological quarter of a month, computed arithmetically:
   * December..February is 0, March..May 1, June..August 2, September..November 3.
   * It is the reference the month switches are proved against.
   */
  function Quarter(month: int): (q: nat)
    requires 1 <= month <= 12
    ensures q < 4
  {
    (month % 12) / 3
  }

  /** JavaScript's `seasons[i]`: the element, or `undefined` past the end. */
  function ListAt(seasons: seq<string>, i: nat): Option<string> {
    if i < |seasons| then Some(seasons[i]) else None
  }

  /**
   * The classifier `meteorologicalSeason(seasons)` builds, applied to a month:
   * a switch that sends each three-month block to one position of `seasons`.
   */
  function MeteorologicalSeason(seasons: seq<string>, month: int): (r: Option<string>)
    ensures r.Some? <==> 1 <= month <= 12 && Quarter(month) < |seasons|
    ensures r.Some? ==> r.value == seasons[Quarter(month)]
  {
    match month
    case 12 | 1 | 2 => ListAt(seasons, 0)
    case 3 | 4 | 5 => ListAt(seasons, 1)
    case 6 | 7 | 8 => ListAt(seasons, 2)
    case 9 | 10 | 11 => ListAt(seasons, 3)
    case _ => None
  }

  /** The fixed India table `meteorologicalSeasonIndia`: a four-month monsoon and a two-month autumn. */
  function IndiaSeason(month: int): (r: Option<string>)
    ensures r.Some? <==> 1 <= month <= 12
    ensures r.Some? ==> r.value in IndiaNames
  {
    match month
    case 12 | 1 | 2 => Some("winter")
    case 3 | 4 | 5 => Some("summer")
    case 6 | 7 | 8 | 9 => Some("monsoon")
    case 10 | 11 => Some("autumn")
    case _ => None
  }

  /** The frozen `Location` enumeration: each convention has a name and a season function. */
  datatype Location = NorthernHemisphere | SouthernHemisphere | India
  {
    function Name(): string {
      match this
      case NorthernHemisphere => "north"
      case SouthernHemisphere => "south"
      case India => "india"
    }

    /** The season names this convention can yield. */
    function Vocabulary(): seq<string> {
      match this
      case NorthernHemisphere => NorthernNames
      case SouthernHemisphere => SouthernNames
      case India => IndiaNames
    }

    /** `location.season(month)`: a season exactly for the months 1..12, drawn from the vocabulary. */
    function Season(month: int): (r: Option<string>)
      ensures r.Some? <==> 1 <= month <= 12
      ensures r.Some? ==> r.value in Vocabulary()
    {
      match this
      case NorthernHemisphere => MeteorologicalSeason(NorthernNames, month)
      case SouthernHemisphere => MeteorologicalSeason(SouthernNames, month)
      case India => IndiaSeason(month)
    }
  }

  /** The months 1..12 that a convention assigns to the season `name`. */
  function MonthsOf(loc: Location, name: string): set<int> {
    set m | 1 <= m <= 12 && loc.Season(m) == Some(name)
  }

  /** The three conventions have distinct names. */
  lemma NamesIdentifyLocations(a: Location, b: Location)
    ensures a.Name() == b.Name() <==> a == b
  {
  }

  /** The northern hemisphere table: winter Dec-Feb, spring Mar-May, summer Jun-Aug, autumn Sep-Nov. */
  lemma NorthernMonths()
    ensures MonthsOf(NorthernHemisphere, "winter") == {12, 1, 2}
    ensures MonthsOf(NorthernHemisphere, "spring") == {3, 4, 5}
    ensures MonthsOf(NorthernHemisphere, "summer") == {6, 7, 8}
    ensures MonthsOf(NorthernHemisphere, "autumn") == {9, 10, 11}
  {
  }

  /**
   * The India table: winter Dec-Feb, summer Mar-May, monsoon Jun-Sep (four
   * months) and autumn Oct-Nov (two months).
   */
  lemma IndiaMonths()
    ensures MonthsOf(India, "winter") == {12, 1, 2}
    ensures MonthsOf(India, "summer") == {3, 4, 5}
    ensures MonthsOf(India, "monsoon") == {6, 7, 8, 9} && |MonthsOf(India, "monsoon")| == 4
    ensures MonthsOf(India, "autumn") == {10, 11} && |MonthsOf(India, "autumn")| == 2
  {
  }

  /** Rotating an ordered list left by `k` positions. */
  function Rotate(s: seq<string>, k: nat): (r: seq<string>)
    requires k <= |s|
    ensures |r| == |s|
    ensures forall i :: 0 <= i < |s| ==> r[i] == s[(i + k) % |s|]
  {
    s[k..] + s[..k]
  }

  /** A rotated list shifts every month's season `k` positions further along the 4-cycle. */
  lemma RotatedTable(s: seq<string>, k: nat, month: int)
    requires |s| == 4 && k < 4 && 1 <= month <= 12
    ensures MeteorologicalSeason(Rotate(s, k), month) == Some(s[(Quarter(month) + k) % 4])
  {
  }

  /** The southern list is the northern list rotated by two. */
  lemma SouthernIsRotatedNorthern()
    ensures SouthernNames == Rotate(NorthernNames, 2)
  {
  }

  /**
   * The southern hemisphere season of a month is the northern season two
   * positions ahead in the 4-cycle, which is also the northern season six
   * months later.
   */
  lemma SouthernIsNorthernShifted(month: int)
    requires 1 <= month <= 12
    ensures SouthernHemisphere.Season(month) == Some(NorthernNames[(Quarter(month) + 2) % 4])
    ensures SouthernHemisphere.Season(month) == NorthernHemisphere.Season((month + 5) % 12 + 1)
  {
    SouthernIsRotatedNorthern();
    RotatedTable(NorthernNames, 2, month);
    QuarterSixMonthsLater(month);
  }

  /** Six months later is two quarters later. */
  lemma QuarterSixMonthsLater(month: int)
    requires 1 <= month <= 12
    ensures 1 <= (month + 5) % 12 + 1 <= 12
    ensures Quarter((month + 5) % 12 + 1) == (Quarter(month) + 2) % 4
  {
    match month
    case 1 | 2 | 3 | 4 | 5 | 6 | 7 | 8 | 9 | 10 | 11 | 12 =>
  }

  /**
   * The India table is not a quarterly table: no ordered list given to the
   * quarterly classifier agrees with it on every month, so in particular no
   * rotation of the hemispheric lists does.
   */
  lemma IndiaIsNotQuarterly(seasons: seq<string>)
    ensures exists m :: 1 <= m <= 12 && MeteorologicalSeason(seasons, m) != IndiaSeason(m)
  {
    if MeteorologicalSeason(seasons, 9) == IndiaSeason(9) {
      assert MeteorologicalSeason(seasons, 10) != IndiaSeason(10);
    }
  }

  /** Every name of a convention's vocabulary is the season of some month. */
  lemma VocabularyIsCovered(loc: Location, name: string)
    requires name in loc.Vocabulary()
    ensures MonthsOf(loc, name) != {}
  {
    var i :| 0 <= i < 4 && loc.Vocabulary()[i] == name;
    var m := if loc.India? then [1, 3, 6, 10][i] else [1, 3, 6, 9][i];
    assert m in MonthsOf(loc, name);
  }
}
