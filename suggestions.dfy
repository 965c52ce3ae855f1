/** Place search: the query-length gate, the outcome of a geocoding request
    and the suggestion entries built from its results. */
module Suggestions {
  import opened Text
  import opened PlaceLabel

  datatype Option<T> = None | Some(value: T)

  /** One geocoding result. The region (`admin1`) and the country may be
      absent from the response. */
  datatype GeoResult = GeoResult(
    name: string, admin1: Option<string>, country: Option<string>,
    latitude: real, longitude: real)

  /** What a suggestion entry carries: the coordinates and place metadata
      that a click hands to the weather fetch, and the sub-line it shows
      under the name. */
  datatype Suggestion = Suggestion(
    latitude: real, longitude: real, name: string,
    country: string, admin: string, subText: string)

  /** How the geocoding request ended: a parsed response, whose `results`
      may be absent, or a thrown error (transport or parse failure). */
  datatype SearchOutcome = SearchResponded(results: Option<seq<GeoResult>>) | SearchThrew

  /** Queries shorter than this (in UTF-16 code units) are not sent. */
  const MinQueryLength: nat := 2

  /** Whether a query is long enough to be sent to the geocoding service. */
  predicate LongEnough(query: string)
    ensures LongEnough(query) <==> |query| >= 2 || (|query| == 1 && query[0] as int >= 0x1_0000)
  {
    Utf16LengthBelowTwo(query);
    Utf16Length(query) >= MinQueryLength
  }

  /** `value || ''` on an optional string: absent and empty both give "". */
  function OrEmpty(o: Option<string>): (r: string)
    ensures r == "" <==> o == None || o == Some("")
    ensures o.Some? && o.value != "" ==> r == o.value
  {
    match o
    case None => ""
    case Some(s) => s
  }

  /** The entry for one result. */
  function ToSuggestion(g: GeoResult): (r: Suggestion)
    ensures r.subText == "" <==> (g.admin1 == None || g.admin1 == Some(""))
                                 && (g.country == None || g.country == Some(""))
  {
    var country := OrEmpty(g.country);
    var admin1 := OrEmpty(g.admin1);
    Suggestion(g.latitude, g.longitude, g.name, country, admin1, SubText(admin1, country))
  }

  /** `locations.map(...)`: one entry per result, in result order, each
      carrying that result's coordinates and metadata. */
  function SuggestionList(results: seq<GeoResult>): (r: seq<Suggestion>)
    ensures |r| == |results|
    ensures forall i :: 0 <= i < |results| ==>
              && r[i].latitude == results[i].latitude
              && r[i].longitude == results[i].longitude
              && r[i].name == results[i].name
              && r[i].country == OrEmpty(results[i].country)
              && r[i].admin == OrEmpty(results[i].admin1)
              && r[i].subText == SubText(OrEmpty(results[i].admin1), OrEmpty(results[i].country))
  {
    if results == [] then [] else [ToSuggestion(results[0])] + SuggestionList(results[1..])
  }

  /** The suggestion list after a search for `query` that ended with
      `outcome`: a short query clears the list without asking anything; a
      response with a non-empty `results` list shows one entry per result;
      absent or empty results and a thrown error clear the list. */
  function SearchSuggestions(query: string, outcome: SearchOutcome): (r: seq<Suggestion>)
    ensures !LongEnough(query) ==> r == []
    ensures r != [] <==> LongEnough(query) && outcome.SearchResponded? && outcome.results.Some?
                         && outcome.results.value != []
    ensures r != [] ==> r == SuggestionList(outcome.results.value)
  {
    if !LongEnough(query) then []
    else match outcome
      case SearchThrew => []
      case SearchResponded(None) => []
      case SearchResponded(Some(results)) => if |results| > 0 then SuggestionList(results) else []
  }
}
