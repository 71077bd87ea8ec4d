/** The station directory: exact ICAO lookup (`getICAO`) and the shaping of
    the ranked autocomplete results (`searchICAO`). */
module Stations {
  import opened Wrappers
  import opened Text
  import opened Embeds

  /** A station of the directory. `state` and `wmoId` may be missing or empty;
      `elev` is the elevation as printed. */
  datatype Station = Station(
    icaoId: string, site: string, country: string,
    state: Option<string>, wmoId: Option<string>,
    coord: Coord, elev: string)

  /** An autocomplete suggestion: the text shown and the value submitted. */
  datatype Choice = Choice(name: string, value: string)

  /** Discord accepts at most 25 suggestions; the bot sends at most 24. */
  const MaxSuggestions: nat := 24

  /** Codes compared as `getICAO` compares them, ignoring case. */
  predicate SameCode(a: string, b: string)
  {
    Lower(a) == Lower(b)
  }

  /** `getICAO`: the first station whose code equals `code` ignoring case;
      `None` exactly when there is none. */
  function GetICAO(stations: seq<Station>, code: string): (r: Option<Station>)
    ensures r.None? <==> forall i :: 0 <= i < |stations| ==> !SameCode(stations[i].icaoId, code)
    ensures r.Some? ==> exists i :: (
              && 0 <= i < |stations| && stations[i] == r.value
              && SameCode(stations[i].icaoId, code)
              && forall j :: 0 <= j < i ==> !SameCode(stations[j].icaoId, code))
  {
    if |stations| == 0 then None
    else if SameCode(stations[0].icaoId, code) then Some(stations[0])
    else
      var r := GetICAO(stations[1..], code);
      assert forall i :: 1 <= i < |stations| ==> stations[i] == stations[1..][i - 1];
      r
  }

  /** Codes that differ only in the case of their letters find the same station. */
  lemma {:induction false} LookupIgnoresCase(stations: seq<Station>, a: string, b: string)
    requires Lower(a) == Lower(b)
    ensures GetICAO(stations, a) == GetICAO(stations, b)
  {
    if |stations| > 0 {
      LookupIgnoresCase(stations[1..], a, b);
    }
  }

  /** The suggestion for one ranked station: "{site} ({icaoId})", submitting the code. */
  function StationChoice(s: Station): Choice
  {
    Choice(s.site + " (" + s.icaoId + ")", s.icaoId)
  }

  /** `searchICAO` in the station directory: the first 24 ranked results, in
      rank order, each as its suggestion. */
  function StationSuggestions(ranked: seq<Station>): (r: seq<Choice>)
    ensures |r| == Min(|ranked|, MaxSuggestions) <= MaxSuggestions
    ensures forall i :: 0 <= i < |r| ==> r[i] == StationChoice(ranked[i])
  {
    var list := ranked[..Min(|ranked|, MaxSuggestions)];
    seq(|list|, i requires 0 <= i < |list| => StationChoice(list[i]))
  }

  /** Every code the autocomplete offers is one `getICAO` finds again, as long
      as the ranking ranks stations of the directory. */
  lemma SuggestionResolves(stations: seq<Station>, ranked: seq<Station>, i: nat)
    requires forall k :: 0 <= k < |ranked| ==> ranked[k] in stations
    requires i < |StationSuggestions(ranked)|
    ensures var found := GetICAO(stations, StationSuggestions(ranked)[i].value);
      found.Some? && SameCode(found.value.icaoId, ranked[i].icaoId)
  {
    var code := StationSuggestions(ranked)[i].value;
    assert code == ranked[i].icaoId;
    var k :| 0 <= k < |stations| && stations[k] == ranked[i];
    assert SameCode(stations[k].icaoId, code);
  }
}
