/** The `station` command: one embed describing a station of the directory. */
module StationCommand {
  import opened Wrappers
  import opened Text
  import opened Js
  import opened Embeds
  import opened Stations
  import opened Delivery

  /** "{site}, {country} ({icaoId})". */
  function StationTitle(s: Station): string
  {
    s.site + ", " + s.country + " (" + s.icaoId + ")"
  }

  /** The station embed. Its fields are, in order: WMO Id (only when the station
      has one), Location, State (only when it has one), Country, Elevation and
      Source; so there are four to six of them. */
  function StationEmbed(s: Station): (e: Embed)
    ensures e.title == Some(StationTitle(s))
    ensures Names(e.fields) == NameWhen(StrTruthy(s.wmoId), "WMO Id") + ["Location"]
      + NameWhen(StrTruthy(s.state), "State") + ["Country", "Elevation", "Source"]
    ensures |e.fields| == 4 + (if StrTruthy(s.wmoId) then 1 else 0) + (if StrTruthy(s.state) then 1 else 0)
    ensures 4 <= |e.fields| <= 6
  {
    Embed(Some(StationTitle(s)),
      When(StrTruthy(s.wmoId), Field("WMO Id", s.wmoId.GetOr("")))
      + [Field("Location", LocationText(s.coord))]
      + When(StrTruthy(s.state), Field("State", s.state.GetOr("")))
      + [Field("Country", s.country),
         Field("Elevation", s.elev + " meters MSL"),
         Field("Source", "[Aviation Weather](https://aviationweather.gov)")])
  }

  /** The embed as the handler builds it, one `addFields` call at a time. */
  method BuildStationEmbed(s: Station) returns (e: Embed)
    ensures e == StationEmbed(s)
  {
    var embed := new EmbedBuilder();
    embed.SetTitle(StationTitle(s));
    ghost var wmo := When(StrTruthy(s.wmoId), Field("WMO Id", s.wmoId.GetOr("")));
    ghost var state := When(StrTruthy(s.state), Field("State", s.state.GetOr("")));
    if StrTruthy(s.wmoId) {
      embed.AddField("WMO Id", s.wmoId.value);
    }
    assert embed.fields == wmo;
    embed.AddField("Location", LocationText(s.coord));
    if StrTruthy(s.state) {
      embed.AddField("State", s.state.value);
    }
    ghost var head := embed.fields;
    assert head == wmo + [Field("Location", LocationText(s.coord))] + state;
    embed.AddField("Country", s.country);
    embed.AddField("Elevation", s.elev + " meters MSL");
    embed.AddField("Source", "[Aviation Weather](https://aviationweather.gov)");
    AppendThree(head, Field("Country", s.country), Field("Elevation", s.elev + " meters MSL"),
      Field("Source", "[Aviation Weather](https://aviationweather.gov)"));
    e := embed.Build();
  }

  /** `handler`: an unknown code gets the invalid-code notice with the support
      links and nothing else; a known one gets exactly one embed. */
  method Handler(stations: seq<Station>, icao: string) returns (reply: Reply)
    ensures GetICAO(stations, icao).None? ==> reply == Send(TextMessage(InvalidICAOMessage, true))
    ensures GetICAO(stations, icao).Some? ==> reply == Send(EmbedMessage([StationEmbed(GetICAO(stations, icao).value)]))
  {
    var station := GetICAO(stations, icao);
    if station.None? {
      reply := Send(TextMessage(InvalidICAOMessage, true));
      return;
    }
    var embed := BuildStationEmbed(station.value);
    reply := Send(EmbedMessage([embed]));
  }

  /** The text command: without a code it only sends the usage syntax;
      with one it answers as `handler` does. */
  method SimpleStation(stations: seq<Station>, icao: Option<string>) returns (reply: Reply)
    ensures !StrTruthy(icao) ==> reply == Usage
    ensures StrTruthy(icao) && GetICAO(stations, icao.value).None? ==> reply == Send(TextMessage(InvalidICAOMessage, true))
    ensures StrTruthy(icao) && GetICAO(stations, icao.value).Some? ==>
      reply == Send(EmbedMessage([StationEmbed(GetICAO(stations, icao.value).value)]))
  {
    if !StrTruthy(icao) {
      reply := Usage;
    } else {
      reply := Handler(stations, icao.value);
    }
  }
}
