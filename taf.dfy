/** The `taf` command: one page per terminal aerodrome forecast, holding the
    forecast's own embed followed by one embed per forecast period. */
module TafCommand {
  import opened Wrappers
  import opened Text
  import opened Js
  import opened Embeds
  import opened Delivery

  /** A station as the weather service's station search returns it. */
  datatype TafStation = TafStation(stationId: string, site: string, country: string)

  /** One sky layer of a forecast period. */
  datatype SkyCover = SkyCover(cover: string, cloudBaseFtAgl: Option<int>)

  /** One forecast period; times are rendered as UTC strings and the visibility
      reading converts statute miles to kilometres. */
  datatype Forecast = Forecast(
    timeFrom: string, timeTo: string,
    windDirDegrees: Option<int>, windSpeedKt: Option<int>, windGustKt: Option<int>,
    visibilityMi: Option<Reading>, sky: seq<SkyCover>,
    changeIndicator: Option<string>, wxString: Option<string>)

  /** A forecast record; `sourceUri` is the address of the forecast's own page. */
  datatype Taf = Taf(
    rawText: string, issueTime: string, bulletinTime: string,
    validFrom: string, validTo: string, remarks: Option<string>,
    coord: Coord, elevationM: string, sourceUri: string,
    forecast: seq<Forecast>)

  /** "{site}, {country} ({id})": the title of the forecast's embed. */
  function SiteTitle(s: TafStation): string
  {
    s.site + ", " + s.country + " (" + s.stationId + ")"
  }

  /** The notice for a known station without forecasts. */
  function NoTafMessage(s: TafStation): string
  {
    "Data not available for " + SiteTitle(s)
  }

  /** The five fields every forecast record starts with. */
  function TafHead(t: Taf): seq<Field>
  {
    [Field("Raw Text", t.rawText), Field("Issue Time", t.issueTime),
     Field("Bulletin Time", t.bulletinTime), Field("Valid From", t.validFrom),
     Field("Valid To", t.validTo)]
  }

  /** The forecast's own embed: Raw Text, Issue Time, Bulletin Time, Valid From,
      Valid To, then Remark only when there is one, then Location, Elevation
      and Source. */
  function TafEmbed(s: TafStation, t: Taf): (e: Embed)
    ensures e.title == Some(SiteTitle(s))
    ensures Names(e.fields) == ["Raw Text", "Issue Time", "Bulletin Time", "Valid From", "Valid To"]
      + NameWhen(StrTruthy(t.remarks), "Remark") + ["Location", "Elevation", "Source"]
    ensures e.fields[0] == Field("Raw Text", t.rawText)
    ensures e.fields[|e.fields| - 2] == Field("Elevation", t.elevationM + " meters MSL")
  {
    Embed(Some(SiteTitle(s)),
      TafHead(t)
      + When(StrTruthy(t.remarks), Field("Remark", t.remarks.GetOr("")))
      + [Field("Location", LocationText(t.coord)),
         Field("Elevation", t.elevationM + " meters MSL"),
         Field("Source", "[Aviation Weather](" + t.sourceUri + ")")])
  }

  /** The embed as the handler builds it, one `addFields` call at a time. */
  method BuildTafEmbed(s: TafStation, t: Taf) returns (e: Embed)
    ensures e == TafEmbed(s, t)
  {
    var embed := new EmbedBuilder();
    embed.SetTitle(SiteTitle(s));
    embed.AddField("Raw Text", t.rawText);
    embed.AddField("Issue Time", t.issueTime);
    embed.AddField("Bulletin Time", t.bulletinTime);
    embed.AddField("Valid From", t.validFrom);
    embed.AddField("Valid To", t.validTo);
    assert embed.fields == TafHead(t);
    if StrTruthy(t.remarks) {
      embed.AddField("Remark", t.remarks.value);
    }
    ghost var head := embed.fields;
    assert head == TafHead(t) + When(StrTruthy(t.remarks), Field("Remark", t.remarks.GetOr("")));
    embed.AddField("Location", LocationText(t.coord));
    embed.AddField("Elevation", t.elevationM + " meters MSL");
    embed.AddField("Source", "[Aviation Weather](" + t.sourceUri + ")");
    AppendThree(head, Field("Location", LocationText(t.coord)),
      Field("Elevation", t.elevationM + " meters MSL"), Field("Source", "[Aviation Weather](" + t.sourceUri + ")"));
    e := embed.Build();
  }

  /** "{dir}° {speed}kt", with " (gust {gust}kt)" only when there is a gust. */
  function ForecastWind(fr: Forecast): string
  {
    ShowInt(fr.windDirDegrees) + "° " + ShowInt(fr.windSpeedKt) + "kt"
      + (if IntTruthy(fr.windGustKt) then " (gust " + ShowInt(fr.windGustKt) + "kt)" else "")
  }

  /** One cloud line: "{description} ({cover})", with " at {base} ft" only when
      the layer has a base. `describe` is the weather library's sky-cover table. */
  function CloudLine(layer: SkyCover, describe: string -> string): string
  {
    describe(layer.cover) + " (" + layer.cover + ")"
      + (if IntTruthy(layer.cloudBaseFtAgl) then " at " + ShowInt(layer.cloudBaseFtAgl) + " ft" else "")
  }

  /** The Cloud value: one line per layer, in order. */
  function CloudText(sky: seq<SkyCover>, describe: string -> string): string
  {
    Join(seq(|sky|, i requires 0 <= i < |sky| => CloudLine(sky[i], describe)), '\n')
  }

  /** "Forecast {n} - {site} ({id})", with `n` counted from 1. */
  function ForecastTitle(s: TafStation, i: nat): string
  {
    "Forecast " + NatToString(i + 1) + " - " + s.site + " (" + s.stationId + ")"
  }

  /** Wind (only when there is a direction), Visibility and Cloud (only when
      there is a layer), each only when present. */
  function ForecastConditions(fr: Forecast, describe: string -> string): (o: seq<Field>)
    ensures Names(o) == NameWhen(IntTruthy(fr.windDirDegrees), "Wind")
      + NameWhen(ReadingTruthy(fr.visibilityMi), "Visibility")
      + NameWhen(|fr.sky| > 0, "Cloud")
  {
    When(IntTruthy(fr.windDirDegrees), Field("Wind", ForecastWind(fr)))
    + (if ReadingTruthy(fr.visibilityMi) then [Field("Visibility", MilesText(fr.visibilityMi.value))] else [])
    + When(|fr.sky| > 0, Field("Cloud", CloudText(fr.sky, describe)))
  }

  /** The change indicator and the weather string, each only when present; the
      weather string is also labelled "Change indicator". */
  function ForecastChanges(fr: Forecast): (o: seq<Field>)
    ensures Names(o) == NameWhen(StrTruthy(fr.changeIndicator), "Change indicator")
      + NameWhen(StrTruthy(fr.wxString), "Change indicator")
  {
    When(StrTruthy(fr.changeIndicator), Field("Change indicator", fr.changeIndicator.GetOr("")))
    + When(StrTruthy(fr.wxString), Field("Change indicator", fr.wxString.GetOr("")))
  }

  /** All optional fields of a period, in the handler's order. */
  function ForecastOptional(fr: Forecast, describe: string -> string): (o: seq<Field>)
    ensures Names(o) == NameWhen(IntTruthy(fr.windDirDegrees), "Wind")
      + NameWhen(ReadingTruthy(fr.visibilityMi), "Visibility")
      + NameWhen(|fr.sky| > 0, "Cloud")
      + NameWhen(StrTruthy(fr.changeIndicator), "Change indicator")
      + NameWhen(StrTruthy(fr.wxString), "Change indicator")
  {
    NamesConcat(ForecastConditions(fr, describe), ForecastChanges(fr));
    ForecastConditions(fr, describe) + ForecastChanges(fr)
  }

  /** From and To, the fields every period starts with. */
  function ForecastHead(fr: Forecast): (h: seq<Field>)
    ensures Names(h) == ["From", "To"]
  {
    [Field("From", fr.timeFrom), Field("To", fr.timeTo)]
  }

  /** The embed of the period at index `i`: titled with its 1-based number, From
      and To first, then the optional fields. */
  function ForecastEmbed(s: TafStation, i: nat, fr: Forecast, describe: string -> string): (e: Embed)
    ensures e.title == Some(ForecastTitle(s, i))
    ensures Names(e.fields) == ["From", "To"] + Names(ForecastOptional(fr, describe))
    ensures e.fields[0] == Field("From", fr.timeFrom) && e.fields[1] == Field("To", fr.timeTo)
  {
    var head := ForecastHead(fr);
    var optional := ForecastOptional(fr, describe);
    NamesConcat(head, optional);
    Embed(Some(ForecastTitle(s, i)), head + optional)
  }

  /** The Cloud value as the handler builds it: the mapped layers, joined. */
  method BuildCloudText(sky: seq<SkyCover>, describe: string -> string) returns (text: string)
    ensures text == CloudText(sky, describe)
  {
    var lines: seq<string> := [];
    for k := 0 to |sky|
      invariant lines == seq(k, j requires 0 <= j < k => CloudLine(sky[j], describe))
    {
      lines := lines + [CloudLine(sky[k], describe)];
    }
    text := Join(lines, '\n');
  }

  /** Wind, Visibility and Cloud, appended in the handler's order. */
  method AddConditionFields(embed: EmbedBuilder, fr: Forecast, describe: string -> string)
    modifies embed
    ensures embed.fields == old(embed.fields) + ForecastConditions(fr, describe)
    ensures embed.title == old(embed.title)
  {
    if IntTruthy(fr.windDirDegrees) {
      embed.AddField("Wind", ForecastWind(fr));
    }
    if ReadingTruthy(fr.visibilityMi) {
      embed.AddField("Visibility", MilesText(fr.visibilityMi.value));
    }
    if |fr.sky| > 0 {
      var cloud := BuildCloudText(fr.sky, describe);
      embed.AddField("Cloud", cloud);
    }
  }

  /** The change indicator and the weather string, appended in that order. */
  method AddChangeFields(embed: EmbedBuilder, fr: Forecast)
    modifies embed
    ensures embed.fields == old(embed.fields) + ForecastChanges(fr)
    ensures embed.title == old(embed.title)
  {
    if StrTruthy(fr.changeIndicator) {
      embed.AddField("Change indicator", fr.changeIndicator.value);
    }
    if StrTruthy(fr.wxString) {
      embed.AddField("Change indicator", fr.wxString.value);
    }
  }

  /** The period's embed as the handler builds it. */
  method BuildForecastEmbed(s: TafStation, i: nat, fr: Forecast, describe: string -> string)
    returns (e: Embed)
    ensures e == ForecastEmbed(s, i, fr, describe)
  {
    var embed := new EmbedBuilder();
    embed.SetTitle(ForecastTitle(s, i));
    embed.AddField("From", fr.timeFrom);
    embed.AddField("To", fr.timeTo);
    ghost var head := ForecastHead(fr);
    assert embed.fields == head;
    AddConditionFields(embed, fr, describe);
    AddChangeFields(embed, fr);
    AppendTwoParts(head, ForecastConditions(fr, describe), ForecastChanges(fr));
    e := embed.Build();
  }

  /** A forecast's page: its own embed, then one embed per period in order. */
  function TafPage(s: TafStation, t: Taf, describe: string -> string): (p: Page)
    ensures |p| == 1 + |t.forecast|
    ensures p[0] == TafEmbed(s, t)
    ensures forall i :: 0 <= i < |t.forecast| ==> p[i + 1] == ForecastEmbed(s, i, t.forecast[i], describe)
  {
    var rest := seq(|t.forecast|, i requires 0 <= i < |t.forecast| => ForecastEmbed(s, i, t.forecast[i], describe));
    PageTail(s, t, describe, rest);
    [TafEmbed(s, t)] + rest
  }

  /** The page's embeds after the first are the periods' embeds. */
  lemma PageTail(s: TafStation, t: Taf, describe: string -> string, rest: seq<Embed>)
    requires |rest| == |t.forecast|
    requires forall i :: 0 <= i < |rest| ==> rest[i] == ForecastEmbed(s, i, t.forecast[i], describe)
    ensures forall i :: 0 <= i < |rest| ==> ([TafEmbed(s, t)] + rest)[i + 1] == ForecastEmbed(s, i, t.forecast[i], describe)
  {
    forall i | 0 <= i < |rest|
      ensures ([TafEmbed(s, t)] + rest)[i + 1] == ForecastEmbed(s, i, t.forecast[i], describe)
    {
      ConsShift(TafEmbed(s, t), rest, i);
    }
  }

  /** The page as the handler builds it: the mapped periods after the embed. */
  method BuildTafPage(s: TafStation, t: Taf, describe: string -> string) returns (p: Page)
    ensures p == TafPage(s, t, describe)
  {
    var embed := BuildTafEmbed(s, t);
    ghost var page := TafPage(s, t, describe);
    ghost var target := page[1..];
    var forecasts: seq<Embed> := [];
    for i := 0 to |t.forecast|
      invariant forecasts == target[..i]
    {
      var fe := BuildForecastEmbed(s, i, t.forecast[i], describe);
      TakeStep(target, i);
      forecasts := forecasts + [fe];
    }
    assert target[..|target|] == target && page == [page[0]] + target;
    p := [embed] + forecasts;
  }

  /** One page per forecast record, in the order received. */
  function TafPages(s: TafStation, response: seq<Taf>, describe: string -> string): (pages: seq<Page>)
    ensures |pages| == |response|
    ensures forall i :: 0 <= i < |response| ==> pages[i] == TafPage(s, response[i], describe)
  {
    seq(|response|, i requires 0 <= i < |response| => TafPage(s, response[i], describe))
  }

  /** One menu label per record, with its issue time. */
  function TafLabels(response: seq<Taf>): (labels: seq<string>)
    ensures |labels| == |response|
    ensures forall i :: 0 <= i < |response| ==> labels[i] == MenuLabel(response[i].issueTime)
  {
    MenuLabels(seq(|response|, i requires 0 <= i < |response| => response[i].issueTime))
  }

  /** `handler`. `stationResponse` is what the station search returns for `icao`
      and `tafResponse` what the forecast search returns for the station found;
      `queries` are the searches sent, in order. No station: the invalid-code
      notice with the support links, and no forecast search. No forecast: the
      "Data not available for {site}, {country} ({id})" notice with the support
      links. Otherwise one page per record, delivered by count, with "End - n"
      as the last menu label. */
  method Handler(icao: string, hourBefore: Option<real>, stationResponse: seq<TafStation>,
                 tafResponse: seq<Taf>, describe: string -> string)
    returns (queries: seq<Query>, reply: Reply)
    ensures |queries| >= 1 && queries[0] == Query(StationsSource, Some(icao), None)
    ensures |stationResponse| == 0 ==>
      queries == [Query(StationsSource, Some(icao), None)] && reply == Send(TextMessage(InvalidICAOMessage, true))
    ensures |stationResponse| > 0 ==>
      queries == [Query(StationsSource, Some(icao), None),
                  Query(TafsSource, Some(stationResponse[0].stationId), Some(FixHour(hourBefore, MaxHours)))]
    ensures |stationResponse| > 0 && |tafResponse| == 0 ==>
      reply == Send(TextMessage(NoTafMessage(stationResponse[0]), true))
    ensures |stationResponse| > 0 && |tafResponse| > 0 ==>
      reply == Deliver(TafPages(stationResponse[0], tafResponse, describe), TafLabels(tafResponse),
                       Some(EndLabel(|tafResponse|)))
  {
    var hours := FixHour(hourBefore, MaxHours);
    queries := [Query(StationsSource, Some(icao), None)];
    if |stationResponse| == 0 {
      reply := Send(TextMessage(InvalidICAOMessage, true));
      return;
    }
    var station := stationResponse[0];
    queries := queries + [Query(TafsSource, Some(station.stationId), Some(hours))];
    if |tafResponse| == 0 {
      reply := Send(TextMessage(NoTafMessage(station), true));
      return;
    }
    ghost var target := TafPages(station, tafResponse, describe);
    var pages: seq<Page> := [];
    for i := 0 to |tafResponse|
      invariant pages == target[..i]
    {
      var page := BuildTafPage(station, tafResponse[i], describe);
      TakeStep(target, i);
      pages := pages + [page];
    }
    assert target[..|target|] == target;
    reply := Deliver(pages, TafLabels(tafResponse), Some(EndLabel(|pages|)));
  }

  /** The text command: without a code it only sends the usage syntax and
      sends no search; with one it answers as `handler` does. */
  method SimpleTaf(icao: Option<string>, hourBefore: Option<real>, stationResponse: seq<TafStation>,
                   tafResponse: seq<Taf>, describe: string -> string)
    returns (queries: seq<Query>, reply: Reply)
    ensures !StrTruthy(icao) ==> queries == [] && reply == Usage
    ensures StrTruthy(icao) && |stationResponse| == 0 ==>
      queries == [Query(StationsSource, icao, None)] && reply == Send(TextMessage(InvalidICAOMessage, true))
    ensures StrTruthy(icao) && |stationResponse| > 0 ==>
      queries == [Query(StationsSource, icao, None),
                  Query(TafsSource, Some(stationResponse[0].stationId), Some(FixHour(hourBefore, MaxHours)))]
    ensures StrTruthy(icao) && |stationResponse| > 0 && |tafResponse| == 0 ==>
      reply == Send(TextMessage(NoTafMessage(stationResponse[0]), true))
    ensures StrTruthy(icao) && |stationResponse| > 0 && |tafResponse| > 0 ==>
      reply == Deliver(TafPages(stationResponse[0], tafResponse, describe), TafLabels(tafResponse),
                       Some(EndLabel(|tafResponse|)))
  {
    if !StrTruthy(icao) {
      queries := [];
      reply := Usage;
    } else {
      queries, reply := Handler(icao.value, hourBefore, stationResponse, tafResponse, describe);
    }
  }

  /** The forecast's page is delivered whole: with a single record, the direct
      reply carries the forecast's embed and every period's embed. */
  lemma SingleRecordPage(s: TafStation, t: Taf, describe: string -> string)
    ensures var r := Deliver(TafPages(s, [t], describe), TafLabels([t]), Some(EndLabel(1)));
      r.Send? && r.message.EmbedMessage? && |r.message.embeds| == 1 + |t.forecast|
      && r.message.embeds[0] == TafEmbed(s, t)
  {
  }
}
