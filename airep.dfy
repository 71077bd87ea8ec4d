/** The `airep` command: one page per aircraft weather report. */
module AirepCommand {
  import opened Wrappers
  import opened Text
  import opened Js
  import opened Embeds
  import opened Delivery

  /** An aircraft report. Times are rendered as UTC strings; `tempC` converts to
      Fahrenheit and `visibilityMi` (printed with two decimals) to kilometres;
      `sourceUri` is the address of the report's own page. */
  datatype Airep = Airep(
    aircraftRef: string, rawText: Option<string>,
    observationTime: string, receiptTime: string,
    windDirDegrees: Option<int>, windSpeedKt: Option<int>, vertGustKt: Option<int>,
    altitudeFtMsl: Option<int>, tempC: Option<Reading>, visibilityMi: Option<Reading>,
    coord: Coord, sourceUri: string)

  /** "{direction}° {speed}kt", with " (gust {gust}kt)" only when there is a gust. */
  function WindText(r: Airep): string
  {
    ShowInt(r.windDirDegrees) + "° " + ShowInt(r.windSpeedKt) + "kt"
      + (if IntTruthy(r.vertGustKt) then " (gust " + ShowInt(r.vertGustKt) + "kt)" else "")
  }

  /** The fields that every report has, before the optional ones. */
  function AirepHead(r: Airep): (h: seq<Field>)
    ensures Names(h) == ["Raw Text", "Observation Time", "Receipt Time", "Wind"]
    ensures h[0].value == r.rawText.GetOr("Unavailable") && h[3] == Field("Wind", WindText(r))
  {
    [Field("Raw Text", r.rawText.GetOr("Unavailable")),
     Field("Observation Time", r.observationTime),
     Field("Receipt Time", r.receiptTime),
     Field("Wind", WindText(r))]
  }

  /** Altimeter, Temperature and Visibility, each only when present and not zero. */
  function AirepOptional(r: Airep): (o: seq<Field>)
    ensures Names(o) == NameWhen(IntTruthy(r.altitudeFtMsl), "Altimeter")
      + NameWhen(ReadingTruthy(r.tempC), "Temperature")
      + NameWhen(ReadingTruthy(r.visibilityMi), "Visibility")
  {
    When(IntTruthy(r.altitudeFtMsl), Field("Altimeter", ShowInt(r.altitudeFtMsl) + " ft MSL"))
    + (if ReadingTruthy(r.tempC) then [Field("Temperature", CelsiusText(r.tempC.value))] else [])
    + (if ReadingTruthy(r.visibilityMi) then [Field("Visibility", MilesText(r.visibilityMi.value))] else [])
  }

  /** The report's embed, titled "Report from {aircraft}": Raw Text ("Unavailable"
      when the report has none), Observation Time, Receipt Time and Wind always;
      Altimeter, Temperature and Visibility only when present and not zero;
      Location and Source last. */
  function AirepEmbed(r: Airep): (e: Embed)
    ensures e.title == Some("Report from " + r.aircraftRef)
    ensures Names(e.fields) == ["Raw Text", "Observation Time", "Receipt Time", "Wind"]
      + NameWhen(IntTruthy(r.altitudeFtMsl), "Altimeter")
      + NameWhen(ReadingTruthy(r.tempC), "Temperature")
      + NameWhen(ReadingTruthy(r.visibilityMi), "Visibility")
      + ["Location", "Source"]
    ensures e.fields[0].value == (if r.rawText.Some? then r.rawText.value else "Unavailable")
    ensures e.fields[3] == Field("Wind", WindText(r))
  {
    var tail := [Field("Location", LocationText(r.coord)),
                 Field("Source", "[Aviation Weather](" + r.sourceUri + ")")];
    NamesConcat(AirepHead(r), AirepOptional(r));
    NamesConcat(AirepHead(r) + AirepOptional(r), tail);
    AppendThreeParts(["Raw Text", "Observation Time", "Receipt Time", "Wind"],
      NameWhen(IntTruthy(r.altitudeFtMsl), "Altimeter"), NameWhen(ReadingTruthy(r.tempC), "Temperature"),
      NameWhen(ReadingTruthy(r.visibilityMi), "Visibility"));
    Embed(Some("Report from " + r.aircraftRef), AirepHead(r) + AirepOptional(r) + tail)
  }

  /** The optional fields, appended in the handler's order. */
  method AddOptionalFields(embed: EmbedBuilder, r: Airep)
    modifies embed
    ensures embed.fields == old(embed.fields) + AirepOptional(r)
    ensures embed.title == old(embed.title)
  {
    if IntTruthy(r.altitudeFtMsl) {
      embed.AddField("Altimeter", ShowInt(r.altitudeFtMsl) + " ft MSL");
    }
    if ReadingTruthy(r.tempC) {
      embed.AddField("Temperature", CelsiusText(r.tempC.value));
    }
    if ReadingTruthy(r.visibilityMi) {
      embed.AddField("Visibility", MilesText(r.visibilityMi.value));
    }
  }

  /** The embed as the handler builds it, one `addField` call at a time. */
  method BuildAirepEmbed(r: Airep) returns (e: Embed)
    ensures e == AirepEmbed(r)
  {
    var embed := new EmbedBuilder();
    embed.SetTitle("Report from " + r.aircraftRef);
    embed.AddField("Raw Text", r.rawText.GetOr("Unavailable"));
    embed.AddField("Observation Time", r.observationTime);
    embed.AddField("Receipt Time", r.receiptTime);
    embed.AddField("Wind", WindText(r));
    assert embed.fields == AirepHead(r);
    AddOptionalFields(embed, r);
    embed.AddField("Location", LocationText(r.coord));
    embed.AddField("Source", "[Aviation Weather](" + r.sourceUri + ")");
    e := embed.Build();
  }

  /** One single-embed page per report, in the order received. */
  function AirepPages(response: seq<Airep>): (pages: seq<Page>)
    ensures |pages| == |response|
    ensures forall i :: 0 <= i < |response| ==> pages[i] == [AirepEmbed(response[i])]
  {
    seq(|response|, i requires 0 <= i < |response| => [AirepEmbed(response[i])])
  }

  /** One menu label per report: "Page {page} - {aircraft} - {observation time}". */
  function AirepLabels(response: seq<Airep>): (labels: seq<string>)
    ensures |labels| == |response|
    ensures forall i :: 0 <= i < |response| ==>
      labels[i] == "Page {page} - " + response[i].aircraftRef + " - " + response[i].observationTime
  {
    seq(|response|, i requires 0 <= i < |response| =>
      MenuLabel(response[i].aircraftRef + " - " + response[i].observationTime))
  }

  /** `airep`, with `response` what the weather service returns for the query.
      The hours are clamped into [1, 72]; no report gives the "Data not
      available for search query" follow-up; otherwise every report becomes a
      page and the pages are delivered by count, with no end label in menu mode. */
  method Handler(hourBefore: Option<real>, response: seq<Airep>) returns (query: Query, reply: Reply)
    ensures query == Query(AircraftReportsSource, None, Some(FixHour(hourBefore, MaxHours)))
    ensures |response| == 0 ==> reply == Send(TextMessage("Data not available for search query", false))
    ensures |response| > 0 ==> reply == Deliver(AirepPages(response), AirepLabels(response), None)
  {
    var hours := FixHour(hourBefore, MaxHours);
    query := Query(AircraftReportsSource, None, Some(hours));
    if |response| == 0 {
      reply := Send(TextMessage("Data not available for search query", false));
      return;
    }
    ghost var target := AirepPages(response);
    var pages: seq<Page> := [];
    for i := 0 to |response|
      invariant pages == target[..i]
    {
      var embed := BuildAirepEmbed(response[i]);
      TakeStep(target, i);
      pages := pages + [[embed]];
    }
    assert target[..|target|] == target;
    reply := Deliver(pages, AirepLabels(response), None);
  }
}
