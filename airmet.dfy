/** The `airmet` command: one page per AIRMET/SIGMET advisory. */
module AirmetCommand {
  import opened Wrappers
  import opened Text
  import opened Js
  import opened Embeds
  import opened Delivery
  import opened PointFields

  /** An AIRMET/SIGMET advisory; the validity times are rendered as UTC
      strings, and `sourceUri` is the address of the advisory's own page. */
  datatype Airmet = Airmet(
    rawText: string, validFrom: string, validTo: string,
    minFtMsl: Option<int>, maxFtMsl: Option<int>,
    sourceUri: string, points: seq<Point>)

  /** The fields before the points. */
  function AirmetHead(r: Airmet): seq<Field>
  {
    [Field("Raw text", r.rawText), Field("From", r.validFrom), Field("To", r.validTo)]
    + When(IntTruthy(r.minFtMsl), Field("Minimum altitude", ShowInt(r.minFtMsl) + " ft MSL"))
    + When(IntTruthy(r.maxFtMsl), Field("Maximum altitude", ShowInt(r.maxFtMsl) + " ft MSL"))
    + [Field("Source", "[Aviation Weather](" + r.sourceUri + ")")]
  }

  /** The advisory's embed: Raw text, From and To; then the minimum and the
      maximum altitude, each only when present and not zero; then Source;
      then the "Points" fields. */
  function AirmetEmbed(r: Airmet): (e: Embed)
    ensures e.title == None
    ensures Names(e.fields) == ["Raw text", "From", "To"]
      + NameWhen(IntTruthy(r.minFtMsl), "Minimum altitude")
      + NameWhen(IntTruthy(r.maxFtMsl), "Maximum altitude")
      + ["Source"] + Names(PointsFields(r.points))
    ensures e.fields[|e.fields| - |PointsFields(r.points)|..] == PointsFields(r.points)
  {
    var head := AirmetHead(r);
    NamesConcat(head, PointsFields(r.points));
    Embed(None, head + PointsFields(r.points))
  }

  /** The embed as the handler builds it, one `addField` call at a time. */
  method BuildAirmetEmbed(r: Airmet) returns (e: Embed)
    ensures e == AirmetEmbed(r)
  {
    var embed := new EmbedBuilder();
    embed.AddField("Raw text", r.rawText);
    embed.AddField("From", r.validFrom);
    embed.AddField("To", r.validTo);
    AppendThree([], Field("Raw text", r.rawText), Field("From", r.validFrom), Field("To", r.validTo));
    ghost var times := embed.fields;
    ghost var min := When(IntTruthy(r.minFtMsl), Field("Minimum altitude", ShowInt(r.minFtMsl) + " ft MSL"));
    ghost var max := When(IntTruthy(r.maxFtMsl), Field("Maximum altitude", ShowInt(r.maxFtMsl) + " ft MSL"));
    if IntTruthy(r.minFtMsl) {
      embed.AddField("Minimum altitude", ShowInt(r.minFtMsl) + " ft MSL");
    }
    assert embed.fields == times + min;
    if IntTruthy(r.maxFtMsl) {
      embed.AddField("Maximum altitude", ShowInt(r.maxFtMsl) + " ft MSL");
    }
    assert embed.fields == times + min + max;
    embed.AddField("Source", "[Aviation Weather](" + r.sourceUri + ")");
    assert embed.fields == AirmetHead(r) && embed.title == None;
    AddPointsFields(embed, r.points);
    e := embed.Build();
  }

  /** One single-embed page per advisory, in the order received. */
  function AirmetPages(response: seq<Airmet>): (pages: seq<Page>)
    ensures |pages| == |response|
    ensures forall i :: 0 <= i < |response| ==> pages[i] == [AirmetEmbed(response[i])]
  {
    seq(|response|, i requires 0 <= i < |response| => [AirmetEmbed(response[i])])
  }

  /** One menu label per advisory, with the start of its validity. */
  function AirmetLabels(response: seq<Airmet>): (labels: seq<string>)
    ensures |labels| == |response|
    ensures forall i :: 0 <= i < |response| ==> labels[i] == MenuLabel(response[i].validFrom)
  {
    MenuLabels(seq(|response|, i requires 0 <= i < |response| => response[i].validFrom))
  }

  /** `handler`, with `response` what the weather service returns for the
      query. The hours are clamped into [1, 72]; no advisory gives the
      data-not-found notice; otherwise every advisory becomes a page and the
      pages are delivered by count, with an "End - n" label in menu mode. */
  method Handler(hourBefore: Option<real>, response: seq<Airmet>) returns (query: Query, reply: Reply)
    ensures query == Query(AirSigmetsSource, None, Some(FixHour(hourBefore, MaxHours)))
    ensures |response| == 0 ==> reply == Send(TextMessage(DataNotFound, false))
    ensures |response| > 0 ==>
      reply == Deliver(AirmetPages(response), AirmetLabels(response), Some(EndLabel(|response|)))
  {
    var hours := FixHour(hourBefore, MaxHours);
    query := Query(AirSigmetsSource, None, Some(hours));
    if |response| == 0 {
      reply := Send(TextMessage(DataNotFound, false));
      return;
    }
    ghost var target := AirmetPages(response);
    var pages: seq<Page> := [];
    for i := 0 to |response|
      invariant pages == target[..i]
    {
      var embed := BuildAirmetEmbed(response[i]);
      TakeStep(target, i);
      pages := pages + [[embed]];
    }
    assert target[..|target|] == target;
    reply := Deliver(pages, AirmetLabels(response), Some(EndLabel(|pages|)));
  }
}
