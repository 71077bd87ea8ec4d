/** The `gairmet` command: one page per G-AIRMET advisory. */
module GAirmetCommand {
  import opened Wrappers
  import opened Text
  import opened Js
  import opened Embeds
  import opened Delivery
  import opened PointFields

  /** A G-AIRMET advisory; the times are already rendered as UTC strings, and
      the altitude bounds are missing when the advisory has no altitude. */
  datatype GAirmet = GAirmet(
    receiptTime: string, issueTime: string, expireTime: string, validTime: string,
    minFtMsl: Option<int>, maxFtMsl: Option<int>,
    points: seq<Point>)

  /** The fields before the points. */
  function GAirmetHead(r: GAirmet, sourceUri: string): seq<Field>
  {
    [Field("Receipt Time", r.receiptTime), Field("Issue Time", r.issueTime),
     Field("Expire Time", r.expireTime), Field("Valid Time", r.validTime)]
    + When(IntTruthy(r.minFtMsl), Field("Minimum altitude", ShowInt(r.minFtMsl) + " ft MSL"))
    + When(IntTruthy(r.maxFtMsl), Field("Maximum altitude", ShowInt(r.maxFtMsl) + " ft MSL"))
    + [Field("Source", "[Aviation Weather](" + sourceUri + ")")]
  }

  /** The advisory's embed: the four times in the order Receipt, Issue, Expire,
      Valid; then the minimum and the maximum altitude, each only when it is
      present and not zero; then Source; then the "Points" fields. */
  function GAirmetEmbed(r: GAirmet, sourceUri: string): (e: Embed)
    ensures e.title == None
    ensures Names(e.fields) == ["Receipt Time", "Issue Time", "Expire Time", "Valid Time"]
      + NameWhen(IntTruthy(r.minFtMsl), "Minimum altitude")
      + NameWhen(IntTruthy(r.maxFtMsl), "Maximum altitude")
      + ["Source"] + Names(PointsFields(r.points))
    ensures e.fields[|e.fields| - |PointsFields(r.points)|..] == PointsFields(r.points)
  {
    var head := GAirmetHead(r, sourceUri);
    NamesConcat(head, PointsFields(r.points));
    Embed(None, head + PointsFields(r.points))
  }

  /** The embed as the handler builds it, one `addField` call at a time. */
  method BuildGAirmetEmbed(r: GAirmet, sourceUri: string) returns (e: Embed)
    ensures e == GAirmetEmbed(r, sourceUri)
  {
    var embed := new EmbedBuilder();
    embed.AddField("Receipt Time", r.receiptTime);
    embed.AddField("Issue Time", r.issueTime);
    embed.AddField("Expire Time", r.expireTime);
    embed.AddField("Valid Time", r.validTime);
    AppendFour([], Field("Receipt Time", r.receiptTime), Field("Issue Time", r.issueTime),
      Field("Expire Time", r.expireTime), Field("Valid Time", r.validTime));
    ghost var times := embed.fields;
    ghost var min := When(IntTruthy(r.minFtMsl), Field("Minimum altitude", ShowInt(r.minFtMsl) + " ft MSL"));
    ghost var max := When(IntTruthy(r.maxFtMsl), Field("Maximum altitude", ShowInt(r.maxFtMsl) + " ft MSL"));
    if IntTruthy(r.minFtMsl) {
      embed.AddField("Minimum altitude", ShowInt(r.minFtMsl) + " ft MSL");
    }
    assert embed.fields == times + min;
    if IntTruthy(r.maxFtMsl) {
      embed.AddField("Maximum altitude", ShowInt(r.maxFtMsl) + " ft MSL");
    }
    assert embed.fields == times + min + max;
    embed.AddField("Source", "[Aviation Weather](" + sourceUri + ")");
    assert embed.fields == GAirmetHead(r, sourceUri) && embed.title == None;
    AddPointsFields(embed, r.points);
    e := embed.Build();
  }

  /** One single-embed page per advisory, in the order received. */
  function GAirmetPages(response: seq<GAirmet>, sourceUri: string): (pages: seq<Page>)
    ensures |pages| == |response|
    ensures forall i :: 0 <= i < |response| ==> pages[i] == [GAirmetEmbed(response[i], sourceUri)]
  {
    seq(|response|, i requires 0 <= i < |response| => [GAirmetEmbed(response[i], sourceUri)])
  }

  /** One menu label per advisory, with its issue time. */
  function GAirmetLabels(response: seq<GAirmet>): (labels: seq<string>)
    ensures |labels| == |response|
    ensures forall i :: 0 <= i < |response| ==> labels[i] == MenuLabel(response[i].issueTime)
  {
    MenuLabels(seq(|response|, i requires 0 <= i < |response| => response[i].issueTime))
  }

  /** `handler`, with `response` what the weather service returns for the query
      and `sourceUri` the address of the G-AIRMET page. The hours are clamped
      into [1, 72]; no advisory gives the data-not-found notice; otherwise
      every advisory becomes a page and the pages are delivered by count, with
      an "End - n" label in menu mode. */
  method Handler(hourBefore: Option<real>, sourceUri: string, response: seq<GAirmet>)
    returns (query: Query, reply: Reply)
    ensures query == Query(GAirmetsSource, None, Some(FixHour(hourBefore, MaxHours)))
    ensures |response| == 0 ==> reply == Send(TextMessage(DataNotFound, false))
    ensures |response| > 0 ==>
      reply == Deliver(GAirmetPages(response, sourceUri), GAirmetLabels(response), Some(EndLabel(|response|)))
  {
    var hours := FixHour(hourBefore, MaxHours);
    query := Query(GAirmetsSource, None, Some(hours));
    if |response| == 0 {
      reply := Send(TextMessage(DataNotFound, false));
      return;
    }
    ghost var target := GAirmetPages(response, sourceUri);
    var pages: seq<Page> := [];
    for i := 0 to |response|
      invariant pages == target[..i]
    {
      var embed := BuildGAirmetEmbed(response[i], sourceUri);
      TakeStep(target, i);
      pages := pages + [[embed]];
    }
    assert target[..|target|] == target;
    reply := Deliver(pages, GAirmetLabels(response), Some(EndLabel(|pages|)));
  }
}
