/** What every command handler shares: the hours-before-now clamp, the queries
    sent to the weather service, the recorded reply, and the choice between a
    direct reply, button pagination and menu pagination. */
module Delivery {
  import opened Wrappers
  import opened Text
  import opened Embeds

  /** The largest hours-before-now the current handlers accept. */
  const MaxHours: real := 72.0

  /** The hours-before-now actually queried: the given value when it is present
      and within [1, `maxHours`], and 1 otherwise (missing, zero, `NaN` and out of
      range alike). Older handlers used a `maxHours` of 48. */
  function FixHour(hourBefore: Option<real>, maxHours: real): (h: real)
    ensures 1.0 <= h
    ensures maxHours >= 1.0 ==> h <= maxHours
    ensures hourBefore.Some? && 1.0 <= hourBefore.value <= maxHours ==> h == hourBefore.value
    ensures !(hourBefore.Some? && 1.0 <= hourBefore.value <= maxHours) ==> h == 1.0
  {
    if hourBefore.None? || hourBefore.value == 0.0 || hourBefore.value < 1.0 || hourBefore.value > maxHours
    then 1.0
    else hourBefore.value
  }

  /** Fixing an already fixed value changes nothing. */
  lemma FixHourIdempotent(hourBefore: Option<real>, maxHours: real)
    requires maxHours >= 1.0
    ensures FixHour(Some(FixHour(hourBefore, maxHours)), maxHours) == FixHour(hourBefore, maxHours)
  {
  }

  /** The data sets of the weather service. */
  datatype Datasource =
    | StationsSource | MetarsSource | TafsSource | AirSigmetsSource | GAirmetsSource | AircraftReportsSource

  /** A request to the weather service. */
  datatype Query = Query(datasource: Datasource, station: Option<string>, hoursBeforeNow: Option<real>)

  /** The notice for an unknown station code (sent with the support links). */
  const InvalidICAOMessage: string :=
    "> Looks like an invalid ICAO code. If the bot does not display information for valid ICAO codes, raise an issue on github."

  /** The notice for an empty advisory result. */
  const DataNotFound: string := "Data not available for search query"

  /** A message: plain text (with or without the row of support links), or embeds. */
  datatype Message = TextMessage(content: string, supportRow: bool) | EmbedMessage(embeds: seq<Embed>)

  /** One page of a paginated reply: the embeds shown together. */
  type Page = seq<Embed>

  /** The reply a command sends. `Resolved` is pagination whose pages are
      produced on demand by a resolver; it records what the resolver answers
      for each page number below the pagination's length, in order. */
  datatype Reply =
    | Usage
    | Send(message: Message)
    | Buttons(pages: seq<Page>)
    | Menu(pages: seq<Page>, labels: seq<string>, endLabel: Option<string>)
    | Resolved(resolved: seq<Message>)

  /** A menu entry label; "{page}" is filled in by the pagination library. */
  function MenuLabel(time: string): string
  {
    "Page {page} - " + time
  }

  /** One menu label per page, made from that page's time, in order. */
  function MenuLabels(times: seq<string>): (labels: seq<string>)
    ensures |labels| == |times|
    ensures forall i :: 0 <= i < |times| ==> labels[i] == MenuLabel(times[i])
  {
    seq(|times|, i requires 0 <= i < |times| => MenuLabel(times[i]))
  }

  /** The menu label of the last page. */
  function EndLabel(count: nat): string
  {
    "End - " + NatToString(count)
  }

  /** The delivery choice: one page is sent directly, up to five pages get
      buttons, six or more get a select menu with the given labels. Every page
      is delivered, in order. */
  function Deliver(pages: seq<Page>, labels: seq<string>, endLabel: Option<string>): (r: Reply)
    ensures r.Send? <==> |pages| == 1
    ensures r.Buttons? <==> |pages| != 1 && |pages| < 6
    ensures r.Menu? <==> |pages| >= 6
    ensures r.Send? ==> r.message == EmbedMessage(pages[0])
    ensures r.Buttons? || r.Menu? ==> r.pages == pages
    ensures r.Menu? ==> r.labels == labels && r.endLabel == endLabel
  {
    if |pages| == 1 then Send(EmbedMessage(pages[0]))
    else if |pages| < 6 then Buttons(pages)
    else Menu(pages, labels, endLabel)
  }

  /** The advisory commands' menu: six pages get six labels and "End - 6". */
  lemma SixPagesMenu(pages: seq<Page>, times: seq<string>)
    requires |pages| == 6 && |times| == 6
    ensures var r := Deliver(pages, seq(6, i requires 0 <= i < 6 => MenuLabel(times[i])), Some(EndLabel(6)));
      r.Menu? && |r.labels| == 6 && r.endLabel == Some("End - 6")
  {
    assert DigitChar(6) == '6';
    assert EndLabel(6) == "End - 6";
  }
}
