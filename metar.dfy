/** The `metar` command: the latest routine weather reports of a directory
    station, one embed per report. */
module MetarCommand {
  import opened Wrappers
  import opened Text
  import opened Js
  import opened Embeds
  import opened Stations
  import opened Wind
  import opened Visibility
  import opened Delivery
  import opened StationCommand

  /** A cloud layer: its cover code and its base in feet above ground. */
  datatype Cloud = Cloud(cover: string, base: Option<int>)

  /** The visibility as reported: a number (with its JavaScript rendering) or
      a text such as "10+". */
  datatype Visib = VisNumber(value: real, text: string) | VisText(s: string)

  /** A report. `altim` is the altimeter in millibars, rendered with two
      decimals, converted to inches of mercury; `temp` and `dewp` are in
      degrees Celsius, rendered as printed, converted to Fahrenheit; `slp` is
      the sea-level pressure as printed. */
  datatype Metar = Metar(
    rawOb: string, clouds: seq<Cloud>,
    wdir: Option<int>, wspd: Option<int>,
    altim: Option<Reading>, slp: Option<string>,
    temp: Option<Reading>, dewp: Option<Reading>,
    visib: Option<Visib>, elev: string, coord: Coord)

  /** Whether the visibility is truthy: present and not zero or empty. */
  predicate VisTruthy(v: Option<Visib>)
  {
    match v
    case None => false
    case Some(VisNumber(x, _)) => x != 0.0
    case Some(VisText(s)) => s != ""
  }

  /** `String(visib)`. */
  function VisString(v: Visib): string
  {
    match v
    case VisNumber(_, text) => text
    case VisText(s) => s
  }

  /** The note closing every report. */
  const DeveloperNote: string := "||Please open a GitHub issue for the corrections. Thank you.||"

  /** One cloud line: "{sky description} ({cover})", with " at {base} ft AGL"
      only when the layer has a base. */
  function CloudLine(table: seq<SkyCondition>, c: Cloud): string
  {
    GetSky(table, c.cover) + " (" + c.cover + ")"
      + (if IntTruthy(c.base) then " at " + ShowInt(c.base) + " ft AGL" else "")
  }

  /** The lines of the Clouds value, one per layer in order. */
  function CloudLines(table: seq<SkyCondition>, clouds: seq<Cloud>): (lines: seq<string>)
    ensures |lines| == |clouds|
    ensures forall i :: 0 <= i < |clouds| ==> lines[i] == CloudLine(table, clouds[i])
  {
    seq(|clouds|, i requires 0 <= i < |clouds| => CloudLine(table, clouds[i]))
  }

  /** The wind speed in miles per hour: the knots times 1.15078, to the
      nearest whole mile per hour, halves rounding up as `Math.round` does. */
  function MilesPerHour(knots: int): (mph: int)
    ensures mph as real - 0.5 <= knots as real * 1.15078 < mph as real + 0.5
  {
    JsRound(knots as real * 1.15078)
  }

  /** 10 knots are 11.5078 miles per hour, which rounds up to 12. */
  lemma MilesPerHourExample()
    ensures MilesPerHour(10) == 12
  {
  }

  /** "from the {compass point} ({wdir} degrees) at {mph} MPH ({wspd} knots)". */
  function WindsText(wdir: int, wspd: int): string
  {
    "from the " + DegreesToDirection(wdir) + " (" + IntToString(wdir) + " degrees) at "
      + IntToString(MilesPerHour(wspd)) + " MPH (" + IntToString(wspd) + " knots)"
  }

  /** "{inHg} inches Hg ({mb} mb) [Sea level pressure: {slp} mb]", with "-"
      for a missing sea-level pressure. */
  function PressureText(altim: Reading, slp: Option<string>): string
  {
    altim.converted + " inches Hg (" + altim.text + " mb) [Sea level pressure: " + slp.GetOr("-") + " mb]"
  }

  /** A 10-knot wind from 90 degrees reads East at 12 MPH. */
  lemma WindsExample()
    ensures WindsText(90, 10)
      == "from the " + "East" + " (" + "90" + " degrees) at " + "12" + " MPH (" + "10" + " knots)"
  {
    Cardinals(1);
    WindsNumerals();
  }

  /** The numbers of that example, written out. */
  lemma WindsNumerals()
    ensures IntToString(90) == "90" && IntToString(10) == "10"
    ensures IntToString(MilesPerHour(10)) == "12"
  {
    MilesPerHourExample();
    DigitPair(9, 0);
    DigitPair(1, 0);
    DigitPair(1, 2);
    assert NatToString(9) == "9" && NatToString(0) == "0";
    assert NatToString(1) == "1" && NatToString(2) == "2";
  }

  /** A two-digit number is written as its two digits. */
  lemma DigitPair(tens: nat, units: nat)
    requires 1 <= tens <= 9 && units <= 9
    ensures NatToString(10 * tens + units) == NatToString(tens) + NatToString(units)
    ensures |NatToString(tens)| == 1 && |NatToString(units)| == 1
  {
  }

  /** The inches of mercury come first; the text ends with the sea-level
      pressure, or "-" when it is missing, and " mb]". */
  lemma PressureReading(altim: Reading, slp: Option<string>)
    ensures var p := PressureText(altim, slp); var sea := slp.GetOr("-") + " mb]";
      && |p| >= |altim.converted| + |sea|
      && p[..|altim.converted|] == altim.converted
      && p[|p| - |sea|..] == sea
    ensures slp.None? ==> var p := PressureText(altim, slp); p[|p| - 5..] == "- mb]"
  {
    var sea := slp.GetOr("-") + " mb]";
    var head := altim.converted + " inches Hg (" + altim.text + " mb) [Sea level pressure: ";
    assert PressureText(altim, slp) == head + sea;
    assert (head + sea)[..|altim.converted|] == head[..|altim.converted|];
    assert (head + sea)[|head|..] == sea;
  }

  /** The Winds text names the compass point of the direction first and ends
      with the speed in knots. */
  lemma WindsReading(wdir: int, wspd: int)
    ensures var w := WindsText(wdir, wspd);
      var head := "from the " + DegreesToDirection(wdir) + " (" + IntToString(wdir) + " degrees) at ";
      var knots := IntToString(wspd) + " knots)";
      && |w| >= |head| + |knots|
      && w[..|head|] == head
      && w[|w| - |knots|..] == knots
  {
    var dir, deg, mph, kt := DegreesToDirection(wdir), IntToString(wdir), IntToString(MilesPerHour(wspd)), IntToString(wspd);
    var head := "from the " + dir + " (" + deg + " degrees) at ";
    var mid := mph + " MPH (";
    var knots := kt + " knots)";
    assert WindsText(wdir, wspd) == head + mid + knots;
    OuterParts(head, mid, knots);
  }

  /** The first and the last of three concatenated parts. */
  lemma OuterParts<T>(a: seq<T>, b: seq<T>, c: seq<T>)
    ensures |a + b + c| >= |a| + |c|
    ensures (a + b + c)[..|a|] == a && (a + b + c)[|a + b + c| - |c|..] == c
  {
  }

  /** "{t}°C ({t}°F) - Dewpoint: {d}°C ({d}°F)". */
  function TemperatureText(temp: Reading, dewp: Reading): string
  {
    CelsiusText(temp) + " - Dewpoint: " + CelsiusText(dewp)
  }

  /** The temperature in both scales comes first, the dewpoint in both scales
      last, after " - Dewpoint: ". */
  lemma TemperatureReading(temp: Reading, dewp: Reading)
    ensures var t := TemperatureText(temp, dewp); var dew := " - Dewpoint: " + CelsiusText(dewp);
      && |t| == |CelsiusText(temp)| + |dew|
      && t[..|CelsiusText(temp)|] == CelsiusText(temp)
      && t[|CelsiusText(temp)|..] == dew
  {
    var dew := " - Dewpoint: " + CelsiusText(dewp);
    assert TemperatureText(temp, dewp) == CelsiusText(temp) + dew;
  }

  /** The temperature, then the dewpoint, each in both scales. */
  lemma TemperatureExample()
    ensures TemperatureText(Reading(20.0, "20", "68.00"), Reading(10.0, "10", "50.00"))
      == ("20" + "°C (" + "68.00" + "°F)") + " - Dewpoint: " + ("10" + "°C (" + "50.00" + "°F)")
  {
  }

  /** Clouds (only when there is a layer) and Winds (only when both direction
      and speed are present and not zero). */
  function SkyFields(table: seq<SkyCondition>, m: Metar): (fs: seq<Field>)
    ensures Names(fs) == NameWhen(|m.clouds| > 0, "Clouds")
      + NameWhen(IntTruthy(m.wdir) && IntTruthy(m.wspd), "Winds")
  {
    When(|m.clouds| > 0, Field("Clouds", Join(CloudLines(table, m.clouds), '\n')))
    + (if IntTruthy(m.wdir) && IntTruthy(m.wspd)
       then [Field("Winds", WindsText(m.wdir.value, m.wspd.value))] else [])
  }

  /** Pressure (only with an altimeter reading), Temperature (only when both
      temperature and dewpoint are present and not zero) and Visibility (only
      when it is present and not zero or empty). */
  function AirFields(m: Metar, fmt: NumberFormat): (fs: seq<Field>)
    ensures Names(fs) == NameWhen(ReadingTruthy(m.altim), "Pressure (Altimeter)")
      + NameWhen(ReadingTruthy(m.temp) && ReadingTruthy(m.dewp), "Temperature")
      + NameWhen(VisTruthy(m.visib), "Visibility")
  {
    var pressure := PressureField(m);
    var temperature := TemperatureField(m);
    var visibility := VisibilityField(m, fmt);
    NamesConcat(pressure, temperature);
    NamesConcat(pressure + temperature, visibility);
    pressure + temperature + visibility
  }

  function PressureField(m: Metar): (fs: seq<Field>)
    ensures Names(fs) == NameWhen(ReadingTruthy(m.altim), "Pressure (Altimeter)")
  {
    if ReadingTruthy(m.altim) then [Field("Pressure (Altimeter)", PressureText(m.altim.value, m.slp))] else []
  }

  function TemperatureField(m: Metar): (fs: seq<Field>)
    ensures Names(fs) == NameWhen(ReadingTruthy(m.temp) && ReadingTruthy(m.dewp), "Temperature")
  {
    if ReadingTruthy(m.temp) && ReadingTruthy(m.dewp)
    then [Field("Temperature", TemperatureText(m.temp.value, m.dewp.value))] else []
  }

  function VisibilityField(m: Metar, fmt: NumberFormat): (fs: seq<Field>)
    ensures Names(fs) == NameWhen(VisTruthy(m.visib), "Visibility")
  {
    if VisTruthy(m.visib) then [Field("Visibility", ConvertVisibilityInput(VisString(m.visib.value), fmt))] else []
  }

  /** The four fields every report ends with. */
  function MetarTail(m: Metar): (fs: seq<Field>)
    ensures Names(fs) == ["Elevation", "Location", "Source", "Developer Note"]
  {
    [Field("Elevation", m.elev + " meters MSL"),
     Field("Location", LocationText(m.coord)),
     Field("Source", "[Aviation Weather](https://aviationweather.gov)"),
     Field("Developer Note", DeveloperNote)]
  }

  /** Raw Text followed by the optional fields. */
  function MetarHead(m: Metar, table: seq<SkyCondition>, fmt: NumberFormat): (h: seq<Field>)
    ensures |h| >= 1 && h[0] == Field("Raw Text", m.rawOb)
  {
    [Field("Raw Text", m.rawOb)] + SkyFields(table, m) + AirFields(m, fmt)
  }

  lemma MetarHeadNames(m: Metar, table: seq<SkyCondition>, fmt: NumberFormat)
    ensures Names(MetarHead(m, table, fmt)) == ["Raw Text"] + Names(SkyFields(table, m)) + Names(AirFields(m, fmt))
  {
    var raw := [Field("Raw Text", m.rawOb)];
    var sky := SkyFields(table, m);
    var air := AirFields(m, fmt);
    assert MetarHead(m, table, fmt) == raw + sky + air;
    assert Names(raw) == ["Raw Text"];
    NamesConcatThree(raw, sky, air);
  }

  /** Concatenation regrouped, for the field-name lists. */
  lemma Regroup<T>(r: seq<T>, a: seq<T>, b: seq<T>, c: seq<T>, d: seq<T>, e: seq<T>, t: seq<T>)
    ensures r + (a + b) + (c + d + e) + t == r + a + b + c + d + e + t
  {
  }

  /** `GetMetarEmbed`: titled like the station; Raw Text always first; then the
      optional Clouds, Winds, Pressure, Temperature and Visibility; and always
      Elevation, Location, Source and Developer Note last, in that order.
      `table` is the sky-condition table and `fmt` the number formatting the
      visibility conversion uses. */
  function MetarEmbed(s: Station, m: Metar, table: seq<SkyCondition>, fmt: NumberFormat): (e: Embed)
    ensures e.title == Some(StationTitle(s))
    ensures Names(e.fields) == ["Raw Text"]
      + NameWhen(|m.clouds| > 0, "Clouds")
      + NameWhen(IntTruthy(m.wdir) && IntTruthy(m.wspd), "Winds")
      + NameWhen(ReadingTruthy(m.altim), "Pressure (Altimeter)")
      + NameWhen(ReadingTruthy(m.temp) && ReadingTruthy(m.dewp), "Temperature")
      + NameWhen(VisTruthy(m.visib), "Visibility")
      + ["Elevation", "Location", "Source", "Developer Note"]
    ensures e.fields[0] == Field("Raw Text", m.rawOb)
    ensures |e.fields| >= 5 && e.fields[|e.fields| - 4..] == MetarTail(m)
  {
    var head := MetarHead(m, table, fmt);
    var tail := MetarTail(m);
    MetarHeadNames(m, table, fmt);
    NamesConcat(head, tail);
    HeadAndTail(head, tail);
    Regroup(["Raw Text"],
      NameWhen(|m.clouds| > 0, "Clouds"), NameWhen(IntTruthy(m.wdir) && IntTruthy(m.wspd), "Winds"),
      NameWhen(ReadingTruthy(m.altim), "Pressure (Altimeter)"),
      NameWhen(ReadingTruthy(m.temp) && ReadingTruthy(m.dewp), "Temperature"),
      NameWhen(VisTruthy(m.visib), "Visibility"),
      ["Elevation", "Location", "Source", "Developer Note"]);
    Embed(Some(StationTitle(s)), head + tail)
  }

  /** The Clouds value as the handler builds it: the mapped layers, joined. */
  method BuildCloudText(table: seq<SkyCondition>, clouds: seq<Cloud>) returns (text: string)
    ensures text == Join(CloudLines(table, clouds), '\n')
  {
    var lines: seq<string> := [];
    for k := 0 to |clouds|
      invariant lines == CloudLines(table, clouds[..k])
    {
      assert clouds[..k + 1] == clouds[..k] + [clouds[k]];
      lines := lines + [CloudLine(table, clouds[k])];
    }
    assert clouds[..|clouds|] == clouds;
    text := Join(lines, '\n');
  }

  /** Clouds and Winds, appended in the handler's order. */
  method AddSkyFields(embed: EmbedBuilder, table: seq<SkyCondition>, m: Metar)
    modifies embed
    ensures embed.fields == old(embed.fields) + SkyFields(table, m)
    ensures embed.title == old(embed.title)
  {
    if |m.clouds| > 0 {
      var cloudInfo := BuildCloudText(table, m.clouds);
      embed.AddField("Clouds", cloudInfo);
    }
    if IntTruthy(m.wdir) && IntTruthy(m.wspd) {
      embed.AddField("Winds", WindsText(m.wdir.value, m.wspd.value));
    }
  }

  /** Pressure, Temperature and Visibility, appended in the handler's order. */
  method AddAirFields(embed: EmbedBuilder, m: Metar, fmt: NumberFormat)
    modifies embed
    ensures embed.fields == old(embed.fields) + AirFields(m, fmt)
    ensures embed.title == old(embed.title)
  {
    ghost var start := embed.fields;
    ghost var pressure := if ReadingTruthy(m.altim)
      then [Field("Pressure (Altimeter)", PressureText(m.altim.value, m.slp))] else [];
    ghost var temperature := if ReadingTruthy(m.temp) && ReadingTruthy(m.dewp)
      then [Field("Temperature", TemperatureText(m.temp.value, m.dewp.value))] else [];
    ghost var visibility := if VisTruthy(m.visib)
      then [Field("Visibility", ConvertVisibilityInput(VisString(m.visib.value), fmt))] else [];
    if ReadingTruthy(m.altim) {
      embed.AddField("Pressure (Altimeter)", PressureText(m.altim.value, m.slp));
    }
    assert embed.fields == start + pressure;
    if ReadingTruthy(m.temp) && ReadingTruthy(m.dewp) {
      embed.AddField("Temperature", TemperatureText(m.temp.value, m.dewp.value));
    }
    assert embed.fields == start + pressure + temperature;
    if VisTruthy(m.visib) {
      embed.AddField("Visibility", ConvertVisibilityInput(VisString(m.visib.value), fmt));
    }
    assert embed.fields == start + pressure + temperature + visibility;
    AppendThreeParts(start, pressure, temperature, visibility);
  }

  /** The embed as `GetMetarEmbed` builds it, one `addFields` call at a time. */
  method BuildMetarEmbed(s: Station, m: Metar, table: seq<SkyCondition>, fmt: NumberFormat)
    returns (e: Embed)
    ensures e == MetarEmbed(s, m, table, fmt)
  {
    var embed := new EmbedBuilder();
    embed.SetTitle(StationTitle(s));
    embed.AddField("Raw Text", m.rawOb);
    assert embed.fields == [Field("Raw Text", m.rawOb)];
    AddSkyFields(embed, table, m);
    AddAirFields(embed, m, fmt);
    ghost var head := embed.fields;
    assert head == MetarHead(m, table, fmt);
    embed.AddField("Elevation", m.elev + " meters MSL");
    embed.AddField("Location", LocationText(m.coord));
    embed.AddField("Source", "[Aviation Weather](https://aviationweather.gov)");
    embed.AddField("Developer Note", DeveloperNote);
    AppendFour(head, Field("Elevation", m.elev + " meters MSL"), Field("Location", LocationText(m.coord)),
      Field("Source", "[Aviation Weather](https://aviationweather.gov)"), Field("Developer Note", DeveloperNote));
    e := embed.Build();
  }

  /** The pagination resolver `getPage`: the report's embed for a page number
      that has a report, the bare "Data not available" text for any other. */
  function ResolvePage(s: Station, data: seq<Metar>, page: int, table: seq<SkyCondition>, fmt: NumberFormat)
    : (msg: Message)
    ensures 0 <= page < |data| ==> msg == EmbedMessage([MetarEmbed(s, data[page], table, fmt)])
    ensures !(0 <= page < |data|) ==> msg == TextMessage("Data not available", false)
  {
    if 0 <= page < |data| then EmbedMessage([MetarEmbed(s, data[page], table, fmt)])
    else TextMessage("Data not available", false)
  }

  /** What the resolver answers for every page number the pagination offers. */
  function ResolvedPages(s: Station, data: seq<Metar>, table: seq<SkyCondition>, fmt: NumberFormat)
    : (msgs: seq<Message>)
    ensures |msgs| == |data|
    ensures forall i :: 0 <= i < |data| ==> msgs[i] == ResolvePage(s, data, i, table, fmt)
  {
    seq(|data|, i requires 0 <= i < |data| => ResolvePage(s, data, i, table, fmt))
  }

  /** The notice for a known station without reports. */
  function NoMetarMessage(s: Station): string
  {
    "Data not available for " + StationTitle(s)
  }

  /** `handler`. `data` is what the report service returns for the query. An
      unknown code: the invalid-code notice with the support links, and no
      query. Otherwise one query for the station's code and the clamped hours;
      no report: the "Data not available for {site}, {country} ({icaoId})"
      notice with the support links; one report: its embed, sent directly; more:
      pagination over exactly as many pages as there are reports. */
  method Handler(stations: seq<Station>, icao: string, hourBefore: Option<real>, data: seq<Metar>,
                 table: seq<SkyCondition>, fmt: NumberFormat)
    returns (query: Option<Query>, reply: Reply)
    ensures GetICAO(stations, icao).None? ==> query == None && reply == Send(TextMessage(InvalidICAOMessage, true))
    ensures GetICAO(stations, icao).Some? ==> var s := GetICAO(stations, icao).value;
      && query == Some(Query(MetarsSource, Some(s.icaoId), Some(FixHour(hourBefore, MaxHours))))
      && (|data| == 0 ==> reply == Send(TextMessage(NoMetarMessage(s), true)))
      && (|data| == 1 ==> reply == Send(EmbedMessage([MetarEmbed(s, data[0], table, fmt)])))
      && (|data| >= 2 ==> reply == Resolved(ResolvedPages(s, data, table, fmt)))
  {
    var hours := FixHour(hourBefore, MaxHours);
    var station := GetICAO(stations, icao);
    if station.None? {
      query := None;
      reply := Send(TextMessage(InvalidICAOMessage, true));
      return;
    }
    var s := station.value;
    query := Some(Query(MetarsSource, Some(s.icaoId), Some(hours)));
    if |data| == 0 {
      reply := Send(TextMessage(NoMetarMessage(s), true));
      return;
    }
    if |data| == 1 {
      var embed := BuildMetarEmbed(s, data[0], table, fmt);
      reply := Send(EmbedMessage([embed]));
      return;
    }
    reply := Resolved(ResolvedPages(s, data, table, fmt));
  }

  /** The text command: without a code it only sends the usage syntax and
      never reaches `handler`; with one it answers as `handler` does. */
  method SimpleMetar(stations: seq<Station>, icao: Option<string>, hourBefore: Option<real>, data: seq<Metar>,
                     table: seq<SkyCondition>, fmt: NumberFormat)
    returns (query: Option<Query>, reply: Reply)
    ensures !StrTruthy(icao) ==> query == None && reply == Usage
    ensures StrTruthy(icao) && GetICAO(stations, icao.value).None? ==>
      query == None && reply == Send(TextMessage(InvalidICAOMessage, true))
    ensures StrTruthy(icao) && GetICAO(stations, icao.value).Some? ==> var s := GetICAO(stations, icao.value).value;
      && query == Some(Query(MetarsSource, Some(s.icaoId), Some(FixHour(hourBefore, MaxHours))))
      && (|data| == 0 ==> reply == Send(TextMessage(NoMetarMessage(s), true)))
      && (|data| == 1 ==> reply == Send(EmbedMessage([MetarEmbed(s, data[0], table, fmt)])))
      && (|data| >= 2 ==> reply == Resolved(ResolvedPages(s, data, table, fmt)))
  {
    if !StrTruthy(icao) {
      query := None;
      reply := Usage;
    } else {
      query, reply := Handler(stations, icao.value, hourBefore, data, table, fmt);
    }
  }

  /** Every page the paginated reply can show has its report: the resolver
      never falls back for a page below the pagination's length. */
  lemma PagesResolve(s: Station, data: seq<Metar>, table: seq<SkyCondition>, fmt: NumberFormat, page: nat)
    requires |data| >= 2 && page < |data|
    ensures var msg := ResolvedPages(s, data, table, fmt)[page];
      && msg.EmbedMessage? && |msg.embeds| == 1
      && msg.embeds[0].title == Some(StationTitle(s))
      && msg.embeds[0].fields[0] == Field("Raw Text", data[page].rawOb)
  {
  }

  /** A sky description with no line break. */
  lemma {:induction false} GetSkyAvoids(table: seq<SkyCondition>, cover: string, c: char)
    requires c != '-'
    requires forall i :: 0 <= i < |table| ==> c !in table[i].description
    ensures c !in GetSky(table, cover)
  {
    if |table| > 0 && Lower(table[0].code) != Lower(cover) {
      GetSkyAvoids(table[1..], cover, c);
    }
  }

  /** The Clouds value has exactly one line per layer, each that layer's line,
      provided no cover code or sky description holds a line break. */
  lemma CloudsOneLinePerLayer(table: seq<SkyCondition>, clouds: seq<Cloud>)
    requires |clouds| >= 1
    requires forall i :: 0 <= i < |table| ==> '\n' !in table[i].description
    requires forall i :: 0 <= i < |clouds| ==> '\n' !in clouds[i].cover
    ensures Split(Join(CloudLines(table, clouds), '\n'), '\n') == CloudLines(table, clouds)
    ensures |Split(Join(CloudLines(table, clouds), '\n'), '\n')| == |clouds|
  {
    var lines := CloudLines(table, clouds);
    forall i | 0 <= i < |lines|
      ensures '\n' !in lines[i]
    {
      CloudLineAvoids(table, clouds[i]);
    }
    SplitJoin(lines, '\n');
  }

  /** A layer's line holds no line break when neither its cover nor any sky
      description does. */
  lemma CloudLineAvoids(table: seq<SkyCondition>, c: Cloud)
    requires forall i :: 0 <= i < |table| ==> '\n' !in table[i].description
    requires '\n' !in c.cover
    ensures '\n' !in CloudLine(table, c)
  {
    GetSkyAvoids(table, c.cover, '\n');
    if IntTruthy(c.base) {
      var digits := NatToString(if c.base.value < 0 then -c.base.value else c.base.value);
      assert '\n' !in digits;
    }
  }
}
