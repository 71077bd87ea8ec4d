# aviationx in Dafny

aviationx is a Discord bot that answers aviation-weather commands. The bot
offers these commands:

- `metar` gives routine weather reports.
- `taf` gives terminal aerodrome forecasts.
- `station` gives details of a station.
- `airep` gives aircraft reports.
- `gairmet` gives G-AIRMET advisories.
- `airmet` gives AIRMET/SIGMET advisories.

Each handler does the following:

1. It clamps the "hours before now" option (`station` has none).
2. `station`, `metar` and `taf` look up the station; `airep`, `gairmet` and `airmet` cover an area and look up none.
3. It short-circuits with a notice when the station or the data is missing.
4. `taf`, `airep`, `gairmet` and `airmet` build one page per record. A page is one embed (a titled list of named fields), except for `taf`: its page holds the forecast's embed followed by one embed per forecast period.
5. Those four choose how to deliver the pages: one page is sent directly, two to five get buttons, six or more get a select menu.

Two handlers deliver differently:

- `metar` sends a single report's embed directly. For two or more reports it hands the pagination a resolver, which builds each report's embed on demand; there is no split between buttons and a menu.
- `station` has no records: it always sends the one embed of the station it found.

This project models that core:

- the handlers and their embed builders;
- the station lookup and the two autocomplete shapers;
- the chunking helper;
- the text helpers (`numSpoke`, `degreesToDirection`, `getSky`, `convertVisibilityInput`).

It then proves what a user of the bot is promised. Each modelled thing has this shape:

- **Records.** Each record the weather service returns is a `datatype`. Remote data is an input sequence.
- **Handlers.** A handler returns a `Reply` value together with the queries it would send. It does not talk to Discord.
- **Builders.** Embed construction is a sequence of `AddField`/`SetTitle` calls on the `Embeds.EmbedBuilder` class. Each builder method is proved equal to a specification function. That function states the field names, their order and when each optional field is present.
- **JavaScript semantics.** These are written out explicitly:
  - truthiness of optional numbers and strings;
  - `${undefined}` rendering as "undefined";
  - `%` truncating toward zero;
  - `Math.round` rounding half up;
  - `Number(c)` treating a blank as 0;
  - `.` in a regular expression not matching line terminators;
  - `trim` removing JavaScript white space.

Modules follow the source files:

| module | file |
|---|---|
| `Chunk` | `src/commands/utils/chunk.ts` |
| `NumWords` | `src/utils/num2word.ts` |
| `Wind` | `src/utils/wind.ts` |
| `Visibility` | `src/utils/visibility.ts` |
| `Stations` | `src/utils/stations.ts` |
| `RemoteSearch` | `src/utils/common.ts` |
| `StationCommand` | `src/commands/station.cmd.ts` |
| `MetarCommand` | `src/commands/metar.cmd.ts` |
| `TafCommand` | `src/commands/taf.cmd.ts` |
| `AirepCommand` | `src/commands/airep.cmd.ts` |
| `GAirmetCommand` | `src/aviationx/gairmet.cmd.ts` |
| `AirmetCommand` | `src/aviationx/airmet.cmd.ts` |

Shared pieces live in four modules:

- `Delivery` holds the hour clamp, the notices, the `Reply` type and the delivery choice.
- `Embeds` holds the fields, the embeds and the builder.
- `PointFields` holds the chunked "Points" fields of the advisories.
- `Text` and `Js` hold the string and JavaScript helpers.

## Model

| member | source | states |
|---|---|---|
| Chunk.SplitToBulks | src/commands/utils/chunk.ts:1-7 | the loop builds exactly `Bulks(arr, size)`: ceil(n/size) slices `[i*size, (i+1)*size)` |
| Chunk.BulkCount | src/commands/utils/chunk.ts:3 | there are ceil(n/size) bulks, they cover n without a spare bulk, and there are none exactly when the list is empty |
| Chunk.BulkSizes | src/commands/utils/chunk.ts:4 | every bulk is non-empty and at most `size` long, all but the last are exactly `size`, and bulk i is `arr[i*size..min((i+1)*size, n)]` |
| Chunk.FlattenPrefix | src/commands/utils/chunk.ts:3-5 | the first k bulks concatenated are the first min(k*size, n) elements |
| Chunk.FlattenBulks | src/commands/utils/chunk.ts:1-7 | concatenating the bulks gives back the input: nothing lost, duplicated or reordered |
| Chunk.EightyFivePoints | src/aviationx/gairmet.cmd.ts:104-105 | 85 points chunked by 40 give bulks of 40, 40 and 5 |
| NumWords.Num2Word | src/utils/num2word.ts:24-26 | the table word for an integer 0..19, "invalid" for anything else (including NaN) |
| NumWords.SpokenChar | src/utils/num2word.ts:32-36 | a digit becomes its word, any other non-blank character "point"; never "invalid", never empty, never containing a space |
| NumWords.NumSpoke | src/utils/num2word.ts:28-38 | the spoken form is empty exactly when the rendered number is, and starts with the word of its first character; the full word list is stated by NumSpokeWords |
| NumWords.NumSpokeWords | src/utils/num2word.ts:28-38 | splitting the spoken form at spaces gives one word per character of the rendered number, each that character's word, none of them "invalid" |
| NumWords.SpokenTwelve | src/utils/num2word.ts:28-38 | 12 is spoken "one two" |
| NumWords.SpokenZero | src/utils/num2word.ts:28-38 | 0 is spoken "zero" |
| NumWords.SpokenThree | src/utils/num2word.ts:28-38 | a three-character rendering is spoken as its three characters' words separated by single spaces |
| NumWords.SpokenDecimal | src/utils/num2word.ts:28-38 | 1.5 is spoken "one point five" |
| Wind.JsRem | src/utils/wind.ts:25 | JavaScript `%`: the remainder has the sign of the dividend and a magnitude below the divisor |
| Wind.JsRound | src/utils/wind.ts:28 | `Math.round`: the integer within half a unit of x, halves rounding up |
| Wind.NormalizeDegrees | src/utils/wind.ts:24-25 | the double remainder lands in [0, 360) and equals the mathematical residue mod 360 |
| Wind.BucketIndex | src/utils/wind.ts:28 | for a normalised bearing the rounded sector index is (4n+45) div 90 and always indexes the 17-entry table |
| Wind.DegreesToDirection | src/utils/wind.ts:3-31 | the result is the table entry of the rounded sector and never the "-" fallback |
| Wind.SameResidue | src/utils/wind.ts:24-30 | bearings with the same residue mod 360 name the same direction |
| Wind.FullTurn | src/utils/wind.ts:24-30 | adding or removing a full turn does not change the direction |
| Wind.Cardinals | src/utils/wind.ts:4-30 | every multiple of 90 degrees, negative ones and full turns included (0, 90, 180, 270, 360, -90, …), names North, East, South and West in turn |
| Wind.NearlyFullTurn | src/utils/wind.ts:21-30 | bearings 349..359 (and the same bearings minus a full turn) round up to the repeated "North" |
| Wind.NorthSector | src/utils/wind.ts:21-30 | every bearing from -11 to 11 degrees reads "North" |
| Wind.NorthSectorEdges | src/utils/wind.ts:21-30 | 12 degrees reads "North-Northeast" and -12 degrees "North-Northwest" |
| Wind.GetSky | src/utils/wind.ts:33-38 | the description of the first entry whose code equals the cover ignoring case, "-" when there is none |
| Visibility.ConvertToKilometers | src/utils/visibility.ts:2-9 | "N/A" when the input does not parse as a number, otherwise the parsed miles times 1.60934 to two decimals |
| Visibility.WithUnits | src/utils/visibility.ts:27 | no contract of its own; UnitsAround states its shape |
| Visibility.UnitsAround | src/utils/visibility.ts:27 | the text comes first, unchanged, then " sm (", the kilometres of that same text, and " km)" |
| Visibility.ConvertVisibilityInput | src/utils/visibility.ts:11-30 | a trimmed input ending in "+" has it replaced by " or more", one ending in "-" by " or less", and any other input is kept untrimmed; then the units " sm (… km)" are added, converting the rewritten text |
| Visibility.SuffixRewrite | src/utils/visibility.ts:17-24 | with a "+" or "-" suffix, the output starts with the trimmed input minus its suffix |
| Visibility.OrMoreExample | src/utils/visibility.ts:18-20 | "10+" becomes "10 or more" with its units |
| Visibility.OrLessExample | src/utils/visibility.ts:15-23 | " 3- " is trimmed and becomes "3 or less" with its units |
| Stations.GetICAO | src/utils/stations.ts:28-30 | `None` exactly when no station code matches ignoring case; otherwise the first matching station |
| Stations.LookupIgnoresCase | src/utils/stations.ts:29 | codes that differ only in ASCII case find the same station |
| Stations.StationSuggestions | src/utils/stations.ts:16-23 | at most 24 suggestions, the ranked stations' first ones in order, each named "site (icaoId)" with the code as value |
| Stations.SuggestionResolves | src/utils/stations.ts:20-30 | submitting a suggestion's value finds, by `getICAO`, a station with that code |
| RemoteSearch.BracketCode | src/utils/common.ts:26 | a code found means the item is "[" + code + "]" + rest, the code holding no "]" (the lazy match stops at the first one) and no line terminator |
| RemoteSearch.RemoteChoice | src/utils/common.ts:24-27 | the suggestion is named by the item unchanged and carries its bracket code, or the search text when it has none |
| RemoteSearch.BracketCodeOf | src/utils/common.ts:26 | an item "[code]…" yields code when code has no "]" and no line terminator |
| RemoteSearch.NoBracketNoCode | src/utils/common.ts:26 | an item not starting with "[" yields no code |
| RemoteSearch.RemoteSuggestions | src/utils/common.ts:15-28 | a failed fetch gives no suggestions; otherwise the first 24 items in order, each named by the item with its bracket code or the search text as value |
| RemoteSearch.EmptyBrackets | src/utils/common.ts:26 | "[] x" submits the empty code rather than the search text |
| Delivery.FixHour | src/commands/taf.cmd.ts:82-84 | the queried hours are always in [1, max]; an in-range value is kept; a missing, zero or out-of-range value becomes 1 |
| Delivery.FixHourIdempotent | src/commands/taf.cmd.ts:82-84 | clamping twice is clamping once |
| Delivery.Deliver | src/commands/taf.cmd.ts:274-300 | exactly one page is sent directly; two to five pages are paginated with buttons; six or more with a menu carrying the labels and the end label; every page is delivered in order |
| Delivery.MenuLabels | src/commands/taf.cmd.ts:287-290 | one label per page, "Page {page} - " and that page's time, in order; the TAF, G-AIRMET and AIRMET/SIGMET menus use it |
| Delivery.SixPagesMenu | src/aviationx/gairmet.cmd.ts:133-145 | six pages give a menu with six labels and "End - 6" |
| StationCommand.StationEmbed | src/commands/station.cmd.ts:77-111 | title "site, country (icaoId)"; fields [WMO Id], Location, [State], Country, Elevation, Source, each optional one present iff its value is truthy; four to six fields |
| StationCommand.BuildStationEmbed | src/commands/station.cmd.ts:77-111 | the builder calls produce exactly the station embed |
| StationCommand.Handler | src/commands/station.cmd.ts:54-117 | an unknown code gets only the invalid-code notice with the support row; a known one exactly one station embed |
| StationCommand.SimpleStation | src/commands/station.cmd.ts:22-34 | a text command without a code only sends the usage syntax; with one it answers as the handler |
| PointFields.PointLine | src/aviationx/gairmet.cmd.ts:110 | a point's line starts with its number and ". ", and holds no line break when its coordinates hold none |
| PointFields.NumberedLines | src/aviationx/gairmet.cmd.ts:110 | one line per point, numbered from 1 within its group |
| PointFields.PointsFields | src/aviationx/gairmet.cmd.ts:104-113 | ceil(n/40) fields, none for no point, all named "Points", field j holding the numbered lines of group j joined by line breaks |
| PointFields.AddPointsFields | src/aviationx/gairmet.cmd.ts:104-113 | appends exactly those fields to the embed and changes nothing else |
| PointFields.PointsFieldLines | src/aviationx/gairmet.cmd.ts:106-112 | each Points field splits back into its group's numbered lines, between 1 and 40 of them |
| PointFields.PointsCoverAll | src/aviationx/gairmet.cmd.ts:104-113 | the groups behind the Points fields hold every point once, in order |
| GAirmetCommand.GAirmetEmbed | src/aviationx/gairmet.cmd.ts:71-114 | no title; Receipt, Issue, Expire and Valid Time, then Minimum and Maximum altitude only when truthy, Source, then the Points fields, in that order |
| GAirmetCommand.BuildGAirmetEmbed | src/aviationx/gairmet.cmd.ts:72-114 | the builder calls, including the chunk loop, produce exactly that embed |
| GAirmetCommand.GAirmetPages | src/aviationx/gairmet.cmd.ts:71-125 | one single-embed page per advisory, in order |
| GAirmetCommand.GAirmetLabels | src/aviationx/gairmet.cmd.ts:137-140 | one menu label per advisory, "Page {page} - " and its issue time |
| GAirmetCommand.Handler | src/aviationx/gairmet.cmd.ts:40-148 | queries G-AIRMETs with the clamped hours; no advisory gives the data-not-found notice; otherwise the pages delivered by count with "End - n" |
| AirmetCommand.AirmetEmbed | src/aviationx/airmet.cmd.ts:69-110 | Raw text, From, To, the truthy altitudes, Source, then the Points fields, in that order |
| AirmetCommand.BuildAirmetEmbed | src/aviationx/airmet.cmd.ts:70-110 | the builder calls, including the chunk loop, produce exactly that embed |
| AirmetCommand.AirmetPages | src/aviationx/airmet.cmd.ts:69-121 | one single-embed page per advisory, in order |
| AirmetCommand.AirmetLabels | src/aviationx/airmet.cmd.ts:133-136 | one menu label per advisory, with its valid-from time |
| AirmetCommand.Handler | src/aviationx/airmet.cmd.ts:39-144 | queries AIRMET/SIGMETs with the clamped hours; no advisory gives the data-not-found notice; otherwise the pages delivered by count with "End - n" |
| AirepCommand.AirepHead | src/commands/airep.cmd.ts:43-63 | the four fields every report starts with, the raw text falling back to "Unavailable" |
| AirepCommand.AirepOptional | src/commands/airep.cmd.ts:65-86 | Altimeter, Temperature and Visibility, each present iff truthy, in that order |
| AirepCommand.AirepEmbed | src/commands/airep.cmd.ts:38-103 | title "Report from {ref}"; Raw Text (or "Unavailable"), Observation Time, Receipt Time, Wind always; the truthy optional fields; Location and Source last |
| AirepCommand.AddOptionalFields | src/commands/airep.cmd.ts:65-86 | appends exactly the optional fields and changes nothing else |
| AirepCommand.BuildAirepEmbed | src/commands/airep.cmd.ts:39-113 | the builder calls produce exactly the report embed |
| AirepCommand.AirepPages | src/commands/airep.cmd.ts:38-114 | one single-embed page per report, in order |
| AirepCommand.AirepLabels | src/commands/airep.cmd.ts:124-129 | one menu label per report, "Page {page} - {ref} - {time}" |
| AirepCommand.Handler | src/commands/airep.cmd.ts:11-136 | queries aircraft reports with the clamped hours; no report gives the search-query notice; otherwise the pages delivered by count with no end label |
| TafCommand.TafEmbed | src/commands/taf.cmd.ts:125-186 | title "site, country (id)"; Raw Text first, the four times, Remark only when truthy, then Location, Elevation ("… meters MSL") and Source |
| TafCommand.BuildTafEmbed | src/commands/taf.cmd.ts:125-186 | the builder calls produce exactly the forecast's embed |
| TafCommand.ForecastConditions | src/commands/taf.cmd.ts:213-248 | Wind only with a truthy direction, Visibility only when truthy, Cloud only with at least one layer |
| TafCommand.ForecastChanges | src/commands/taf.cmd.ts:250-262 | the change indicator and the weather string when truthy, both labelled "Change indicator" |
| TafCommand.ForecastOptional | src/commands/taf.cmd.ts:213-262 | all five optional period fields, each present iff its value is, in the handler's order |
| TafCommand.ForecastEmbed | src/commands/taf.cmd.ts:196-262 | titled "Forecast {i+1} - site (id)" (1-based); From and To first, then the optional fields |
| TafCommand.BuildCloudText | src/commands/taf.cmd.ts:234-246 | the mapped layer lines joined by line breaks |
| TafCommand.AddConditionFields | src/commands/taf.cmd.ts:213-248 | appends exactly Wind, Visibility and Cloud as present |
| TafCommand.AddChangeFields | src/commands/taf.cmd.ts:250-262 | appends exactly the change indicator and weather string as present |
| TafCommand.BuildForecastEmbed | src/commands/taf.cmd.ts:197-264 | the builder calls produce exactly the period's embed |
| TafCommand.TafPage | src/commands/taf.cmd.ts:196-269 | a page holds 1 + (number of periods) embeds: the forecast's embed, then period i's embed at position i+1 |
| TafCommand.BuildTafPage | src/commands/taf.cmd.ts:123-271 | the mapped periods after the main embed give exactly that page |
| TafCommand.TafPages | src/commands/taf.cmd.ts:123-272 | one page per forecast record, in order |
| TafCommand.TafLabels | src/commands/taf.cmd.ts:287-290 | one menu label per record, "Page {page} - " and its issue time |
| TafCommand.Handler | src/commands/taf.cmd.ts:71-301 | station search first; no station gives the invalid-code notice with the support row and no forecast search; then a forecast search with the clamped hours and the station's id; no forecast gives "Data not available for site, country (id)" with the support row; otherwise the pages delivered by count with "End - n" |
| TafCommand.SimpleTaf | src/commands/taf.cmd.ts:28-42 | a text command without a code only sends the usage syntax and searches nothing; with one it gives the handler's queries and reply: the station search, then the forecast search with the clamped hours when the station is found; the invalid-code notice, the "Data not available" notice (both with the support row), or the pages delivered by count |
| TafCommand.SingleRecordPage | src/commands/taf.cmd.ts:274-278 | a single record is sent directly with the forecast's embed and every period's embed |
| MetarCommand.CloudLines | src/commands/metar.cmd.ts:47-54 | one line per layer, in order |
| MetarCommand.MilesPerHour | src/commands/metar.cmd.ts:68 | the speed in MPH is within half a unit of knots × 1.15078, halves rounding up |
| MetarCommand.MilesPerHourExample | src/commands/metar.cmd.ts:68 | 10 knots give 12 MPH |
| MetarCommand.WindsExample | src/commands/metar.cmd.ts:63-71 | WindsText (no contract of its own) renders a 10-knot wind from 90 degrees as "from the East (90 degrees) at 12 MPH (10 knots)" |
| MetarCommand.PressureReading | src/commands/metar.cmd.ts:75-86 | PressureText (no contract of its own) starts with the inches of mercury and ends with the sea-level pressure and " mb]", "-" standing for a missing one |
| MetarCommand.WindsReading | src/commands/metar.cmd.ts:63-71 | for every wind, the Winds text starts with "from the", the compass point and the degrees, and ends with the speed in knots |
| MetarCommand.TemperatureReading | src/commands/metar.cmd.ts:89-103 | for every reading, the Temperature text is the temperature in °C and °F, then " - Dewpoint: " and the dewpoint in °C and °F |
| MetarCommand.TemperatureExample | src/commands/metar.cmd.ts:89-103 | TemperatureText (no contract of its own) gives the temperature, then " - Dewpoint: " and the dewpoint, each in °C and °F |
| MetarCommand.SkyFields | src/commands/metar.cmd.ts:45-72 | Clouds iff there is a layer; Winds iff both direction and speed are truthy |
| MetarCommand.AirFields | src/commands/metar.cmd.ts:75-111 | Pressure iff an altimeter reading; Temperature iff both temperature and dewpoint are truthy; Visibility iff truthy |
| MetarCommand.MetarTail | src/commands/metar.cmd.ts:113-137 | the closing Elevation, Location, Source and Developer Note fields |
| MetarCommand.MetarHead | src/commands/metar.cmd.ts:42-111 | Raw Text is the first field |
| MetarCommand.MetarHeadNames | src/commands/metar.cmd.ts:42-111 | Raw Text, then the sky fields, then the air fields |
| MetarCommand.MetarEmbed | src/commands/metar.cmd.ts:32-148 | titled like the station; Raw Text first; Clouds, Winds, Pressure, Temperature, Visibility each only under its condition; the last four fields always Elevation, Location, Source, Developer Note |
| MetarCommand.BuildCloudText | src/commands/metar.cmd.ts:47-54 | the mapped layer lines joined by line breaks |
| MetarCommand.AddSkyFields | src/commands/metar.cmd.ts:45-72 | appends exactly Clouds and Winds as present |
| MetarCommand.AddAirFields | src/commands/metar.cmd.ts:75-111 | appends exactly Pressure, Temperature and Visibility as present |
| MetarCommand.BuildMetarEmbed | src/commands/metar.cmd.ts:32-148 | the builder calls produce exactly the report embed |
| MetarCommand.ResolvePage | src/commands/metar.cmd.ts:260-269 | a page number with a report resolves to its embed; any other to the bare "Data not available" content |
| MetarCommand.ResolvedPages | src/commands/metar.cmd.ts:259-275 | one resolved message per page number below the pagination's length, each what the resolver answers for it |
| MetarCommand.Handler | src/commands/metar.cmd.ts:200-276 | unknown code: invalid-code notice with the support row and no query; otherwise a query for the station with the clamped hours; 0 reports give "Data not available for site, country (icaoId)", 1 a single embed, 2 or more pagination whose pages are the resolver's answers for each report |
| MetarCommand.SimpleMetar | src/commands/metar.cmd.ts:157-171 | a text command without a code only sends the usage syntax and never queries; with one it gives the handler's query and reply |
| MetarCommand.PagesResolve | src/commands/metar.cmd.ts:260-275 | every page below the pagination's length resolves to its report's embed, Raw Text first |
| MetarCommand.GetSkyAvoids | src/utils/wind.ts:33-38 | a sky description avoids a character no table description holds |
| MetarCommand.CloudsOneLinePerLayer | src/commands/metar.cmd.ts:45-60 | the Clouds value splits back into exactly one line per layer, each that layer's line |

## Left out

- Discord itself:
  - `deferReply`, `reply` versus `followUp`, and button rows other than whether the support row is attached;
  - the pagination library's internals and its `enableExit`;
  - decorators and option metadata;
  - embed timestamps and footers;
  - Discord's limits on field length and count.

  A reply is a recorded `Reply` value.
- The weather service, the report service, the station table, the autocomplete fetch and Fuse ranking:
  - their results are inputs of the handlers;
  - the URLs `aw.URI.AW` builds are opaque strings in the records;
  - `aw.getSkyCondition` (the forecast's sky description) is a function parameter;
  - the sky-condition table is a parameter.
- Floating-point formatting and conversion are opaque strings inside each reading: `toFixed`, `toUTCString`, `dayjs`, miles to km, millibars to inches of mercury, °C to °F. So is the JavaScript rendering of non-integer numbers.
- Visibility.ConvertToKilometers: `parseFloat` and `toFixed(2)` are parameters, so the accepted number syntax and the rounding of the product are not modelled.
- MetarCommand.MilesPerHour rounds the exact product speed × 1.15078. Double-precision rounding can differ from it only at exact halves.
- Wind.DegreesToDirection: bearings are integers. The wind direction of the reports is an integer, so fractional bearings and NaN are not modelled.
- Delivery.FixHour: hours are an optional real. A `NaN` option, which the source also turns into 1, has no counterpart.
- Stations.SameCode and Wind.GetSky: `toLowerCase` is modelled for ASCII letters only.
- `respond` rejections are swallowed by the source (`.catch(() => null)`). There is nothing to model beyond the list sent.
- A text command's `hourBefore` parsing is not modelled. Both command forms pass an optional number to the handler.
- Several handler variants repeat the same clamp and short-circuits. Their hour ceiling is covered by `FixHour`'s `maxHours` parameter:
  - 48 in `src/commands/taf.ts`, `src/commands/metar.ts` and `src/commands/gairmet.ts`;
  - 72, as in the modelled handlers, in `src/commands/gairmet.cmd.ts`, `src/commands/airmet.cmd.ts` and `src/aviationx/taf.cmd.ts`;
  - `src/commands/station.ts` and `src/aviationx/station.cmd.ts` take no hours and clamp nothing.

  Where they differ otherwise, they are not part of this model:
  - placing all points in one field;
  - looking up the station through the remote API.
- The advisory handlers' `./utils/chunk` under `src/aviationx/` is taken to behave as `src/commands/utils/chunk.ts`.
- Chunk.SplitToBulks requires a bulk size above zero. With zero, the loop bound is `Infinity` for a non-empty list and never ends. Every caller passes 40 or the default 20.
- `src/main.ts`, `src/client.ts` and `src/commands/info.cmd.ts` are not part of this model. They cover bootstrap, the cache member sum and a random colour.
- The constant-only files are not part of this model; their notice strings appear as constants in `Delivery`.
- `console.log` calls are not modelled.
