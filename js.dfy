/** How optional values of the remote data behave in the handlers: JavaScript
    truthiness (present and not zero, not empty) and template-literal rendering. */
module Js {
  import opened Wrappers
  import opened Text

  predicate StrTruthy(o: Option<string>) { o.Some? && o.value != "" }

  predicate IntTruthy(o: Option<int>) { o.Some? && o.value != 0 }

  /** `${x}` for an optional integer: a missing value prints as "undefined". */
  function ShowInt(o: Option<int>): string
  {
    match o
    case None => "undefined"
    case Some(i) => IntToString(i)
  }

  /** A floating-point reading: its value (for truthiness), its rendering as the
      handler prints it, and its rendering after the handler's unit conversion. */
  datatype Reading = Reading(value: real, text: string, converted: string)

  predicate ReadingTruthy(o: Option<Reading>) { o.Some? && o.value.value != 0.0 }

  /** "{t}°C ({t converted}°F)": a temperature and its Fahrenheit conversion. */
  function CelsiusText(t: Reading): string
  {
    t.text + "°C (" + t.converted + "°F)"
  }

  /** "{v} sm ({v converted} km)": a visibility in statute miles and in kilometres. */
  function MilesText(v: Reading): string
  {
    v.text + " sm (" + v.converted + " km)"
  }
}
