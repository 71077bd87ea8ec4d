/** `convertVisibilityInput`: a visibility reading such as "10+" or "1/2-",
    rewritten as words and given units. */
module Visibility {
  import opened Wrappers
  import opened Text

  /** The floating-point library `convertToKilometers` calls, taken as given:
      `parseFloat` (`None` for `NaN`) and `toFixed(2)`. */
  datatype NumberFormat = NumberFormat(parseFloat: string -> Option<real>, toFixed2: real -> string)

  /** `convertToKilometers`: the miles in `input` times 1.60934 to two
      decimals, or "N/A" when `input` does not start with a number. */
  function ConvertToKilometers(input: string, fmt: NumberFormat): (km: string)
    ensures fmt.parseFloat(input).None? ==> km == "N/A"
    ensures fmt.parseFloat(input).Some? ==> km == fmt.toFixed2(fmt.parseFloat(input).value * 1.60934)
  {
    match fmt.parseFloat(input)
    case None => "N/A"
    case Some(miles) => fmt.toFixed2(miles * 1.60934)
  }

  /** The text `<text> sm (<km> km)` the function ends with. */
  function WithUnits(text: string, fmt: NumberFormat): string
  {
    text + " sm (" + ConvertToKilometers(text, fmt) + " km)"
  }

  /** The text comes first, unchanged; the kilometres of that same text sit
      between " sm (" and the closing " km)". */
  lemma UnitsAround(text: string, fmt: NumberFormat)
    ensures var r := WithUnits(text, fmt); var km := ConvertToKilometers(text, fmt);
      && |r| == |text| + |km| + 9
      && r[..|text|] == text
      && r[|text|..|text| + 5] == " sm ("
      && r[|text| + 5..|text| + 5 + |km|] == km
      && r[|r| - 4..] == " km)"
  {
  }

  /** `convertVisibilityInput`. A trailing "+" on the trimmed input becomes
      " or more"; otherwise a trailing "-" becomes " or less"; otherwise the
      input is kept as given, untrimmed. */
  function ConvertVisibilityInput(input: string, fmt: NumberFormat): (output: string)
    ensures var t := Trim(input);
      EndsWith(t, '+') ==> output == WithUnits(t[..|t| - 1] + " or more", fmt)
    ensures var t := Trim(input);
      !EndsWith(t, '+') && EndsWith(t, '-') ==> output == WithUnits(t[..|t| - 1] + " or less", fmt)
    ensures var t := Trim(input);
      !EndsWith(t, '+') && !EndsWith(t, '-') ==> output == WithUnits(input, fmt)
  {
    var output := input;
    var input := Trim(input);
    var output :=
      if EndsWith(input, '+') then input[..|input| - 1] + " or more"
      else if EndsWith(input, '-') then input[..|input| - 1] + " or less"
      else output;
    output + " sm (" + ConvertToKilometers(output, fmt) + " km)"
  }

  /** Only the last character is replaced: what comes before it is the trimmed
      input unchanged, and the output always ends in the units. */
  lemma SuffixRewrite(input: string, fmt: NumberFormat)
    requires EndsWith(Trim(input), '+') || EndsWith(Trim(input), '-')
    ensures var t := Trim(input); var out := ConvertVisibilityInput(input, fmt);
      && |out| > |t| - 1
      && out[..|t| - 1] == t[..|t| - 1]
      && out[|t| - 1..|t| + 7] == (if EndsWith(t, '+') then " or more" else " or less")
  {
    var t := Trim(input);
    var out := ConvertVisibilityInput(input, fmt);
    if EndsWith(t, '+') {
      assert out == WithUnits(t[..|t| - 1] + " or more", fmt);
      Rewritten(t, " or more", fmt);
    } else {
      assert out == WithUnits(t[..|t| - 1] + " or less", fmt);
      Rewritten(t, " or less", fmt);
    }
  }

  /** The last character of `t` replaced by `word`, with units added: `t`
      without its last character, then `word`. */
  lemma Rewritten(t: string, word: string, fmt: NumberFormat)
    requires |t| >= 1
    ensures var out := WithUnits(t[..|t| - 1] + word, fmt);
      && |out| >= |t| - 1 + |word|
      && out[..|t| - 1] == t[..|t| - 1]
      && out[|t| - 1..|t| - 1 + |word|] == word
  {
    UnitsAround(t[..|t| - 1] + word, fmt);
    PrefixParts(WithUnits(t[..|t| - 1] + word, fmt), t[..|t| - 1], word);
  }

  /** A sequence that starts with `a + b` holds `a`, then `b`. */
  lemma PrefixParts<T>(s: seq<T>, a: seq<T>, b: seq<T>)
    requires |s| >= |a + b| && s[..|a + b|] == a + b
    ensures s[..|a|] == a && s[|a|..|a| + |b|] == b
  {
    assert s[..|a|] == (a + b)[..|a|];
    assert s[|a|..|a| + |b|] == (a + b)[|a|..];
  }

  /** "10+" reads "10 or more". */
  lemma OrMoreExample(fmt: NumberFormat)
    ensures ConvertVisibilityInput("10+", fmt) == WithUnits("10 or more", fmt)
  {
    assert !IsSpace('1') && !IsSpace('+');
    assert TrimStart("10+") == "10+";
    assert TrimEnd("10+") == "10+";
    assert Trim("10+") == "10+";
    assert "10+"[..2] + " or more" == "10 or more";
  }

  /** " 3- " is trimmed first and reads "3 or less". */
  lemma OrLessExample(fmt: NumberFormat)
    ensures ConvertVisibilityInput(" 3- ", fmt) == WithUnits("3 or less", fmt)
  {
    assert IsSpace(' ') && !IsSpace('3') && !IsSpace('-');
    assert TrimStart("3- ") == "3- ";
    assert TrimStart(" 3- ") == "3- ";
    assert TrimEnd("3-") == "3-";
    assert TrimEnd("3- ") == "3-";
    assert Trim(" 3- ") == "3-";
    assert "3-"[..1] + " or less" == "3 or less";
  }
}
