/** `num2word` and `numSpoke`: spelling a reading digit by digit. */
module NumWords {
  import opened Text

  /** The word table, indexed by the numbers 0 to 19. */
  const LessThanTwenty: seq<string> := [
    "zero", "one", "two", "three", "four", "five", "six", "seven", "eight", "nine",
    "ten", "eleven", "twelve", "thirteen", "fourteen", "fifteen", "sixteen",
    "seventeen", "eighteen", "nineteen"
  ]

  /** A JavaScript number as far as these two functions see it: an integer,
      or `NaN` (what `Number` gives for a character that is not a numeral). */
  datatype JsNumber = Int(value: int) | NaN

  /** `num2word`: the table entry at `num`, or "invalid" where the table has none. */
  function Num2Word(num: JsNumber): (w: string)
    ensures num.Int? && 0 <= num.value < 20 ==> w == LessThanTwenty[num.value]
    ensures !(num.Int? && 0 <= num.value < 20) ==> w == "invalid"
  {
    match num
    case Int(n) => if 0 <= n < |LessThanTwenty| then LessThanTwenty[n] else "invalid"
    case NaN => "invalid"
  }

  /** `Number(c)` for a one-character string: a numeral gives its value, a
      white-space character gives 0 (the string is blank), anything else `NaN`. */
  function CharToNumber(c: char): JsNumber
  {
    if IsDigit(c) then Int(DigitValue(c))
    else if IsSpace(c) then Int(0)
    else NaN
  }

  /** The word `numSpoke` says for one character of the rendered number. */
  function SpokenChar(c: char): (w: string)
    ensures IsDigit(c) ==> w == LessThanTwenty[DigitValue(c)]
    ensures !IsDigit(c) && !IsSpace(c) ==> w == "point"
    ensures w != "invalid" && w != "" && ' ' !in w
  {
    var w := Num2Word(CharToNumber(c));
    if w == "invalid" then "point" else w
  }

  /** `numSpoke`, on the characters `num.toString()` produces. */
  function NumSpoke(rendered: string): (spoken: string)
    ensures spoken == "" <==> rendered == ""
    ensures rendered != "" ==> var w := SpokenChar(rendered[0]); |spoken| >= |w| && spoken[..|w|] == w
  {
    Join(seq(|rendered|, i requires 0 <= i < |rendered| => SpokenChar(rendered[i])), ' ')
  }

  /** Splitting the spoken form at single spaces gives one word per character
      of the rendered number: the word for each digit, "point" for anything
      else, and never "invalid". */
  lemma NumSpokeWords(rendered: string)
    requires |rendered| > 0
    ensures var words := Split(NumSpoke(rendered), ' ');
      && |words| == |rendered|
      && (forall i :: 0 <= i < |rendered| ==> words[i] == SpokenChar(rendered[i]))
      && "invalid" !in words
  {
    var ws := seq(|rendered|, i requires 0 <= i < |rendered| => SpokenChar(rendered[i]));
    SplitJoin(ws, ' ');
  }

  /** 12 is spoken "one two". */
  lemma SpokenTwelve()
    ensures NumSpoke("12") == "one two"
  {
    var ws := seq(2, i requires 0 <= i < 2 => SpokenChar("12"[i]));
    assert ws == ["one", "two"];
    assert NumSpoke("12") == Join(ws, ' ');
    assert Join(["one", "two"], ' ') == "one" + " " + Join(["two"], ' ');
  }

  /** 0 is spoken "zero". */
  lemma SpokenZero()
    ensures NumSpoke("0") == "zero"
  {
    var ws := seq(1, i requires 0 <= i < 1 => SpokenChar("0"[i]));
    assert ws == ["zero"];
  }

  /** 1.5 is spoken "one point five": the decimal point becomes "point". */
  lemma SpokenDecimal()
    ensures NumSpoke("1.5") == "one point five"
  {
    var r := "1.5";
    assert r[0] == '1' && r[1] == '.' && r[2] == '5';
    SpokenThree(r);
    assert SpokenChar('1') == "one" && SpokenChar('5') == "five";
    assert SpokenChar('.') == "point" by { assert !IsDigit('.') && !IsSpace('.'); }
    assert "one" + [' '] + "point" + [' '] + "five" == "one point five";
  }

  /** A three-character rendering is spoken as its three words. */
  lemma SpokenThree(rendered: string)
    requires |rendered| == 3
    ensures NumSpoke(rendered)
      == SpokenChar(rendered[0]) + [' '] + SpokenChar(rendered[1]) + [' '] + SpokenChar(rendered[2])
  {
    var ws := seq(3, i requires 0 <= i < 3 => SpokenChar(rendered[i]));
    assert ws == [SpokenChar(rendered[0]), SpokenChar(rendered[1]), SpokenChar(rendered[2])];
    JoinThree(SpokenChar(rendered[0]), SpokenChar(rendered[1]), SpokenChar(rendered[2]), ' ');
  }
}
