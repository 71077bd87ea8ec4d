/** `searchICAO` against the remote airport search: the suggestion list built
    from the fetched strings. */
module RemoteSearch {
  import opened Wrappers
  import opened Text
  import opened Stations

  /** The characters `.` in a JavaScript regular expression does not match. */
  predicate IsLineTerminator(c: char)
  {
    c == '\n' || c == '\r' || c as int == 0x2028 || c as int == 0x2029
  }

  /** Capture group 1 of `/^\[(.*?)\]/`: the text between a leading "[" and
      the first "]" after it, provided no line terminator comes before that "]". */
  function BracketCode(item: string): (r: Option<string>)
    ensures r.Some? ==> var n := |r.value|;
      && |item| >= n + 2 && item[0] == '[' && item[1..n + 1] == r.value && item[n + 1] == ']'
      && ']' !in r.value
      && forall k :: 0 <= k < n ==> !IsLineTerminator(r.value[k])
  {
    if |item| == 0 || item[0] != '[' then None
    else
      match IndexOf(item[1..], ']')
      case None => None
      case Some(j) =>
        var code := item[1..][..j];
        if exists k :: 0 <= k < |code| && IsLineTerminator(code[k]) then None else Some(code)
  }

  /** A bracketed code at the start is extracted exactly. */
  lemma BracketCodeOf(code: string, rest: string)
    requires ']' !in code
    requires forall k :: 0 <= k < |code| ==> !IsLineTerminator(code[k])
    ensures BracketCode("[" + code + "]" + rest) == Some(code)
  {
    var item := "[" + code + "]" + rest;
    assert item[1..] == code + "]" + rest;
    assert (code + "]" + rest)[|code|] == ']';
    assert (code + "]" + rest)[..|code|] == code;
  }

  /** An item that does not start with "[" has no code. */
  lemma NoBracketNoCode(item: string)
    requires |item| == 0 || item[0] != '['
    ensures BracketCode(item) == None
  {
  }

  /** The suggestion for one fetched string: the string itself, submitting its
      bracketed code, or the user's search text when it has none. */
  function RemoteChoice(text: string, item: string): (c: Choice)
    ensures c.name == item
    ensures c.value == BracketCode(item).GetOr(text)
  {
    Choice(item, BracketCode(item).GetOr(text))
  }

  /** `searchICAO`: with `response` the fetched list, or `None` when the fetch
      failed. A failure gives no suggestions; otherwise the first 24 strings,
      in the order received, each as its suggestion. */
  function RemoteSuggestions(text: string, response: Option<seq<string>>): (r: seq<Choice>)
    ensures response.None? ==> r == []
    ensures response.Some? ==> |r| == Min(|response.value|, MaxSuggestions)
    ensures response.Some? ==> forall i :: 0 <= i < |r| ==> r[i] == RemoteChoice(text, response.value[i])
  {
    match response
    case None => []
    case Some(items) =>
      var list := items[..Min(|items|, MaxSuggestions)];
      seq(|list|, i requires 0 <= i < |list| => RemoteChoice(text, list[i]))
  }

  /** "[] x" carries an empty code, which is submitted as it is. */
  lemma EmptyBrackets(text: string)
    ensures RemoteChoice(text, "[] x").value == ""
  {
    BracketCodeOf("", " x");
    assert "[" + "" + "]" + " x" == "[] x";
  }
}
