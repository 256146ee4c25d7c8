/**
 * `handleCommand`: which inputs the widget handles locally instead of
 * sending them to the language model.
 *
 * The input is lower-cased and then trimmed; the normalised text is checked,
 * in this order, for the prefix "open ", for the word "clear", and for the
 * arithmetic pattern `^[\d\s+\-*\/().]+$`. Arithmetic is evaluated by the
 * JavaScript engine; here evaluation is the parameter `eval`, which answers
 * the rendered value or `None` when the evaluation throws.
 */
module Commands {
  import opened Text
  import opened Wrappers

  datatype Command =
    | OpenUrl(url: string)       // hand `url` to the browser; no chat message
    | ClearLog                   // empty the message log
    | Evaluated(value: string)   // post "Result: <value>" as the assistant
    | NotACommand                // go to the language model

  const OpenPrefix: string := "open "
  const UrlScheme: string := "https://"
  const ClearWord: string := "clear"
  const ResultPrefix: string := "Result: "

  /** The text the tests are made on: `text.toLowerCase().trim()`. */
  function Normalize(text: string): string {
    Trim(ToLower(text))
  }

  /** The normal form is no longer than the input, has no capitals, and
      neither starts nor ends with white space. */
  lemma NormalizeShape(text: string)
    ensures var r := Normalize(text);
            && |r| <= |text| && NoCapitals(r)
            && (r == [] || (!IsSpace(r[0]) && !IsSpace(r[|r| - 1])))
  {
    var lower := ToLower(text);
    TrimChars(lower);
    TrimEnds(lower);
  }

  /** No character of `s` is an ASCII capital. */
  predicate NoCapitals(s: string) {
    forall k :: 0 <= k < |s| ==> !('A' <= s[k] <= 'Z')
  }

  /** One character of the class `[\d\s+\-*\/().]`. */
  predicate IsArithmeticChar(c: char) {
    ('0' <= c <= '9') || IsSpace(c) || c in "+-*/()."
  }

  /** The whole string matches `^[\d\s+\-*\/().]+$`: one character of the
      class, then either the end or another match. */
  function IsArithmetic(s: string): (b: bool)
    ensures b <==> |s| > 0 && forall k :: 0 <= k < |s| ==> IsArithmeticChar(s[k])
    decreases |s|
  {
    |s| > 0 && IsArithmeticChar(s[0]) && (|s| == 1 || IsArithmetic(s[1..]))
  }

  /** The tests of `handleCommand` on the normalised text, in the source's order. */
  function ClassifyNormalized(lower: string, eval: string -> Option<string>): (c: Command)
    ensures c.OpenUrl? <==> StartsWith(lower, OpenPrefix)
    ensures c.ClearLog? <==> lower == ClearWord
    ensures c.Evaluated? <==> IsArithmetic(lower) && eval(lower).Some?
    ensures c.OpenUrl? ==> StartsWith(c.url, UrlScheme) && OpenPrefix + c.url[|UrlScheme|..] == lower
    ensures c.Evaluated? ==> eval(lower) == Some(c.value)
  {
    PatternsAreDisjoint(lower);
    if StartsWith(lower, OpenPrefix) then OpenUrl(UrlScheme + lower[|OpenPrefix|..])
    else if lower == ClearWord then ClearLog
    else if IsArithmetic(lower) then
      match eval(lower)
      case Some(v) => Evaluated(v)
      case None => NotACommand
    else NotACommand
  }

  /** `handleCommand`'s decision on the raw input. */
  function Classify(text: string, eval: string -> Option<string>): (c: Command)
    ensures c.OpenUrl? <==> StartsWith(Normalize(text), OpenPrefix)
    ensures c.ClearLog? <==> Normalize(text) == ClearWord
    ensures c.Evaluated? ==> eval(Normalize(text)) == Some(c.value)
  {
    ClassifyNormalized(Normalize(text), eval)
  }

  /** The URL handed to the browser is lower-cased: `open Example.com/Path`
      opens `https://example.com/path`. Something always follows the scheme. */
  lemma OpenedUrlIsLowerCase(text: string, eval: string -> Option<string>)
    ensures var c := Classify(text, eval);
            c.OpenUrl? ==>
              && |c.url| > |UrlScheme| && StartsWith(c.url, UrlScheme)
              && NoCapitals(c.url)
  {
    NormalizeShape(text);
    UrlOfNormalized(Normalize(text), eval);
  }

  /** The URL made from a normalised `open ` command. */
  lemma UrlOfNormalized(lower: string, eval: string -> Option<string>)
    requires NoCapitals(lower)
    requires lower == [] || !IsSpace(lower[|lower| - 1])
    ensures var c := ClassifyNormalized(lower, eval);
            c.OpenUrl? ==>
              && |c.url| > |UrlScheme| && StartsWith(c.url, UrlScheme)
              && NoCapitals(c.url) && !IsSpace(c.url[|c.url| - 1])
  {
    if StartsWith(lower, OpenPrefix) {
      assert lower[|OpenPrefix| - 1] == ' ';
      var url := UrlScheme + lower[|OpenPrefix|..];
      forall k | 0 <= k < |url| ensures !('A' <= url[k] <= 'Z') {
        if k >= |UrlScheme| {
          assert url[k] == lower[k - |UrlScheme| + |OpenPrefix|];
        }
      }
    }
  }

  /** The three patterns do not overlap, so their order does not matter. */
  lemma PatternsAreDisjoint(s: string)
    ensures StartsWith(s, OpenPrefix) ==> s != ClearWord
    ensures IsArithmetic(s) ==> !StartsWith(s, OpenPrefix) && s != ClearWord
  {
    if StartsWith(s, OpenPrefix) {
      assert s[0] == 'o';
    }
    if IsArithmetic(s) {
      assert !IsArithmeticChar('o') && !IsArithmeticChar('c');
      assert s[0] != 'o' && s[0] != 'c';
    }
  }

  /** An input the language model is asked about is exactly one that is none
      of the commands, or an arithmetic-looking one whose evaluation threw. */
  lemma GoesRemoteIff(text: string, eval: string -> Option<string>)
    ensures var lower := Normalize(text);
            Classify(text, eval) == NotACommand <==>
              && !StartsWith(lower, OpenPrefix) && lower != ClearWord
              && (!IsArithmetic(lower) || eval(lower) == None)
  {
  }

  /** Case and surrounding white space do not change what an input is:
      the tests only see the normalised text. */
  lemma ClassifyIgnoresCaseAndPadding(a: string, t: string, b: string, eval: string -> Option<string>)
    requires AllSpace(a) && AllSpace(b)
    ensures Classify(a + t + b, eval) == Classify(t, eval)
    ensures Classify(ToLower(t), eval) == Classify(t, eval)
  {
    ToLowerAppend(a + t, b);
    ToLowerAppend(a, t);
    ToLowerKeepsSpace(a);
    ToLowerKeepsSpace(b);
    TrimIgnoresPadding(a, ToLower(t), b);
    ToLowerIdempotent(t);
  }

  /** Text with no capital letter and no white space at either end is its
      own normalisation. */
  lemma NormalizeKeepsNormalText(s: string)
    requires forall k :: 0 <= k < |s| ==> !('A' <= s[k] <= 'Z')
    requires s == [] || (!IsSpace(s[0]) && !IsSpace(s[|s| - 1]))
    ensures Normalize(s) == s
  {
    assert ToLower(s) == s;
    TrimKeepsTrimmed(s);
  }

  /** `2+2` is handled locally when the engine renders its value as 4. */
  lemma TwoPlusTwo(eval: string -> Option<string>)
    requires eval("2+2") == Some("4")
    ensures Classify("2+2", eval) == Evaluated("4")
  {
    var s := "2+2";
    assert s[0] == '2' && s[1] == '+' && s[2] == '2';
    assert !IsSpace('2');
    NormalizeKeepsNormalText(s);
    assert IsArithmeticChar('2') && IsArithmeticChar('+');
    assert IsArithmetic(s);
  }
}
