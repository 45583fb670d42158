/**
 * What the chat components (components/ChatInterface.js, old.js, old1.js) share: the
 * messages and conversation lines they display, the relays seen from the browser, and
 * the way they cut a generated text into scenario titles or conversation lines.
 */
module ChatClient {
  import opened Wrappers
  import opened JsString
  import opened JsArray
  import opened Http
  import opened TranslateApi
  import opened CohereApi

  /** The prompt `fetchCaseScenarios` sends. */
  const SCENARIO_LIST_PROMPT := "Suggest a list of common English conversation scenarios."
  const NEWLINE := "\n"

  /** `/api/cohere` as the browser sees it: a request body in, a parsed reply or a thrown error out. */
  type GenerateOracle = GenerateRequest -> Delivery<GenerateBody>

  /** `/api/translate` as the browser sees it. */
  type TranslateOracle = TranslateRequest -> Delivery<TranslateBody>

  datatype Sender = User | Bot

  /** A chat message `{text, sender}`; the text is `None` when it was `undefined`. */
  datatype Message = Message(text: Option<string>, sender: Sender)

  /** One displayed pair `{english, bangla}`; `bangla` is `None` when it was `undefined`. */
  datatype ConversationLine = ConversationLine(english: string, bangla: Option<string>)

  /**
   * `data.text` after `fetch` and `response.json()`: a failure carries the thrown message;
   * an error body has no `text` field, which reads as `undefined`.
   */
  function ReplyText(d: Delivery<GenerateBody>): (r: Result<Option<string>, string>)
    ensures r.Failure? <==> d.Thrown?
    ensures r.Success? && r.value.Some? <==> d.Received? && d.body.Generated?
    ensures r.Success? && r.value.Some? ==> r.value.value == d.body.text
  {
    match d
    case Thrown(message) => Failure(message)
    case Received(Generated(text)) => Success(Some(text))
    case Received(GenerateError(_)) => Success(None)
  }

  predicate HasText(r: Result<Option<string>, string>) {
    r.Success? && r.value.Some?
  }

  /** The request `fetchCaseScenarios` makes. */
  function ScenarioListRequest(): GenerateRequest {
    GenerateRequest(Some(SCENARIO_LIST_PROMPT))
  }

  /** `text.split('\n')`. */
  function Lines(text: string): (r: seq<string>)
    ensures |r| >= 1
    ensures forall i :: 0 <= i < |r| ==> '\n' !in r[i]
  {
    var r := Split(text, NEWLINE);
    SplitPiecesFree(text, NEWLINE);
    forall i | 0 <= i < |r| ensures '\n' !in r[i] {
      ContainsChar(r[i], '\n');
    }
    r
  }

  /** The filter `scenario => scenario`: only the empty string is dropped. */
  predicate NonEmpty(s: string) {
    s != ""
  }

  /** `result.split('\n').filter(scenario => scenario)`: the titles of one batch. */
  function ScenarioBatch(text: string): (r: seq<string>)
    ensures forall i :: 0 <= i < |r| ==> r[i] != "" && '\n' !in r[i]
  {
    var lines := Lines(text);
    var r := Filter(lines, NonEmpty);
    FilterFrom(lines, NonEmpty);
    r
  }

  /** `details.split('\n').filter(line => line.trim() !== "")`. */
  function NonBlankLines(details: string): (r: seq<string>)
    ensures forall i :: 0 <= i < |r| ==> NonBlank(r[i]) && '\n' !in r[i]
  {
    var lines := Lines(details);
    var r := Filter(lines, NonBlank);
    FilterFrom(lines, NonBlank);
    r
  }

  /** Line by line: the lines of `a + "\n" + b` are those of `a` followed by those of `b`. */
  lemma LinesAppend(a: string, b: string)
    ensures Lines(a + NEWLINE + b) == Lines(a) + Lines(b)
  {
    SplitAppend(a, NEWLINE, b);
  }

  /** A batch is cut line by line, in order. */
  lemma ScenarioBatchAppend(a: string, b: string)
    ensures ScenarioBatch(a + NEWLINE + b) == ScenarioBatch(a) + ScenarioBatch(b)
  {
    LinesAppend(a, b);
    FilterAppend(Lines(a), Lines(b), NonEmpty);
  }

  /** A single line becomes one title unless it is the empty string; white space is not trimmed. */
  lemma ScenarioBatchOneLine(line: string)
    requires '\n' !in line
    ensures ScenarioBatch(line) == if line == "" then [] else [line]
  {
    SplitWithoutChar(line, '\n');
  }

  /** Non-blank lines are kept line by line, in order. */
  lemma NonBlankLinesAppend(a: string, b: string)
    ensures NonBlankLines(a + NEWLINE + b) == NonBlankLines(a) + NonBlankLines(b)
  {
    LinesAppend(a, b);
    FilterAppend(Lines(a), Lines(b), NonBlank);
  }

  /** A single line is kept exactly when it is not all white space. */
  lemma NonBlankLinesOneLine(line: string)
    requires '\n' !in line
    ensures NonBlankLines(line) == if NonBlank(line) then [line] else []
    ensures NonBlank(line) <==> !AllWhite(line)
  {
    SplitWithoutChar(line, '\n');
    BlankIffAllWhite(line);
  }

  /** An empty line between two titles, as in `"Hi\n\nHow are you?"`, is dropped. */
  lemma ScenarioBatchDropsEmptyLine(first: string, second: string)
    requires first != "" && second != ""
    requires '\n' !in first && '\n' !in second
    ensures ScenarioBatch(first + NEWLINE + NEWLINE + second) == [first, second]
  {
    ScenarioBatchOneLine(first);
    ScenarioBatchOneLine("");
    ScenarioBatchOneLine(second);
    ScenarioBatchAppend("", second);
    ScenarioBatchAppend(first, "" + NEWLINE + second);
    assert first + NEWLINE + ("" + NEWLINE + second) == first + NEWLINE + NEWLINE + second;
  }

  /**
   * Titles are not trimmed: a line ending in a carriage return (a CRLF line break) keeps
   * it, and a line of white space is kept as a title.
   */
  lemma ScenarioBatchKeepsWhiteSpace(title: string, blank: string)
    requires '\n' !in title && '\n' !in blank
    requires blank != "" && AllWhite(blank)
    ensures ScenarioBatch(title + "\r" + NEWLINE + blank) == [title + "\r", blank]
  {
    var a := title + "\r";
    assert '\n' !in a by {
      assert forall i :: 0 <= i < |title| ==> a[i] == title[i];
    }
    ScenarioBatchOneLine(a);
    ScenarioBatchOneLine(blank);
    ScenarioBatchAppend(a, blank);
  }
}
