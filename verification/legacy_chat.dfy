/**
 * The earlier chat components (components/old1.js and its older copy components/old.js):
 * the model is asked for "English - Bangla" lines, each line is cut at the separator,
 * and each loaded scenario list replaces the previous one.
 */
module LegacyChat {
  import opened Wrappers
  import opened JsString
  import opened JsArray
  import opened Http
  import opened CohereApi
  import opened ChatClient

  /** The separator between the English and the Bangla half of a line. */
  const SEPARATOR := " - "
  const SEND_ERROR := "Error retrieving response. Try again."

  /** The prompt the legacy `fetchScenarioDetails` sends. */
  function DetailsPrompt(scenario: string): string {
    "Give the conversation for this scenario: " + scenario + ", along with Bangla translation."
  }

  function DetailsRequest(scenario: string): GenerateRequest {
    GenerateRequest(Some(DetailsPrompt(scenario)))
  }

  /**
   * `const [english, bangla] = line.split(' - ')` and
   * `{english: english.trim(), bangla: bangla?.trim() || ""}`.
   */
  function FormatLine(line: string): (l: ConversationLine)
    ensures l.english == Trim(Before(line, SEPARATOR))
    ensures l.bangla == Some(if IndexOf(line, SEPARATOR, 0).None? then "" else Trim(Before(After(line, SEPARATOR), SEPARATOR)))
  {
    var parts := Split(line, SEPARATOR);
    SplitFirstPieces(line, SEPARATOR);
    ConversationLine(Trim(parts[0]), Some(if |parts| >= 2 then Trim(parts[1]) else ""))
  }

  /** A line without the separator is all English, with an empty Bangla half. */
  lemma NoSeparator(line: string)
    requires !Contains(line, SEPARATOR)
    ensures FormatLine(line) == ConversationLine(Trim(line), Some(""))
  {
    IndexOfAbsent(line, SEPARATOR);
  }

  /**
   * Whatever follows a second separator is dropped: once a line holds two separators,
   * appending to it does not change its entry.
   */
  lemma TailDropped(line: string, tail: string)
    requires IndexOf(line, SEPARATOR, 0).Some?
    requires IndexOf(After(line, SEPARATOR), SEPARATOR, 0).Some?
    ensures FormatLine(line + tail) == FormatLine(line)
  {
    IndexOfExtend(line, tail, SEPARATOR, 0);
    BeforeExtend(line, tail, SEPARATOR);
    AfterExtend(line, tail, SEPARATOR);
    BeforeExtend(After(line, SEPARATOR), tail, SEPARATOR);
  }

  /** `formatScenarioDetails`: `formatLine` over the non-blank lines. */
  function FormatScenarioDetails(details: string): seq<ConversationLine> {
    Map(NonBlankLines(details), FormatLine)
  }

  /** One entry per non-blank line, and both halves of every entry are strings. */
  lemma FormatBothStrings(details: string)
    ensures var r := FormatScenarioDetails(details);
      && |r| == |NonBlankLines(details)|
      && forall i :: 0 <= i < |r| ==> r[i].bangla.Some?
  {
  }

  /** The conversation of `a + "\n" + b` is that of `a` followed by that of `b`. */
  lemma FormatAppend(a: string, b: string)
    ensures FormatScenarioDetails(a + NEWLINE + b) == FormatScenarioDetails(a) + FormatScenarioDetails(b)
  {
    NonBlankLinesAppend(a, b);
    MapAppend(NonBlankLines(a), NonBlankLines(b), FormatLine);
  }

  /** A single line gives one entry unless it is all white space. */
  lemma FormatOneLine(line: string)
    requires '\n' !in line
    ensures FormatScenarioDetails(line) == if AllWhite(line) then [] else [FormatLine(line)]
  {
    NonBlankLinesOneLine(line);
  }

  /**
   * The bot message: the reply's `text` (`undefined` for an error body), or the fixed
   * error text when the fetch throws; the thrown message itself is never shown.
   */
  function BotReply(input: string, generate: GenerateOracle): (m: Message)
    ensures m.sender == Bot
    ensures var d := generate(DetailsRequest(input));
      && (d.Thrown? ==> m.text == Some(SEND_ERROR))
      && (d.Received? && d.body.Generated? ==> m.text == Some(d.body.text))
      && (d.Received? && d.body.GenerateError? ==> m.text == None)
  {
    match ReplyText(generate(DetailsRequest(input)))
    case Failure(_) => Message(Some(SEND_ERROR), Bot)
    case Success(text) => Message(text, Bot)
  }

  /** The component's state. */
  class LegacyView {
    var messages: seq<Message>
    var input: string
    var scenarios: seq<string>
    var selectedScenario: Option<string>
    var scenarioDetails: seq<ConversationLine>

    /** The initial `useState` values. */
    constructor ()
      ensures messages == [] && input == "" && scenarios == []
      ensures selectedScenario == None && scenarioDetails == []
    {
      messages := [];
      input := "";
      scenarios := [];
      selectedScenario := None;
      scenarioDetails := [];
    }

    /** The input box's `onChange`. */
    method SetInput(text: string)
      modifies this
      ensures input == text
      ensures messages == old(messages) && scenarios == old(scenarios)
      ensures selectedScenario == old(selectedScenario) && scenarioDetails == old(scenarioDetails)
    {
      input := text;
    }

    /**
     * The scenario load: a reply with text replaces the list by its batch, whatever the
     * list held; a thrown fetch or a reply without text (whose `split` throws) changes nothing.
     */
    method LoadScenarios(generate: GenerateOracle)
      modifies this
      ensures var reply := ReplyText(generate(ScenarioListRequest()));
        scenarios == if HasText(reply) then ScenarioBatch(reply.value.value) else old(scenarios)
      ensures messages == old(messages) && input == old(input)
      ensures selectedScenario == old(selectedScenario) && scenarioDetails == old(scenarioDetails)
    {
      var reply := ReplyText(generate(ScenarioListRequest()));
      if HasText(reply) {
        scenarios := ScenarioBatch(reply.value.value);
      }
    }

    /**
     * `handleScenarioClick`: the conversation and the selection are set together, or
     * neither is.
     */
    method HandleScenarioClick(scenario: string, generate: GenerateOracle)
      modifies this
      ensures var reply := ReplyText(generate(DetailsRequest(scenario)));
        if HasText(reply) then
          scenarioDetails == FormatScenarioDetails(reply.value.value) && selectedScenario == Some(scenario)
        else
          scenarioDetails == old(scenarioDetails) && selectedScenario == old(selectedScenario)
      ensures messages == old(messages) && input == old(input) && scenarios == old(scenarios)
    {
      var reply := ReplyText(generate(DetailsRequest(scenario)));
      if HasText(reply) {
        scenarioDetails := FormatScenarioDetails(reply.value.value);
        selectedScenario := Some(scenario);
      }
    }

    /** The "Back to Scenarios" button. */
    method BackToScenarios()
      modifies this
      ensures selectedScenario == None
      ensures scenarioDetails == old(scenarioDetails) && scenarios == old(scenarios)
      ensures messages == old(messages) && input == old(input)
    {
      selectedScenario := None;
    }

    /**
     * `sendMessage`: blank input changes nothing; otherwise the user's message and then
     * exactly one bot message are appended and the input is cleared.
     */
    method SendMessage(generate: GenerateOracle)
      modifies this
      ensures if NonBlank(old(input)) then
          && messages == old(messages) + [Message(Some(old(input)), User), BotReply(old(input), generate)]
          && input == ""
        else messages == old(messages) && input == old(input)
      ensures scenarios == old(scenarios)
      ensures selectedScenario == old(selectedScenario) && scenarioDetails == old(scenarioDetails)
    {
      var text := input;
      if !NonBlank(text) {
        return;
      }
      var reply := BotReply(text, generate);
      messages := messages + [Message(Some(text), User), reply];
      input := "";
    }
  }
}
