/**
 * The current chat component (components/ChatInterface.js): conversation lines paired
 * with translations from the relay, a scenario list that grows batch by batch without
 * repeats, and the view state its event handlers update.
 */
module ChatInterface {
  import opened Wrappers
  import opened JsString
  import opened JsArray
  import opened Http
  import opened TranslateApi
  import opened CohereApi
  import opened ChatClient

  /** The language `translateText` asks for by default. */
  const TARGET_LANG := "bn"
  const FALLBACK_PREFIX := "Translation unavailable: "
  const SEND_ERROR_PREFIX := "Error retrieving response: "

  /** The prompt `fetchScenarioDetails` sends for a scenario (or a typed message). */
  function DetailsPrompt(scenario: string): string {
    "Provide an English conversation for the scenario: \"" + scenario + "\"."
  }

  function DetailsRequest(scenario: string): GenerateRequest {
    GenerateRequest(Some(DetailsPrompt(scenario)))
  }

  /** The body `translateText(text)` posts to the relay. */
  function TranslationRequest(text: Option<string>): TranslateApi.TranslateRequest {
    TranslateApi.TranslateRequest(text, Some(TARGET_LANG))
  }

  /**
   * `translateText` after its request: a thrown fetch or a truthy `error` field is a
   * failure carrying that message; otherwise it returns `translatedText`, which an error
   * body with an empty message does not have.
   */
  function TranslateText(d: Delivery<TranslateApi.TranslateBody>): (r: Result<Option<string>, string>)
    ensures r.Failure? <==> d.Thrown? || (d.body.TranslateError? && d.body.error != "")
    ensures r.Failure? && d.Thrown? ==> r.error == d.message
    ensures r.Failure? && d.Received? ==> r.error == d.body.error
    ensures r.Success? ==> (r.value.Some? <==> d.body.Translated?)
    ensures r.Success? && r.value.Some? ==> r.value.value == d.body.translatedText
  {
    match d
    case Thrown(message) => Failure(message)
    case Received(Translated(text)) => Success(Some(text))
    case Received(TranslateError(error)) =>
      if error != "" then Failure(error) else Success(None)
  }

  /** The reply the translation oracle gives for one trimmed line. */
  function LineReply(english: string, translate: TranslateOracle): Delivery<TranslateApi.TranslateBody> {
    translate(TranslationRequest(Some(english)))
  }

  /** One line of `formatScenarioDetails`: the trimmed line and its translation or the fallback. */
  function FormatLine(line: string, translate: TranslateOracle): (l: ConversationLine)
    ensures l.english == Trim(line)
  {
    var english := Trim(line);
    match TranslateText(LineReply(english, translate))
    case Failure(message) => ConversationLine(english, Some(FALLBACK_PREFIX + message))
    case Success(bangla) => ConversationLine(english, bangla)
  }

  /**
   * The Bangla side of a line: the translation, or the fallback text carrying the
   * failure's message, or `undefined` for an error body with an empty message.
   */
  lemma FormatLineBangla(line: string, translate: TranslateOracle)
    ensures var l, d := FormatLine(line, translate), LineReply(Trim(line), translate);
      && (d.Thrown? ==> l.bangla == Some(FALLBACK_PREFIX + d.message))
      && (d.Received? && d.body.Translated? ==> l.bangla == Some(d.body.translatedText))
      && (d.Received? && d.body.TranslateError? ==>
            l.bangla == if d.body.error == "" then None else Some(FALLBACK_PREFIX + d.body.error))
  {
  }

  /**
   * The translation fetches of one conversation: `translate(i)` answers the fetch made by
   * the callback for the `i`-th non-blank line, so two copies of a line may fare differently.
   */
  type LineOracles = nat -> TranslateOracle

  /**
   * The callback `async (line) => {...}` mapped over `lines`, the one at position `i`
   * making fetch `i`; the positional reassembly of `Promise.all` keeps the line order.
   */
  function FormatLines(lines: seq<string>, translate: LineOracles): (r: seq<ConversationLine>)
    ensures |r| == |lines|
    ensures forall i :: 0 <= i < |lines| ==> r[i] == FormatLine(lines[i], translate(i))
  {
    if lines == [] then []
    else FormatLines(lines[..|lines| - 1], translate) + [FormatLine(lines[|lines| - 1], translate(|lines| - 1))]
  }

  /** `formatScenarioDetails`: the callback mapped over the non-blank lines. */
  function FormatScenarioDetails(details: string, translate: LineOracles): seq<ConversationLine> {
    FormatLines(NonBlankLines(details), translate)
  }

  /** The fetches of a conversation seen from `k` lines further on. */
  function ShiftLines(translate: LineOracles, k: nat): LineOracles {
    (i: nat) => translate(k + i)
  }

  lemma ShiftAt(translate: LineOracles, k: nat, j: nat)
    ensures ShiftLines(translate, k)(j) == translate(k + j)
  {
  }

  /**
   * One entry per non-blank line, in order, each formatted from its own line and its own
   * fetch; each entry's English is the trimmed line, never empty.
   */
  lemma FormatEnglish(details: string, translate: LineOracles)
    ensures var r, lines := FormatScenarioDetails(details, translate), NonBlankLines(details);
      && |r| == |lines|
      && (forall i :: 0 <= i < |r| ==> r[i] == FormatLine(lines[i], translate(i)))
      && (forall i :: 0 <= i < |r| ==> r[i].english == Trim(lines[i]) && r[i].english != "")
  {
  }

  /**
   * The conversation of `a + "\n" + b` is that of `a` followed by that of `b`, whose lines
   * are fetched at the positions after those of `a`.
   */
  lemma FormatAppend(a: string, b: string, translate: LineOracles)
    ensures FormatScenarioDetails(a + NEWLINE + b, translate)
         == FormatScenarioDetails(a, translate)
          + FormatScenarioDetails(b, ShiftLines(translate, |NonBlankLines(a)|))
  {
    var la, lb := NonBlankLines(a), NonBlankLines(b);
    NonBlankLinesAppend(a, b);
    FormatLinesAppend(la, lb, translate);
  }

  /** Formatting a concatenation of lines: the second part's fetches come after the first's. */
  lemma {:induction false} FormatLinesAppend(la: seq<string>, lb: seq<string>, translate: LineOracles)
    ensures FormatLines(la + lb, translate) == FormatLines(la, translate) + FormatLines(lb, ShiftLines(translate, |la|))
    decreases |lb|
  {
    if lb == [] {
      assert la + lb == la;
    } else {
      var front, x := lb[..|lb| - 1], lb[|lb| - 1];
      FormatLinesAppend(la, front, translate);
      DropLastAppend(la, lb);
      var shifted := ShiftLines(translate, |la|);
      ShiftAt(translate, |la|, |lb| - 1);
      var y := FormatLine(x, translate(|la| + (|lb| - 1)));
      assert FormatLines(la + lb, translate) == FormatLines(la + front, translate) + [y];
      assert FormatLines(lb, shifted) == FormatLines(front, shifted) + [y];
      SnocAssoc(FormatLines(la, translate), FormatLines(front, shifted), y);
    }
  }

  /** A single line gives one entry, from the first fetch, unless it is all white space. */
  lemma FormatOneLine(line: string, translate: LineOracles)
    requires '\n' !in line
    ensures FormatScenarioDetails(line, translate)
         == if AllWhite(line) then [] else [FormatLine(line, translate(0))]
  {
    NonBlankLinesOneLine(line);
  }

  /**
   * The English side is the line without its surrounding white space, unchanged inside:
   * a slice of the line that starts and ends with a visible character.
   */
  lemma EnglishIsTrimmedLine(details: string, translate: LineOracles, i: int)
    requires 0 <= i < |NonBlankLines(details)|
    ensures |FormatScenarioDetails(details, translate)| == |NonBlankLines(details)|
    ensures var line, e := NonBlankLines(details)[i], FormatScenarioDetails(details, translate)[i].english;
      && (exists lo, hi :: 0 <= lo <= hi <= |line| && e == line[lo..hi]
            && AllWhite(line[..lo]) && AllWhite(line[hi..]))
      && !IsWhite(e[0]) && !IsWhite(e[|e| - 1])
  {
    FormatEnglish(details, translate);
    var line := NonBlankLines(details)[i];
    assert FormatScenarioDetails(details, translate)[i].english == Trim(line);
    var lo, hi := TrimSlice(line);
  }

  /**
   * A failed fetch for line `i` (a thrown fetch or an error body) yields the fallback text
   * with the failure's message for that entry only: swapping in fetches that fail for
   * line `i` and answer every other line as before leaves every other entry as it was,
   * even one whose text repeats line `i`.
   */
  lemma FailureIsolated(details: string, translate: LineOracles, broken: LineOracles, i: int, message: string)
    requires 0 <= i < |NonBlankLines(details)|
    requires var lines := NonBlankLines(details);
      && TranslateText(LineReply(Trim(lines[i]), broken(i))) == Failure(message)
      && forall j :: 0 <= j < |lines| && j != i ==>
           LineReply(Trim(lines[j]), broken(j)) == LineReply(Trim(lines[j]), translate(j))
    ensures var r, s := FormatScenarioDetails(details, translate), FormatScenarioDetails(details, broken);
      && |s| == |r|
      && s[i] == ConversationLine(r[i].english, Some(FALLBACK_PREFIX + message))
      && forall j :: 0 <= j < |r| && j != i ==> s[j] == r[j]
  {
    var lines := NonBlankLines(details);
    var r, s := FormatLines(lines, translate), FormatLines(lines, broken);
    FormatLineFailed(lines[i], broken(i), message);
    forall j | 0 <= j < |r| && j != i ensures s[j] == r[j] {
      FormatLineSameReply(lines[j], broken(j), translate(j));
    }
  }

  /** A line whose fetch fails gets the fallback text with the failure's message. */
  lemma FormatLineFailed(line: string, translate: TranslateOracle, message: string)
    requires TranslateText(LineReply(Trim(line), translate)) == Failure(message)
    ensures FormatLine(line, translate) == ConversationLine(Trim(line), Some(FALLBACK_PREFIX + message))
  {
  }

  /** A line is formatted from its fetch's reply alone. */
  lemma FormatLineSameReply(line: string, t: TranslateOracle, u: TranslateOracle)
    requires LineReply(Trim(line), t) == LineReply(Trim(line), u)
    ensures FormatLine(line, t) == FormatLine(line, u)
  {
  }

  /** Google Translate as one provider call sees it: the call's request body in, its outcome out. */
  type GoogleOracle = TranslateApi.TranslateRequest -> TranslateApi.Upstream

  /** The relay of pages/api/translate.js, as written, for one fetch, with its key and Google's reply. */
  function RelayOracle(apiKey: Option<string>, google: GoogleOracle): TranslateOracle {
    req => Received(TranslateApi.HandleAsWritten("POST", req, apiKey, google(req)).response.body)
  }

  /** The relay for every line's fetch, each with its own provider outcome. */
  function RelayLines(apiKey: Option<string>, google: nat -> GoogleOracle): LineOracles {
    (i: nat) => RelayOracle(apiKey, google(i))
  }

  /** Through the relay, `translateText` never returns `undefined` for a line: it fails or translates. */
  lemma RelayNeverUndefined(apiKey: Option<string>, google: GoogleOracle, text: Option<string>)
    ensures var r := TranslateText(RelayOracle(apiKey, google)(TranslationRequest(text)));
      r.Failure? || r.value.Some?
  {
    var req := TranslationRequest(text);
    var x := TranslateApi.HandleAsWritten("POST", req, apiKey, google(req));
    assert RelayOracle(apiKey, google)(req) == Received(x.response.body);
    assert x.response.body.TranslateError? ==> x.response.body.error != "";
  }

  /** With no key configured, the relay answers every non-empty text with its configuration error. */
  lemma UnconfiguredText(text: string, google: GoogleOracle)
    requires text != ""
    ensures RelayOracle(None, google)(TranslationRequest(Some(text))) == Received(TranslateError(NOT_CONFIGURED))
  {
    var req := TranslationRequest(Some(text));
    assert Truthy(req.text) && Truthy(req.targetLang);
    var x := TranslateApi.HandleAsWritten("POST", req, None, google(req));
    assert x == Reject(500, NOT_CONFIGURED);
    assert RelayOracle(None, google)(req) == Received(x.response.body);
  }

  /** With no key configured, a line's translation is the relay's configuration error. */
  lemma UnconfiguredLine(line: string, google: GoogleOracle)
    requires NonBlank(line)
    ensures FormatLine(line, RelayOracle(None, google)).bangla == Some(FALLBACK_PREFIX + TranslateApi.NOT_CONFIGURED)
  {
    UnconfiguredText(Trim(line), google);
    FormatLineBangla(line, RelayOracle(None, google));
  }

  /** With no key configured, every line of a conversation shows the relay's configuration error. */
  lemma UnconfiguredRelayFallsBack(details: string, google: nat -> GoogleOracle)
    ensures var r := FormatScenarioDetails(details, RelayLines(None, google));
      forall i :: 0 <= i < |r| ==> r[i].bangla == Some(FALLBACK_PREFIX + TranslateApi.NOT_CONFIGURED)
  {
    var lines := NonBlankLines(details);
    var r := FormatScenarioDetails(details, RelayLines(None, google));
    FormatEnglish(details, RelayLines(None, google));
    forall i | 0 <= i < |r| ensures r[i].bangla == Some(FALLBACK_PREFIX + TranslateApi.NOT_CONFIGURED) {
      assert r[i] == FormatLine(lines[i], RelayOracle(None, google(i)));
      UnconfiguredLine(lines[i], google(i));
    }
  }

  /**
   * An ok provider reply without a first translation entry (such as `{}`) reaches the
   * relay's catch, so the relay answers with its server error.
   */
  lemma MalformedReplyText(text: string, key: string, google: GoogleOracle)
    requires text != "" && key != ""
    requires var u := google(TranslationRequest(Some(text)));
      u.Responded? && Ok(u.status) && u.json.Some? && !HasFirstEntry(u.json.value)
    ensures RelayOracle(Some(key), google)(TranslationRequest(Some(text))) == Received(TranslateError(SERVER_ERROR))
  {
    var req := TranslationRequest(Some(text));
    var u := google(req);
    assert Truthy(req.text) && Truthy(req.targetLang);
    MalformedRepliesAsWritten(req, key, u.status, u.statusText, u.json.value);
    var x := TranslateApi.HandleAsWritten("POST", req, Some(key), u);
    assert RelayOracle(Some(key), google)(req) == Received(x.response.body);
  }

  /** Such a reply shows the line with the fallback text carrying the relay's server error. */
  lemma MalformedReplyLine(line: string, key: string, google: GoogleOracle)
    requires NonBlank(line) && key != ""
    requires var u := google(TranslationRequest(Some(Trim(line))));
      u.Responded? && Ok(u.status) && u.json.Some? && !HasFirstEntry(u.json.value)
    ensures FormatLine(line, RelayOracle(Some(key), google)).bangla == Some(FALLBACK_PREFIX + SERVER_ERROR)
  {
    MalformedReplyText(Trim(line), key, google);
    FormatLineBangla(line, RelayOracle(Some(key), google));
  }

  /**
   * `setScenarios(prev => Array.from(new Set([...prev, ...newScenarios])))`: the result
   * never holds a title twice, whatever the lists it starts from.
   */
  function MergeScenarios(prev: seq<string>, batch: seq<string>): (r: seq<string>)
    ensures NoDuplicates(r)
  {
    Distinct(prev + batch)
  }

  /** A merge gains nothing and loses nothing but repeats. */
  lemma MergeKeepsEveryTitle(prev: seq<string>, batch: seq<string>)
    ensures forall x :: x in MergeScenarios(prev, batch) <==> x in prev || x in batch
  {
    assert forall x :: x in prev + batch <==> x in prev || x in batch;
  }

  /**
   * Merging into a list without repeats keeps that list as its prefix and appends the
   * batch's titles that it does not hold yet.
   */
  lemma MergeAppendsNew(prev: seq<string>, batch: seq<string>)
    requires NoDuplicates(prev)
    ensures var r := MergeScenarios(prev, batch);
      && r == prev + Filter(Distinct(batch), Absent(prev))
      && forall i :: |prev| <= i < |r| ==> r[i] in batch && r[i] !in prev
  {
    DistinctAppend(prev, batch);
    var d := Distinct(batch);
    var added := Filter(d, Absent(prev));
    FilterFrom(d, Absent(prev));
    var r := prev + added;
    forall i | |prev| <= i < |r| ensures r[i] in batch && r[i] !in prev {
      assert r[i] == added[i - |prev|];
    }
  }

  /** Two titles a merge adds keep the order of their first occurrence in the batch. */
  lemma MergeAddsInBatchOrder(prev: seq<string>, batch: seq<string>, i: int, j: int)
    requires NoDuplicates(prev)
    requires |prev| <= i < j < |MergeScenarios(prev, batch)|
    ensures var r := MergeScenarios(prev, batch);
      r[i] in batch && r[j] in batch && FirstIndex(batch, r[i]) < FirstIndex(batch, r[j])
  {
    MergeAppendsNew(prev, batch);
    var d := Distinct(batch);
    var r := MergeScenarios(prev, batch);
    var p, q := FilterSubsequence(d, Absent(prev), i - |prev|, j - |prev|);
    assert r[i] == d[p] && r[j] == d[q];
    DistinctFirstOccurrenceOrder(batch);
    assert FirstIndex(batch, d[p]) < FirstIndex(batch, d[q]);
  }

  /** The bot message `sendMessage` appends for the input, after the reply and its translation. */
  function BotReply(input: string, generate: GenerateOracle, translate: TranslateOracle): Message {
    match ReplyText(generate(DetailsRequest(input)))
    case Failure(e) => Message(Some(SEND_ERROR_PREFIX + e), Bot)
    case Success(response) =>
      match TranslateText(translate(TranslationRequest(response)))
      case Failure(e) => Message(Some(SEND_ERROR_PREFIX + e), Bot)
      case Success(t) => Message(t, Bot)
  }

  /**
   * The bot message is the translated reply, or the error prefix followed by the message
   * of whichever call failed: the generation fetch, or the translation.
   */
  lemma BotReplyText(input: string, generate: GenerateOracle, translate: TranslateOracle)
    ensures var m, reply := BotReply(input, generate, translate), ReplyText(generate(DetailsRequest(input)));
      && m.sender == Bot
      && (reply.Failure? ==> m.text == Some(SEND_ERROR_PREFIX + reply.error))
      && (reply.Success? ==>
            var t := TranslateText(translate(TranslationRequest(reply.value)));
            && (t.Failure? ==> m.text == Some(SEND_ERROR_PREFIX + t.error))
            && (t.Success? ==> m.text == t.value))
  {
  }

  /**
   * A generation reply without `text` is posted to the relay without `text`, so the bot
   * message is the relay's missing-parameter error.
   */
  lemma MissingReplyReportsMissingParameters(input: string, generate: GenerateOracle, apiKey: Option<string>,
                                             google: GoogleOracle)
    requires generate(DetailsRequest(input)).Received? && generate(DetailsRequest(input)).body.GenerateError?
    ensures BotReply(input, generate, RelayOracle(apiKey, google)).text
         == Some(SEND_ERROR_PREFIX + TranslateApi.MISSING_PARAMETERS)
  {
    var req := TranslationRequest(None);
    assert Precheck("POST", req, apiKey) == Some(Reject(400, MISSING_PARAMETERS));
    assert RelayOracle(apiKey, google)(req) == Received(TranslateError(MISSING_PARAMETERS));
  }

  /** The component's state. */
  class ChatView {
    var messages: seq<Message>
    var input: string
    var scenarios: seq<string>
    var selectedScenario: Option<string>
    var scenarioDetails: seq<ConversationLine>
    var hasMore: bool

    /** The scenario list never holds the same title twice. */
    ghost predicate Valid()
      reads this
    {
      NoDuplicates(scenarios)
    }

    /** The initial `useState` values. */
    constructor ()
      ensures Valid()
      ensures messages == [] && input == "" && scenarios == []
      ensures selectedScenario == None && scenarioDetails == [] && hasMore
    {
      messages := [];
      input := "";
      scenarios := [];
      selectedScenario := None;
      scenarioDetails := [];
      hasMore := true;
    }

    /** The input box's `onChange`. */
    method SetInput(text: string)
      requires Valid()
      modifies this
      ensures Valid()
      ensures input == text
      ensures messages == old(messages) && scenarios == old(scenarios) && hasMore == old(hasMore)
      ensures selectedScenario == old(selectedScenario) && scenarioDetails == old(scenarioDetails)
    {
      input := text;
    }

    /**
     * `loadScenarios`: a reply with text merges its batch into the list; a thrown fetch
     * or a reply without text (whose `split` throws) turns `hasMore` off.
     */
    method LoadScenarios(generate: GenerateOracle)
      requires Valid()
      modifies this
      ensures Valid()
      ensures old(scenarios) <= scenarios
      ensures var reply := ReplyText(generate(ScenarioListRequest()));
        if HasText(reply) then
          scenarios == MergeScenarios(old(scenarios), ScenarioBatch(reply.value.value)) && hasMore == old(hasMore)
        else
          scenarios == old(scenarios) && !hasMore
      ensures messages == old(messages) && input == old(input)
      ensures selectedScenario == old(selectedScenario) && scenarioDetails == old(scenarioDetails)
    {
      var reply := ReplyText(generate(ScenarioListRequest()));
      if HasText(reply) {
        var batch := ScenarioBatch(reply.value.value);
        MergeAppendsNew(scenarios, batch);
        scenarios := MergeScenarios(scenarios, batch);
      } else {
        hasMore := false;
      }
    }

    /** `refreshScenarios`: clear the list, the selection and the details, then load afresh. */
    method RefreshScenarios(generate: GenerateOracle)
      modifies this
      ensures Valid()
      ensures var reply := ReplyText(generate(ScenarioListRequest()));
        if HasText(reply) then
          scenarios == Distinct(ScenarioBatch(reply.value.value)) && hasMore
        else
          scenarios == [] && !hasMore
      ensures selectedScenario == None && scenarioDetails == []
      ensures messages == old(messages) && input == old(input)
    {
      scenarios := [];
      selectedScenario := None;
      scenarioDetails := [];
      hasMore := true;
      LoadScenarios(generate);
      var reply := ReplyText(generate(ScenarioListRequest()));
      if HasText(reply) {
        assert [] + ScenarioBatch(reply.value.value) == ScenarioBatch(reply.value.value);
      }
    }

    /**
     * `handleScenarioClick`: with a reply that has text, show its conversation and select
     * the scenario; otherwise (a thrown fetch, or `split` of `undefined`) change nothing.
     */
    method HandleScenarioClick(scenario: string, generate: GenerateOracle, translate: LineOracles)
      requires Valid()
      modifies this
      ensures Valid()
      ensures var reply := ReplyText(generate(DetailsRequest(scenario)));
        if HasText(reply) then
          scenarioDetails == FormatScenarioDetails(reply.value.value, translate) && selectedScenario == Some(scenario)
        else
          scenarioDetails == old(scenarioDetails) && selectedScenario == old(selectedScenario)
      ensures messages == old(messages) && input == old(input)
      ensures scenarios == old(scenarios) && hasMore == old(hasMore)
    {
      var reply := ReplyText(generate(DetailsRequest(scenario)));
      if HasText(reply) {
        scenarioDetails := FormatScenarioDetails(reply.value.value, translate);
        selectedScenario := Some(scenario);
      }
    }

    /** The "Back to Scenarios" button. */
    method BackToScenarios()
      requires Valid()
      modifies this
      ensures Valid()
      ensures selectedScenario == None
      ensures scenarioDetails == old(scenarioDetails) && scenarios == old(scenarios) && hasMore == old(hasMore)
      ensures messages == old(messages) && input == old(input)
    {
      selectedScenario := None;
    }

    /**
     * `sendMessage`: blank input changes nothing; otherwise the user's message and then
     * exactly one bot message are appended and the input is cleared.
     */
    method SendMessage(generate: GenerateOracle, translate: TranslateOracle)
      requires Valid()
      modifies this
      ensures Valid()
      ensures if NonBlank(old(input)) then
          && messages == old(messages) + [Message(Some(old(input)), User), BotReply(old(input), generate, translate)]
          && input == ""
        else messages == old(messages) && input == old(input)
      ensures scenarios == old(scenarios) && hasMore == old(hasMore)
      ensures selectedScenario == old(selectedScenario) && scenarioDetails == old(scenarioDetails)
    {
      var text := input;
      if !NonBlank(text) {
        return;
      }
      var reply := BotReply(text, generate, translate);
      messages := messages + [Message(Some(text), User), reply];
      input := "";
    }
  }
}
