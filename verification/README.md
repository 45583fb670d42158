# EnglishMate chat core in Dafny

EnglishMate is a Next.js chat tutor. The browser component (`components/ChatInterface.js`)
asks a generation relay (`pages/api/cohere.js`) for a list of conversation scenarios and
for example conversations, cuts the generated text into lines, and pairs each English
line with a Bangla translation fetched line by line from a translation relay
(`pages/api/translate.js`). Two earlier versions of the component (`components/old1.js`
and its older copy `components/old.js`) instead ask the model for lines of the form
`English - Bangla` and cut each line at the separator.

This project models that core:

- `JsString`, `JsArray`: the JavaScript built-ins the code relies on: `trim` with the
  ECMAScript white-space set, `indexOf`, `split` with a string separator, `filter`, `map`
  and `Array.from(new Set(xs))`.
- `TranslateApi`: the translation relay as one function from (method, request body, key,
  provider outcome) to (provider call made, HTTP status, JSON body), as written and as
  evidently intended (see Findings).
- `CohereApi`: the generation relay: the provider call it builds and the reply it
  classifies.
- `ChatClient`: what the components share: messages, conversation lines, the relays as the
  browser sees them, the cutting of generated text into scenario titles and non-blank lines.
- `ChatInterface`: the current component: the translated conversation formatter, the
  duplicate-free scenario merge, and a `ChatView` class whose methods are the event handlers.
- `LegacyChat`: `old1.js` and `old.js`: the separator-based formatter and a `LegacyView`
  class. The two files hold the same formatter (lines 32-39), scenario split and
  message handler. `old.js` has the same `loading` flag (line 44), set by the scenario
  click and the send (lines 62-67, 75-85), but its scenario load (lines 51-58) never sets
  it, its scenario click (lines 61-69) has no `.catch`, so a failed click leaves `loading`
  on, and it has no Back button. The flag is not part of the modelled state (see "Left out").

The network is not modelled: each relay is a function parameter (an oracle) from the
request body to either a parsed JSON reply or a thrown error with its message, and each
provider is an outcome parameter of its relay. JavaScript `undefined` is `None`. The
conversation formatter fetches one translation per non-blank line, and each of those fetches
has its own outcome, given by the line's position. The client code talks to the translation
relay as written (`TranslateApi.HandleAsWritten`). The corrected handler
`TranslateApi.Handle` only states the intended behaviour of the finding below.

## Model

| member | source | states |
|---|---|---|
| `JsString.TrimStart` | botV4/englishmate/components/ChatInterface.js:57 | the result is a suffix of the input, everything removed is white space, and it does not start with white space |
| `JsString.TrimEnd` | botV4/englishmate/components/ChatInterface.js:57 | the result is a prefix of the input, everything removed is white space, and it does not end with white space |
| `JsString.Trim` | botV4/englishmate/components/ChatInterface.js:57 | `String.prototype.trim` as `TrimEnd` after `TrimStart`; no contract of its own, its properties are stated by `TrimSlice`, `TrimIdempotent` and `BlankIffAllWhite` |
| `JsString.TrimSlice` | botV4/englishmate/components/ChatInterface.js:57 | `trim` returns a contiguous slice of its input, with only white space outside it and visible characters at both of its ends |
| `JsString.BlankIffAllWhite` | botV4/englishmate/components/ChatInterface.js:54 | `line.trim() !== ""` holds exactly when the line is not made of white space only |
| `JsString.TrimIdempotent` | botV4/englishmate/components/ChatInterface.js:57 | trimming a trimmed line changes nothing |
| `JsString.IndexOf` | botV4/englishmate/components/old1.js:36 | the result is the first occurrence at or after the start position, and `None` means there is none |
| `JsString.IndexOfExtend` | botV4/englishmate/components/old1.js:36 | text appended after an occurrence does not move the first occurrence |
| `JsString.IndexOfAbsent` | botV4/englishmate/components/old1.js:36 | `indexOf` reports none exactly when the separator occurs nowhere in the string |
| `JsString.Split` | botV4/englishmate/components/ChatInterface.js:54 | `split` always yields at least one piece |
| `JsString.JoinSplit` | botV4/englishmate/components/ChatInterface.js:54 | joining the pieces of a split with the separator gives back the original string |
| `JsString.SplitPiecesFree` | botV4/englishmate/components/ChatInterface.js:54 | no piece of a split contains the separator |
| `JsString.SplitAppend` | botV4/englishmate/components/ChatInterface.js:54 | with a one-character separator, `(a + sep + b).split(sep)` is the pieces of `a` followed by those of `b` |
| `JsString.SplitWithoutChar` | botV4/englishmate/components/ChatInterface.js:86 | a string without the separator character splits into itself alone |
| `JsString.SplitFirstPieces` | botV4/englishmate/components/old1.js:36 | the first piece is the text before the first separator; a second piece exists exactly when the separator occurs and is the text up to the next separator |
| `JsString.AfterExtend` | botV4/englishmate/components/old1.js:36 | once the separator occurs, appended text ends up at the end of the text after it |
| `JsString.BeforeExtend` | botV4/englishmate/components/old1.js:36 | once the separator occurs, appending text does not change the text before it |
| `JsArray.Filter` | botV4/englishmate/components/ChatInterface.js:54 | `filter` returns no more elements than it was given, each of them accepted by the predicate |
| `JsArray.FilterFrom` | botV4/englishmate/components/ChatInterface.js:54 | every element `filter` returns comes from its input |
| `JsArray.FilterAppend` | botV4/englishmate/components/ChatInterface.js:54 | filtering a concatenation is the concatenation of the filtered parts, so order is kept |
| `JsArray.FilterPosition` | botV4/englishmate/components/ChatInterface.js:86 | each kept element sits at some position of the input; it serves `FilterSubsequence` |
| `JsArray.FilterSubsequence` | botV4/englishmate/components/ChatInterface.js:86 | two kept elements appear in the input at positions in the same order; `MergeAddsInBatchOrder` uses it for the titles the merge adds |
| `JsArray.Map` | botV4/englishmate/components/ChatInterface.js:56 | `map` yields one result per element, position by position |
| `JsArray.Distinct` | botV4/englishmate/components/ChatInterface.js:91 | `Array.from(new Set(s))` has no repeated value, holds exactly the values of `s`, and is no longer than `s` |
| `JsArray.DistinctFirstOccurrenceOrder` | botV4/englishmate/components/ChatInterface.js:91 | the values come in the order of their first occurrence in the input |
| `JsArray.DistinctOfDistinct` | botV4/englishmate/components/ChatInterface.js:91 | a list without repeated values is returned unchanged |
| `JsArray.DistinctAppend` | botV4/englishmate/components/ChatInterface.js:90-91 | deduplicating `[...prev, ...batch]` for a repeat-free `prev` gives `prev` followed by the batch's values not in `prev`, in first-occurrence order |
| `TranslateApi.Precheck` | botV4/englishmate/pages/api/translate.js:6-25 | the early returns in their order: a non-POST method gives 405 whatever else holds; then missing or empty text or target language gives 400; then a missing key gives 500 "not configured"; only a request passing all three goes on |
| `TranslateApi.ProviderRequest` | botV4/englishmate/pages/api/translate.js:27-39 | the provider call: the key in the URL and `{q: text, source: "en", target, format: "text"}`; no contract of its own, `HandleAsWritten` states when it is made and with what |
| `TranslateApi.ClassifyAsWritten` | botV4/englishmate/pages/api/translate.js:29-61 | the try/catch ladder as written; no contract of its own, its cases are stated by `UpstreamErrorForwarded`, `SuccessIsFirstTranslation`, `MalformedRepliesAsWritten` and `ServerErrorAsWritten` through `HandleAsWritten` |
| `TranslateApi.HandleAsWritten` | botV4/englishmate/pages/api/translate.js:3-62 | the provider is called exactly when the prechecks pass, with `{q: text, source: "en", target, format: "text"}` and the key in the URL; the status is 200, 400, 405, 500 or the provider's own non-ok status; 200 comes exactly with a translation; every error message is non-empty |
| `TranslateApi.UpstreamErrorForwarded` | botV4/englishmate/pages/api/translate.js:43-47 | a provider status outside 200-299 is forwarded with "Translation API error: " and the status text |
| `TranslateApi.SuccessIsFirstTranslation` | botV4/englishmate/pages/api/translate.js:57 | 200 is returned exactly for an ok reply with a non-empty first translation, and carries that translation |
| `TranslateApi.MalformedRepliesAsWritten` | botV4/englishmate/pages/api/translate.js:50-60 | as written, an ok reply with a missing `data`, missing `translations` or empty list gets status 500 with the server error; status 500 with the format error comes exactly for a present first entry with an absent or empty `translatedText` |
| `TranslateApi.ServerErrorAsWritten` | botV4/englishmate/pages/api/translate.js:27-60 | once the prechecks pass, a thrown fetch, an ok reply that is not JSON and an ok reply without a first entry all get status 500 with "Translation failed due to server error." |
| `TranslateApi.MissingDataCounterexample` | botV4/englishmate/pages/api/translate.js:50-54 | the reply `{}` with status 200 gets the server error as written and the format error from the corrected handler |
| `TranslateApi.Classify` | botV4/englishmate/pages/api/translate.js:52-57 | an ok provider reply gives the first translation when well formed and the format error otherwise |
| `TranslateApi.Handle` | botV4/englishmate/pages/api/translate.js:3-62 | the corrected handler keeps the prechecks and the provider call, and never replies with an empty error message |
| `TranslateApi.HandleDiffersOnlyOnMalformed` | botV4/englishmate/pages/api/translate.js:50-52 | the corrected and the written handler make the same call and return the same status; their bodies differ exactly when line 50 would throw |
| `TranslateApi.BanglaExample` | botV4/englishmate/pages/api/translate.js:57 | the handler as written passes a well-formed Bangla reply back as `{translatedText}` with status 200 |
| `TranslateApi.MissingParameterExamples` | botV4/englishmate/pages/api/translate.js:13-16 | the handler as written rejects empty text or an empty target language with 400, whatever the key and the provider |
| `CohereApi.Handle` | botV4/englishmate/pages/api/cohere.js:5-35 | the prompt is forwarded unchanged with `max_tokens` 100 and the bearer key; a truthy `text` gives 200 with that text unmodified; a reply without text gives 500 "Invalid response from Cohere API"; a thrown call gives 500 "Failed to fetch Cohere response" |
| `CohereApi.RepliesAreFixedOrGenerated` | botV4/englishmate/pages/api/cohere.js:24-34 | every reply is a non-empty generated text or one of the two fixed errors |
| `CohereApi.Authorization` | botV4/englishmate/pages/api/cohere.js:17 | the header `Bearer ${key}`, with "undefined" when the key is not set; no contract of its own, `CohereApi.Handle` states that every call carries it |
| `ChatClient.ReplyText` | botV4/englishmate/components/ChatInterface.js:16-17 | `data.text` after the fetch: a failure exactly when the fetch or the JSON parse throws, the generated text for a success body, `undefined` for an error body |
| `ChatClient.ScenarioListRequest` | botV4/englishmate/components/ChatInterface.js:8-13 | the body `{prompt: "Suggest a list of common English conversation scenarios."}` of `fetchCaseScenarios`; no contract of its own, the `LoadScenarios` methods state that it is the request sent |
| `ChatClient.Lines` | botV4/englishmate/components/ChatInterface.js:86 | `split('\n')` gives at least one line and no line contains a line break |
| `ChatClient.ScenarioBatch` | botV4/englishmate/components/ChatInterface.js:86 | every scenario title is non-empty and a single line |
| `ChatClient.NonBlankLines` | botV4/englishmate/components/ChatInterface.js:54 | every kept line has visible characters and is a single line |
| `ChatClient.LinesAppend` | botV4/englishmate/components/ChatInterface.js:86 | the lines of `a + "\n" + b` are those of `a` followed by those of `b` |
| `ChatClient.ScenarioBatchAppend` | botV4/englishmate/components/ChatInterface.js:86 | titles are cut line by line, in order |
| `ChatClient.ScenarioBatchOneLine` | botV4/englishmate/components/old.js:54 | a single line is a title unless it is the empty string; it is not trimmed |
| `ChatClient.ScenarioBatchKeepsWhiteSpace` | botV4/englishmate/components/ChatInterface.js:86 | a title ending in a carriage return keeps it, and a line of white space is kept as a title |
| `ChatClient.ScenarioBatchDropsEmptyLine` | botV4/englishmate/components/old1.js:55 | the empty line between two titles is dropped and the titles are kept in order |
| `ChatClient.NonBlankLinesAppend` | botV4/englishmate/components/ChatInterface.js:54 | non-blank lines are kept line by line, in order |
| `ChatClient.NonBlankLinesOneLine` | botV4/englishmate/components/ChatInterface.js:54 | a single line is kept exactly when it is not all white space |
| `ChatInterface.TranslateText` | botV4/englishmate/components/ChatInterface.js:35-49 | `translateText` fails exactly when the fetch throws or the reply has a non-empty `error`, with that message; otherwise it returns `translatedText`, `undefined` when absent |
| `ChatInterface.DetailsRequest` | botV4/englishmate/components/ChatInterface.js:21-28 | the body `{prompt: 'Provide an English conversation for the scenario: "…".'}` of `fetchScenarioDetails`; no contract of its own, `BotReplyText` and the `ChatView` handlers state that it is the request sent |
| `ChatInterface.TranslationRequest` | botV4/englishmate/components/ChatInterface.js:35-42 | the body `{text, targetLang: "bn"}` of `translateText`; no contract of its own, `MissingReplyReportsMissingParameters` and `UnconfiguredText` state what the relay does with it |
| `ChatInterface.FormatLine` | botV4/englishmate/components/ChatInterface.js:57 | the English side is the trimmed line |
| `ChatInterface.FormatLineBangla` | botV4/englishmate/components/ChatInterface.js:58-64 | the Bangla side is the provider's translation, "Translation unavailable: " and the message when the fetch throws or the relay reports an error, and `undefined` for an error body with an empty message |
| `ChatInterface.FormatLines` | botV4/englishmate/components/ChatInterface.js:56-67 | one entry per line, the i-th formatted from the i-th line and the outcome of the i-th fetch |
| `ChatInterface.FormatLinesAppend` | botV4/englishmate/components/ChatInterface.js:56-67 | formatting `la + lb` gives the entries of `la` followed by those of `lb`, the latter formatted with the fetches numbered after `la`'s |
| `ChatInterface.FormatScenarioDetails` | botV4/englishmate/components/ChatInterface.js:53-69 | `formatScenarioDetails`: the non-blank lines formatted with their fetches; no contract of its own, its properties are stated by `FormatEnglish`, `FormatAppend`, `FormatOneLine`, `EnglishIsTrimmedLine` and `FailureIsolated` |
| `ChatInterface.FormatEnglish` | botV4/englishmate/components/ChatInterface.js:53-69 | `formatScenarioDetails` gives one entry per non-blank line, in line order, each entry formatted from its own line and its own fetch, its English the trimmed line and never empty |
| `ChatInterface.FormatAppend` | botV4/englishmate/components/ChatInterface.js:54-67 | the conversation of `a + "\n" + b` is that of `a` followed by that of `b`, whose lines take the fetches after those of `a`, so entries come in line order |
| `ChatInterface.FormatOneLine` | botV4/englishmate/components/ChatInterface.js:54-56 | a single line gives exactly one entry, formatted with the first fetch, unless it is all white space |
| `ChatInterface.EnglishIsTrimmedLine` | botV4/englishmate/components/ChatInterface.js:57-60 | each English side is a slice of its line with only white space cut around it and visible characters at both ends |
| `ChatInterface.FailureIsolated` | botV4/englishmate/components/ChatInterface.js:58-64 | a failed fetch for one line gives that entry the fallback with the failure's message and leaves every other entry as it was, including other copies of the same line |
| `ChatInterface.RelayOracle` | botV4/englishmate/components/ChatInterface.js:36-44 | `fetch('/api/translate')` and `response.json()` as the browser sees them: the body of the relay as written; no contract of its own, stated through `RelayNeverUndefined`, `UnconfiguredText` and `MalformedReplyText` |
| `ChatInterface.RelayNeverUndefined` | botV4/englishmate/components/ChatInterface.js:44-48 | through the translation relay as written, `translateText` either fails or returns a string, never `undefined` |
| `ChatInterface.UnconfiguredText` | botV4/englishmate/pages/api/translate.js:6-25 | with no key configured, the relay answers any POST of a non-empty text to "bn" with the error "Translation service not configured." |
| `ChatInterface.UnconfiguredLine` | botV4/englishmate/pages/api/translate.js:22-25 | with no key configured, a line's Bangla side is the fallback carrying "Translation service not configured." |
| `ChatInterface.UnconfiguredRelayFallsBack` | botV4/englishmate/components/ChatInterface.js:58-64 | with no key configured, every entry of a conversation carries that fallback, whatever each fetch's provider outcome |
| `ChatInterface.MalformedReplyText` | botV4/englishmate/pages/api/translate.js:50-60 | an ok provider reply without a first entry makes `translateText` fail with the relay's server error |
| `ChatInterface.MalformedReplyLine` | botV4/englishmate/components/ChatInterface.js:58-64 | such a reply gives the line the fallback "Translation unavailable: Translation failed due to server error." |
| `ChatInterface.MergeScenarios` | botV4/englishmate/components/ChatInterface.js:89-93 | the merged list never holds the same title twice |
| `ChatInterface.MergeKeepsEveryTitle` | botV4/englishmate/components/ChatInterface.js:90-91 | a title is in the merged list exactly when it was in the old list or in the batch |
| `ChatInterface.MergeAppendsNew` | botV4/englishmate/components/ChatInterface.js:89-93 | for a repeat-free old list, the merge is the old list followed by the batch's new titles, none of them already present |
| `ChatInterface.MergeAddsInBatchOrder` | botV4/englishmate/components/ChatInterface.js:91 | the added titles come in the order of their first occurrence in the batch |
| `ChatInterface.BotReply` | botV4/englishmate/components/ChatInterface.js:142-150 | the bot message of `sendMessage`; no contract of its own, stated by `BotReplyText` and `MissingReplyReportsMissingParameters` |
| `ChatInterface.BotReplyText` | botV4/englishmate/components/ChatInterface.js:142-150 | the bot message is the translated reply, or "Error retrieving response: " and the message of whichever call failed |
| `ChatInterface.MissingReplyReportsMissingParameters` | botV4/englishmate/components/ChatInterface.js:143-145 | a generation reply without `text` makes the bot report the translation relay's missing-parameter error |
| `ChatInterface.ChatView.constructor` | botV4/englishmate/components/ChatInterface.js:73-80 | the initial state: no messages, empty input and lists, nothing selected, more scenarios expected |
| `ChatInterface.ChatView.SetInput` | botV4/englishmate/components/ChatInterface.js:297 | typing replaces the input and nothing else |
| `ChatInterface.ChatView.LoadScenarios` | botV4/englishmate/components/ChatInterface.js:83-100 | a reply with text merges its titles into the list, which keeps its old entries as a prefix and stays repeat-free; otherwise the list is unchanged and `hasMore` becomes false |
| `ChatInterface.ChatView.RefreshScenarios` | botV4/englishmate/components/ChatInterface.js:128-134 | selection and conversation are cleared; the list becomes the deduplicated new batch with `hasMore` true, or stays empty with `hasMore` false when the load fails |
| `ChatInterface.ChatView.HandleScenarioClick` | botV4/englishmate/components/ChatInterface.js:112-125 | with a reply that has text, the conversation and the selection are both set; otherwise neither changes |
| `ChatInterface.ChatView.BackToScenarios` | botV4/englishmate/components/ChatInterface.js:251 | only the selection is cleared |
| `ChatInterface.ChatView.SendMessage` | botV4/englishmate/components/ChatInterface.js:137-155 | blank input changes nothing; otherwise the user message and exactly one bot message are appended and the input is cleared |
| `LegacyChat.FormatLine` | botV4/englishmate/components/old1.js:36-37 | English is the trimmed text before the first " - "; Bangla is the trimmed text between the first and the second, `""` without a separator, and always a string |
| `LegacyChat.FormatScenarioDetails` | botV4/englishmate/components/old1.js:32-39 | the separator-based `formatScenarioDetails` of old1.js and old.js; no contract of its own, its properties are stated by `FormatBothStrings`, `FormatAppend` and `FormatOneLine` |
| `LegacyChat.DetailsRequest` | botV4/englishmate/components/old1.js:18-24 | the body `{prompt: "Give the conversation for this scenario: …, along with Bangla translation."}`; no contract of its own, `LegacyChat.BotReply` and the `LegacyView` handlers state that it is the request sent |
| `LegacyChat.NoSeparator` | botV4/englishmate/components/old.js:36-37 | a line without " - " is all English with an empty Bangla side |
| `LegacyChat.TailDropped` | botV4/englishmate/components/old.js:36-37 | once a line holds two separators, whatever follows cannot change its entry |
| `LegacyChat.FormatBothStrings` | botV4/englishmate/components/old.js:32-39 | one entry per non-blank line, and every entry has both sides as strings |
| `LegacyChat.FormatAppend` | botV4/englishmate/components/old1.js:33-35 | the conversation of `a + "\n" + b` is that of `a` followed by that of `b` |
| `LegacyChat.FormatOneLine` | botV4/englishmate/components/old.js:33-35 | a single line gives exactly one entry unless it is all white space |
| `LegacyChat.BotReply` | botV4/englishmate/components/old1.js:79-84 | the bot message is the reply's text, `undefined` for an error body, or the fixed "Error retrieving response. Try again." when the fetch throws |
| `LegacyChat.LegacyView.constructor` | botV4/englishmate/components/old1.js:42-48 | the initial state: no messages, empty input and lists, nothing selected |
| `LegacyChat.LegacyView.SetInput` | botV4/englishmate/components/old1.js:201 | typing replaces the input and nothing else |
| `LegacyChat.LegacyView.LoadScenarios` | botV4/englishmate/components/old1.js:51-60 | a reply with text replaces the list by its titles, whatever the list held; otherwise nothing changes |
| `LegacyChat.LegacyView.HandleScenarioClick` | botV4/englishmate/components/old1.js:63-71 | the conversation and the selection are set together on success, and neither changes on failure |
| `LegacyChat.LegacyView.BackToScenarios` | botV4/englishmate/components/old1.js:155 | only the selection is cleared |
| `LegacyChat.LegacyView.SendMessage` | botV4/englishmate/components/old.js:72-87 | blank input changes nothing; otherwise the user message and exactly one bot message are appended and the input is cleared |

## Left out

- Rendering, styling, the `InfiniteScroll` wiring, the `useEffect` that starts the first load, `showHelp` and the `loading` flag: presentation only.
- The network, Google Translate and Cohere: every call is a parameter (an oracle from request to reply or thrown error); environment keys are optional strings; `console` logging is dropped.
- `Promise.all` concurrency: the i-th fetch's outcome is a parameter of position i, and the results are kept in line order, which is what the positional result of `Promise.all` gives; the order in which the fetches are sent or settle is not modelled.
- Interleavings: `refreshScenarios` does not await its load, and `InfiniteScroll` may start a load while another runs; each handler is modelled as running to completion on its own. The render between the user message and the bot message is not modelled, only the final state.
- JSON values other than strings or absence (a number as `text`, an object as `error`), and a request without a body, whose destructuring throws before the handler's `try`.
- translate.js:44 reads the provider's error body with `response.text()`; a failure of that read is not modelled.
- Strings are sequences of characters, not UTF-16 code units; `split` and `trim` behave the same on both for the separators and white space involved.
- old.js has no `.catch` on its promises and no Back button; apart from the `loading` flag, which is not modelled, its failure paths leave the same state as in old1.js, which the shared model describes.
- `JsArray.Filter`: its contract states only length and acceptance; order and origin are stated by `FilterAppend`, `FilterFrom` and `FilterSubsequence`.
- pages/api/gpt.js and pages/10min-english.js are not part of this model.

## Findings

| source | as written | input that shows it | evidently intended | confidence | as-written member | corrected member |
|---|---|---|---|---|---|---|
| botV4/englishmate/pages/api/translate.js:50-54 | line 50 reads `data.data.translations[0].translatedText` before line 52 checks that `data` and `translations` exist | provider reply `{}` with status 200: line 50 throws and the reply is 500 "Translation failed due to server error." | a malformed provider reply gets 500 "Unexpected translation response format." | not executed | `TranslateApi.MissingDataCounterexample` | `TranslateApi.Classify` |
