# Export-assistant chat page: a verified model of its state logic

The front end of the export assistant (`frontend/src/App.jsx`) is a single
React component. It holds a chat with a bot, a side panel of saved chats, a
price-prediction form, and the code that turns a plain-text bot reply into
lists and paragraphs. This project models the parts of that component that
are logic rather than markup, and proves what they promise:

- **TextBlocks** (`TextBlocks.dfy`): the plain-text branch of the reply
  renderer. It covers `String.prototype.trim`, with ECMAScript's white-space
  and line-terminator set, and `split('\n')` with its inverse `join('\n')`.
  Each line is classified as a list item, a blank line or a paragraph, and
  the per-line loop groups runs of items into lists. The loop is a method,
  `ReadLines`, proved against the specification function `Scan`. The output
  is the sequence of blocks (`List(items)` or `Para(text)`) that the markup
  is built from.
- **ChatHistory** (`ChatHistory.dfy`): messages, chats, and the pure list
  operations the chat handlers apply to the saved-chat list: save (replace
  in place or prepend), find, filter by id, move to the front, and rename.
  The chat ids `chat-<n>` are also here, with the invariant `Kept`: ids are
  unique, every id was handed out below the counter, and every saved chat
  holds more than the greeting.
- **Recommendations** (`Recommendations.dfy`): the canned country
  recommendation `getDummyResponse`. It has an exact-key table over the
  lower-cased product, a fallback entry, and the chart series derived from
  the chosen entry.
- **PredictionForm** (`PredictionForm.dfy`): the five-field form, its
  single-field update, and the request body posted for a prediction.
- **ChatApp** (`ChatApp.dfy`): the component itself, a class `App` whose
  fields are the component's state.
  - Each handler is a method that applies its state updates in the order
    the component issues them. Reads inside a handler see the state as it
    was before the handler ran.
  - The two requests are split at their `await`. `Submit` and
    `BeginPredict` run before the request, and `Complete` and
    `CompletePredict` run after it, taking how the request ended as a
    parameter.
  - `SendMessage` and `Predict` run both halves with nothing in between.
- `Decimal.dfy` prints naturals the way a template literal prints them.
  `Wrappers.dfy` holds `Option` and `Result`.

Two consequences of applying the updates in order are reproduced as the
code has them:

- `handleLoadChat` looks the chosen chat up in the history as it was before
  its own save step. So reloading the open chat after it was saved once
  brings back the saved version, and the messages added since are lost
  (`ChatHistory.ReloadOpenChat`).
- `handleDeleteChat` on the open chat filters the chat out and then runs
  `handleNewChat`, whose save step runs after the filter. A deleted open
  chat that holds more than the greeting therefore comes back at the front
  of the list (`ChatHistory.DeletedOpenChatReturns`, `ChatApp.App.DeleteChat`).

Separately, two parts of the modelled code are never reached from the rest
of the component, and both are modelled as written all the same:

- `getDummyResponse` is not called anywhere in the file.
- The message list passes a bot message to the rich renderer only when its
  text is an object (`frontend/src/App.jsx:659-660`), so plain-text replies
  never reach the string branch.

## Model

| member | source | states |
|---|---|---|
| TextBlocks.Trim | frontend/src/App.jsx:472-473 | the trimmed text neither starts nor ends with white space, and it is empty exactly when the line is all white space |
| TextBlocks.TrimOfPadded | frontend/src/App.jsx:472-473 | trimming removes exactly the white-space padding around a core that starts and ends with non-space characters |
| TextBlocks.TrimKeepsTrimmed | frontend/src/App.jsx:473 | trimming a string that already starts and ends with non-space characters leaves it unchanged |
| TextBlocks.Split | frontend/src/App.jsx:465 | splitting on line feeds always yields at least one line |
| TextBlocks.JoinSplit | frontend/src/App.jsx:465 | joining the split lines with line feeds gives the reply back, and no line holds a line feed |
| TextBlocks.SplitJoin | frontend/src/App.jsx:465 | splitting the join of lines without line feeds gives those lines back |
| TextBlocks.IsBullet | frontend/src/App.jsx:472 | a bullet's trimmed form has at least three characters, so a marker and a space with nothing after them is no bullet |
| TextBlocks.MarkerAloneIsPlain | frontend/src/App.jsx:472-492 | a marker with only white space after it becomes a paragraph holding the bare marker |
| TextBlocks.Classify | frontend/src/App.jsx:472-495 | a line is a list item exactly when it is a bullet, blank exactly when it is all white space, and otherwise a paragraph of its non-empty trimmed text |
| TextBlocks.ItemText | frontend/src/App.jsx:472-473 | the text of a bullet line (its trimmed form with the two-character marker cut off, trimmed again) is non-empty and trimmed |
| TextBlocks.ClassifyMarkedLine | frontend/src/App.jsx:472-473 | white space, then `*` or `-`, a space and any further white space, a trimmed item and more white space classify as a list item holding exactly that item, so the item is never affected by the width of the gap after the marker |
| TextBlocks.ClassifyBlank | frontend/src/App.jsx:488-489 | a line of white space only is blank and adds no block |
| TextBlocks.Step | frontend/src/App.jsx:470-497 | the reference step the loop is proved against: emitted blocks are only ever extended, and a list is pending afterwards exactly when the line was a bullet |
| TextBlocks.Scan | frontend/src/App.jsx:470-497 | the reference scan: a list is pending exactly when the last line read is a bullet |
| TextBlocks.Group | frontend/src/App.jsx:470-510 | the reference grouping: the scanned blocks, then at most the one list still pending, which is absent when the last line is not a bullet |
| TextBlocks.ReadLine | frontend/src/App.jsx:471-496 | one pass of the per-line callback performs exactly one step of the grouping scan on the accumulators |
| TextBlocks.ReadLines | frontend/src/App.jsx:467-497 | after the loop, the emitted blocks and the pending list are the scan of every classified line |
| TextBlocks.RenderText | frontend/src/App.jsx:464-517 | the blocks are the grouping of the split reply: read back in order, they show every bullet item and every non-blank trimmed line exactly once, and no list is empty |
| TextBlocks.GroupShowsEveryLine | frontend/src/App.jsx:470-510 | for any classified lines, unfolding the groups gives the non-blank lines in order, so the total item count is the number of bullet lines; no list is empty |
| TextBlocks.BlocksShowEveryLine | frontend/src/App.jsx:465-510 | the same for the lines of a reply |
| TextBlocks.BulletExtendsList | frontend/src/App.jsx:472-473 | a bullet after a bullet appends its item to the last list and changes nothing else |
| TextBlocks.BulletOpensList | frontend/src/App.jsx:472-473 | a bullet first, or after a non-bullet, opens a new one-item list after the existing blocks |
| TextBlocks.BlankLineClosesList | frontend/src/App.jsx:474-489 | a blank line adds no block and leaves no pending list |
| TextBlocks.PlainLineClosesList | frontend/src/App.jsx:474-495 | a non-blank non-bullet line adds exactly one paragraph of its text after the flushed list |
| TextBlocks.BlankLineSeparatesLists | frontend/src/App.jsx:472-489 | a blank line between two bullets yields two adjacent lists |
| Decimal.NatToString | frontend/src/App.jsx:85 | a number prints as at least one decimal digit with no leading zero |
| Decimal.ReadBack | frontend/src/App.jsx:85 | reading the printed digits back in base ten gives the number |
| Decimal.NatToStringInjective | frontend/src/App.jsx:85 | different numbers print differently |
| ChatHistory.Replace | frontend/src/App.jsx:77 | same length; every chat with the saved chat's id becomes that chat, and every other chat is unchanged |
| ChatHistory.Save | frontend/src/App.jsx:74-81 | saving keeps the id list when the id is present and prepends the id otherwise; unique ids stay unique |
| ChatHistory.SaveMembers | frontend/src/App.jsx:74-81 | after saving, the chat is in the list, every chat with another id is kept, and nothing else appears |
| ChatHistory.SaveIdempotent | frontend/src/App.jsx:103-110 | saving the same chat twice equals saving it once |
| ChatHistory.Find | frontend/src/App.jsx:113 | a chat is found exactly when its id is in the list, and the one found is in the list with that id |
| ChatHistory.FindUnique | frontend/src/App.jsx:113 | with unique ids, find returns the only chat with that id |
| ChatHistory.Remove | frontend/src/App.jsx:134 | the filtered list is no longer than the original |
| ChatHistory.RemoveMembers | frontend/src/App.jsx:134 | exactly the chats with another id remain; if no chat has the id, the list is unchanged |
| ChatHistory.RemoveKeepsOrder | frontend/src/App.jsx:134 | two kept chats stay in the same relative order |
| ChatHistory.RemoveAppend | frontend/src/App.jsx:134 | filtering a concatenation filters each part in place |
| ChatHistory.RemoveUnique | frontend/src/App.jsx:134 | filtering keeps ids unique |
| ChatHistory.MoveToFront | frontend/src/App.jsx:118 | the chosen chat is first, and the rest is exactly the filtered list, so the other chats keep their relative order (RemoveMembers, RemoveKeepsOrder); no other entry carries its id; unique ids stay unique |
| ChatHistory.MoveToFrontMembers | frontend/src/App.jsx:118 | every chat with another id is kept, and nothing but the chosen chat is added |
| ChatHistory.Rename | frontend/src/App.jsx:124-126 | ids, length, order and messages are kept; matching chats get the new title and all others are unchanged |
| ChatHistory.FindRenamed | frontend/src/App.jsx:124-126 | after a rename the chat is found under its new title |
| ChatHistory.Stash | frontend/src/App.jsx:68-82 | with at most one message the history is unchanged; otherwise it is the history with the open chat saved, replacing its entry in place or prepended (Save, SaveMembers), so the open chat is in it under its id; unique ids stay unique |
| ChatHistory.StashThenFind | frontend/src/App.jsx:97-113 | a stashed chat is found again exactly as stashed |
| ChatHistory.DeletedOpenChatReturns | frontend/src/App.jsx:133-137 | filtering out the open chat and then stashing it puts it back at the front of the other chats |
| ChatHistory.ReloadOpenChat | frontend/src/App.jsx:96-119 | reloading the open, already-saved chat puts the saved version first and drops the unsaved version from the list |
| ChatHistory.ChatId | frontend/src/App.jsx:85 | a chat id is `chat-` followed by at least one character |
| ChatHistory.ChatIdInjective | frontend/src/App.jsx:85 | different counters give different chat ids |
| ChatHistory.NextIdIsFresh | frontend/src/App.jsx:85-87 | the id the counter hands out next belongs to no saved chat |
| ChatHistory.IssuedGrows | frontend/src/App.jsx:87 | raising the counter keeps every id already handed out |
| ChatHistory.StashKept | frontend/src/App.jsx:67-87 | the stash keeps the history invariant, also after the counter moves on, and the next id stays fresh |
| ChatHistory.RemoveKept | frontend/src/App.jsx:134 | filtering keeps the history invariant |
| ChatHistory.MoveToFrontKept | frontend/src/App.jsx:118 | moving a saved chat to the front keeps the history invariant |
| ChatHistory.RenameKept | frontend/src/App.jsx:124-126 | renaming keeps the history invariant |
| ChatHistory.LoadKept | frontend/src/App.jsx:96-119 | a stash followed by moving a chat from the pre-stash list to the front keeps the invariant |
| Recommendations.WellFormedEntry | frontend/src/App.jsx:144-173 | each table entry has three countries with strictly decreasing volumes in whole millions, and a resolved HS-code line |
| Recommendations.Table | frontend/src/App.jsx:143-174 | an entry exists exactly for the three keys, and every entry is well formed |
| Recommendations.Fallback | frontend/src/App.jsx:175-184 | the fallback is well formed and reports the analysis as pending |
| Recommendations.Chart | frontend/src/App.jsx:185-188 | one bar per country, in order, with the same name and volume in millions |
| Recommendations.ExactMillions | frontend/src/App.jsx:187 | a whole number of millions charts with no rounding |
| Recommendations.WithChart | frontend/src/App.jsx:185-189 | only the chart is filled in, with three bars whose volumes are the countries' volumes divided by one million |
| Recommendations.DummyResponse | frontend/src/App.jsx:141-190 | for a key, the result is that key's table entry; for any other product, it is the fallback entry, whose headline quotes the product as typed; in both cases only the chart is added; three countries in descending order; the chart matches the countries |
| Recommendations.KeyedResponseIgnoresSpelling | frontend/src/App.jsx:142-175 | for a key, the response does not depend on how the product was capitalised |
| Recommendations.Read | frontend/src/App.jsx:175 | the property read yields an own entry exactly for the keys, and an inherited member exactly for the names of Object.prototype |
| Recommendations.DummyResponseAsWritten | frontend/src/App.jsx:175-189 | the lookup as written throws exactly for inherited names, and otherwise agrees with DummyResponse |
| Recommendations.ConstructorThrows | frontend/src/App.jsx:175-185 | for the product "constructor" the code as written throws, where the fallback was intended |
| PredictionForm.EmptyForm | frontend/src/App.jsx:28-34 | every field of the initial form is empty |
| PredictionForm.Set | frontend/src/App.jsx:251-257 | the named field takes the value, and every other field is unchanged |
| PredictionForm.SetLaws | frontend/src/App.jsx:253-256 | writing back a field's value changes nothing, and the second of two writes wins |
| PredictionForm.SetCommutes | frontend/src/App.jsx:253-256 | edits to different fields commute |
| PredictionForm.OrNull | frontend/src/App.jsx:266 | empty text becomes null, and any other text is kept |
| PredictionForm.BuildPayload | frontend/src/App.jsx:265-280 | the month is the month index plus one, in 1..12; the four text fields round-trip and are never sent empty; the country and category are echoed in their clean fields; unparsable shipping becomes 0; city and seller are null; stock is 100 and the platform is "E-commerce" |
| ChatApp.FailureMessage | frontend/src/App.jsx:224 | a thrown error gives its own message; a non-2xx status gives "API hatası: ", then the status in decimal (read back by Decimal.ReadBack), then one space and the status text |
| ChatApp.UserMessage | frontend/src/App.jsx:197-201 | a user message holding exactly the typed text, whose id is `user-` followed by the clock reading in decimal |
| ChatApp.ChatReply | frontend/src/App.jsx:229-243 | a bot message: the reply text with id `bot-` followed by the clock reading in decimal, or, on failure, the apology wrapped around the error message with id `bot-error-` followed by the clock reading |
| ChatApp.PredictionReply | frontend/src/App.jsx:300-322 | a bot message: the price and recommendation with id `bot-prediction-` followed by the clock reading in decimal, or, on failure, the apology followed by the error message with id `bot-error-pred-` followed by the clock reading |
| ChatApp.ClockIdsDiffer | frontend/src/App.jsx:198-319 | one id prefix followed by two different clock readings gives two different ids |
| ChatApp.UserIdsDiffer | frontend/src/App.jsx:198 | two questions asked at different clock readings get different ids, so different list keys, whatever their text |
| ChatApp.MessageKindsDistinct | frontend/src/App.jsx:198-321 | the user message, the chat reply and the prediction reply never share an id, even at the same clock reading |
| ChatApp.App.constructor | frontend/src/App.jsx:12-34 | the initial state: the greeting only, empty input, no saved chats, chat `chat-1`, counter 2, the title "Yeni Sohbet", an empty form |
| ChatApp.App.SaveOpenChat | frontend/src/App.jsx:68-82 | the history becomes the stash of the open chat; nothing else changes; the invariant is kept |
| ChatApp.App.NewChat | frontend/src/App.jsx:67-88 | the open chat is stashed; the greeting only; id `chat-<counter>`, which no saved chat has; the title "Yeni Sohbet"; the counter goes up by one; the invariant is kept |
| ChatApp.App.SetInput | frontend/src/App.jsx:790 | only the chat input changes, to what was typed |
| ChatApp.App.EditTitle | frontend/src/App.jsx:91-93 | only the open chat's title changes |
| ChatApp.App.LoadChat | frontend/src/App.jsx:96-120 | for an id in the pre-save history: that chat's messages, id and title, and the chat first and once, followed by the other stashed chats in their order; for an unknown id only the stash; the invariant is kept |
| ChatApp.App.OpenSaved | frontend/src/App.jsx:114-119 | opens the chat and moves it to the front; nothing else changes |
| ChatApp.App.RenameChat | frontend/src/App.jsx:123-130 | the history is renamed, and the open title changes exactly when the renamed chat is the open one |
| ChatApp.App.DeleteChat | frontend/src/App.jsx:133-138 | the chat is filtered out; if it was open, a new chat opens and the deleted chat comes back first when it held more than the greeting |
| ChatApp.App.Submit | frontend/src/App.jsx:193-212 | all-white-space input, or a send while waiting, changes nothing; otherwise it appends exactly the user's message, clears the input, starts waiting, titles a greeting-only chat "<text> Analizi", and posts the input |
| ChatApp.App.Complete | frontend/src/App.jsx:214-247 | it appends exactly one bot message (the reply text, or the error text) and stops waiting |
| ChatApp.App.SendMessage | frontend/src/App.jsx:193-248 | a rejected send changes nothing; an accepted one appends exactly the user's message and then one bot message, and clears the input |
| ChatApp.App.ChangePredictionInput | frontend/src/App.jsx:251-257 | only the named form field changes |
| ChatApp.App.BeginPredict | frontend/src/App.jsx:259-280 | it starts waiting and returns the request body built from the form |
| ChatApp.App.CompletePredict | frontend/src/App.jsx:282-326 | it appends exactly one bot message; the form is cleared only after a successful prediction; it stops waiting |
| ChatApp.App.Predict | frontend/src/App.jsx:259-327 | the request body, one appended bot message, and the form cleared only on success |

## Left out

- All markup is left out: the JSX, the SVG map, the CSS classes, the `useEffect` DOM work (font link, scrolling, body class), and the price's `toFixed` display. None of it has a contract to state.
- The `fetch` calls to `/chat` and `/predict` become an `Outcome` parameter: a value, a non-2xx status with its text, or a thrown error. A reply body that is not JSON, and a prediction reply without a `response` object, throw, so they are thrown errors.
- A chat reply without a `response` field does not throw: it appends a bot message whose text is `undefined`. This is not modelled; a chat reply's text is always a string.
- A prediction reply whose `response` object lacks `predicted_price` or `recommendation_data` does not throw either: the message is appended with those parts undefined, and the form is cleared. This is not modelled; a successful prediction always carries a price and a recommendation.
- `Date.now()` in message ids becomes a natural-number parameter. `new Date().getMonth()` becomes a month index below 12.
- `parseFloat` of the shipping input becomes an `Option<real>` parameter, with None for NaN. Infinities are not modelled.
- `toLowerCase` of the product becomes a parameter `lowered`. Unicode case mapping is not modelled.
- A chat reply whose `response` field is not a string is not modelled. Message texts are either a string or a prediction record.
- The prediction message spreads `recommendation_data` next to `predictedPrice`. It is modelled as a record holding the price and a recommendation. A `predictedPrice` key inside the spread data, which would override the price, is not modelled.
- Interleavings during a request: only the split at each `await` is modelled. Any handler may run between `Submit` and `Complete`, but the two requests' internal promise steps are not modelled.
- `console.error` logging is left out.
- The dark-mode flag, the title-editing flags (`isEditingTitle`, `editingChatId`) and the refs to the title input and the message list end are UI state with no logic beyond a toggle.
- The Python files (`app.py`, `backend.py`, `old_code/`, `pages/`, `model/`) are not part of this model. They are a Flask stub returning a constant, thin chat wrappers around a hosted language model, and prediction scripts that load a trained model, align the input columns and call its `predict`.
- ChatHistory.Remove: its own contract states only the length bound. What it keeps, and in what order, is stated by RemoveMembers and RemoveKeepsOrder, so that callers do not pay for the membership quantifier.

## Findings

| source | as written | input that shows it | evidently intended | confidence | as-written member | corrected member |
|---|---|---|---|---|---|---|
| frontend/src/App.jsx:175-187 | `responses[lowerCaseProduct] \|\| {…}` reads members inherited from Object.prototype; these are truthy, so the fallback is skipped and `dummyResponse.countries.map` throws a TypeError | the product "constructor" (or "__proto__"; the other inherited names hold capitals and cannot come out of `toLowerCase`) | every product that is not one of the three keys gets the fallback entry | high; not executed | Recommendations.DummyResponseAsWritten, Recommendations.ConstructorThrows | Recommendations.DummyResponse |
