# lingo-study-plan: a Dafny model of the two HTTP handlers

The repository's one file, `functions/index.js`, defines two HTTP handlers.
`generateStudyPlan` reads language, level, goals and user id from the request
body, with defaults. It asks a completion API for a plan, stores the answer
and returns a fixed two-week plan skeleton with the answer embedded.
`chat` validates the request and looks up or creates a conversation. It takes
the ten newest messages of that conversation and reverses them into
chronological order. It puts a persona chosen by coaching style in front,
asks the completion API for a reply, writes both messages, adds 2 to the
conversation's `messageCount`, and for the "corrective" style asks for
corrections as JSON.

The model lifts out the deterministic parts and passes the external results
in as parameters: the completion texts, the JSON-parse result, the
store-generated ids and the clock.

- `wrappers.dfy` (`Wrappers`): `Option`.
- `js_values.dfy` (`JsValues`): request values as JavaScript sees them.
  This covers `undefined` for an absent field, truthiness, destructuring
  defaults (which replace `undefined` only) and `String(v)` as used by
  template literals and by computed property lookup. The conversion throws
  a TypeError on an object with its own `toString` member, so it returns an
  `Option`.
- `study_plan.dfy` (`StudyPlan`): request defaulting and validation, and the
  nested loops that build the plan skeleton (`BuildWeeks`). `BuildWeeks` is
  proved equal to the specification function `Skeleton`. The file also has
  the plan object and the handler's effects: what is called and written, and
  in what order.
- `chat_prompt.dfy` (`ChatPrompt`): chat request validation and the loop that
  rebuilds the history (`BuildContext`). It also holds the persona lookup,
  the model input and the gating of corrections.
- `conversations.dfy` (`Conversations`): the store as a class with a map of
  conversations and a log of messages in write order. Its invariant
  `Consistent` says each `messageCount` equals the number of logged messages
  of its conversation. The file also has the newest-first fetch and the `chat`
  handler (`Chat`, `Turn`), whose outcome is the predicate `TurnOutcome`.

## Model

| member | source | states |
|---|---|---|
| `StudyPlan.ReadPlanRequest` | functions/index.js:21-32 | Absent fields become "Spanish", "Beginner", ["General learning"] and "anonymous". The request is rejected iff a present language or level is falsy or a present goals is not an array. An explicit null is not defaulted. |
| `StudyPlan.Skeleton` | functions/index.js:57-90 | The plan has exactly 2 weeks numbered 1..2, each with 7 days numbered 1..7, each day with exactly 2 tasks |
| `StudyPlan.BuildWeeks` | functions/index.js:57-90 | The nested loops that push days into each week and weeks into the plan produce exactly `Skeleton` |
| `StudyPlan.TaskIdInjective` | functions/index.js:69-86 | `task-{i}-{j}-{k}` identifiers are equal iff their index triples are equal, for all natural indices |
| `StudyPlan.TaskIdOfPosition` | functions/index.js:69-86 | Task t of day d of week w carries id `task-{w+1}-{d+1}-{t+1}` |
| `StudyPlan.PlanTaskIdsDistinct` | functions/index.js:57-90 | Two tasks of the plan share an id only if they are the same task, so all 28 ids are distinct |
| `StudyPlan.PlanDatesConsecutive` | functions/index.js:58-68 | The 14 day dates are now + 0..13 days in week/day order, strictly ascending |
| `StudyPlan.PromptFor` | functions/index.js:34-37 | The plan prompt renders iff language, level and every goal convert to strings; it then embeds the rendered language, and string inputs always render |
| `StudyPlan.PlanFor` | functions/index.js:92-120 | The plan's id is the decimal clock reading and createdAt that reading. Its language name and native name are the request's language, and its level is the request's level. There is one "General" goal per request goal, in order. Duration is 2, the time commitment 30, the weeks are the given skeleton and the model's text is embedded verbatim. |
| `StudyPlan.GoalsOf` | functions/index.js:96 | Each input goal becomes one goal object with that title and category "General", in order |
| `StudyPlan.GenerateStudyPlan` | functions/index.js:20-125 | Answers 400 iff validation fails, and then makes no completion call and no store write. A prompt that cannot be rendered answers 500, also before any call or write. A failed completion call or failed write answers 500. Otherwise it asks once, writes the record once and returns the skeleton, independent of the model's text, with that text embedded verbatim. |
| `JsValues.NatToStringInjective` | functions/index.js:71 | Distinct numbers print as distinct decimal strings |
| `JsValues.ToDisplayString` | functions/index.js:34-37 | A string converts to itself. An object fails to convert iff it has its own "toString" member. Only objects and arrays can fail. |
| `JsValues.JoinFrom` | functions/index.js:36 | Joining an array of strings always succeeds |
| `ChatPrompt.ReadChatRequest` | functions/index.js:143-156 | Rejected iff message, userId or language is falsy. coachingStyle defaults to "encouraging" and includeCorrections to true, when absent only. |
| `ChatPrompt.RoleOf` | functions/index.js:189 | Type "user" maps to role user; every other type maps to assistant, never system |
| `ChatPrompt.BuildContext` | functions/index.js:185-192 | The loop over the reversed fetch yields one message per fetched document, in reverse (chronological) order, with the mapped role and the stored content |
| `ChatPrompt.SystemContentAsWritten` | functions/index.js:194-213 | The lookup fails iff the language or the style cannot be converted to a string. An own persona key selects that persona and an inherited member name yields that member. Any other style selects the encouraging persona. |
| `ChatPrompt.SystemContent` | functions/index.js:194-214 | The corrected lookup fails under the same condition. It selects "conversational" and "corrective" by name. Every other style, unrecognised ones and inherited member names included, selects the encouraging persona with the request's language. |
| `ChatPrompt.InheritedKeyDefeatsFallback` | functions/index.js:209-214 | As written, style "toString" is no persona, yet the lookup yields an inherited member rather than the encouraging persona |
| `ChatPrompt.SystemContentAgreesOffInheritedKeys` | functions/index.js:194-214 | The lookup as written and the corrected one agree on every style that is not an inherited member name |
| `ChatPrompt.ModelInput` | functions/index.js:209-217 | The model input is the given system content, then the history, then the new user message, so its length is the history's plus 2 |
| `ChatPrompt.ModelInputShape` | functions/index.js:185-217 | Built from fetched messages, the input has exactly one system message, at the front, and ends with the user's message |
| `ChatPrompt.CorrectionsField` | functions/index.js:278-286 | Parsed correction text is passed through unchanged; text that does not parse gives the empty array |
| `Conversations.MessagesOf` | functions/index.js:178-180 | A message is in the selection iff it is logged and names the conversation |
| `Conversations.MessagesOfAppend` | functions/index.js:231-248 | Writing a message extends only the conversation it names |
| `Conversations.Recent` | functions/index.js:178-183 | The fetch returns at most 10 messages |
| `Conversations.LatestInOrder` | functions/index.js:178-192 | The rebuilt history is the conversation's last min(10, n) messages in write order; with 12 messages, the latest 10 |
| `Conversations.ConversationKey` | functions/index.js:158-160 | A falsy conversation id is replaced by the generated one and a string id is kept. The key is missing exactly when the id is truthy but not a string. |
| `Conversations.Resolved` | functions/index.js:158-176 | A known conversation's record is reused unchanged. An unknown id gets a record with messageCount 0 and the request's userId, language and coachingStyle. |
| `Conversations.NoMessagesYet` | functions/index.js:165-173 | A conversation no logged message names has no messages |
| `Conversations.CreateKeepsConsistent` | functions/index.js:165-173 | Creating a record with count 0 for an unknown id keeps every counter equal to its message count |
| `Conversations.TurnKeepsCounts` | functions/index.js:231-248 | A turn's two writes add exactly two messages to their conversation and none to any other |
| `Conversations.TurnKeepsOwners` | functions/index.js:231-248 | After a turn every logged message still names a known conversation |
| `Conversations.TurnKeepsCounters` | functions/index.js:231-251 | The two writes plus the increment by 2 keep every counter equal to its conversation's message count |
| `Conversations.TurnKeepsConsistent` | functions/index.js:231-251 | A turn keeps the store invariant |
| `Conversations.ConversationStore.LookupOrCreate` | functions/index.js:162-176 | The record at the id afterwards is the old one when present and is left unchanged. Otherwise a new one with count 0 is set. The message log is untouched. |
| `Conversations.ConversationStore.WriteMessage` | functions/index.js:231-248 | A message write appends to the log and leaves conversations alone |
| `Conversations.ConversationStore.Increment` | functions/index.js:250-254 | The update adds the amount to that conversation's messageCount and changes nothing else |
| `Conversations.ConversationStore.RecordTurn` | functions/index.js:231-254 | The user and assistant messages are appended in that order, their conversation's messageCount rises by exactly 2, and the store invariant is kept |
| `Conversations.Answer` | functions/index.js:256-287 | A second (corrections) call is made iff the style is exactly "corrective", includeCorrections is truthy and the corrections prompt renders. A prompt that cannot be rendered, or a failed call, answers 500. Otherwise the response carries the reply and the parsed corrections, or `[]` when parsing fails. It carries no corrections when they are not wanted. |
| `Conversations.ConversationStore.Turn` | functions/index.js:158-287 | One validated turn has the effects described by `TurnOutcome` and keeps the store invariant. The turn looks up or creates the record. It then looks up the persona as written, where a failed conversion answers 500 with no call and no message. The reply call gets that persona, the history and the message. |
| `Conversations.ConversationStore.Chat` | functions/index.js:142-289 | A request missing message, userId or language answers 400 with no store access and no completion call. A truthy non-string conversation id answers 500 likewise. Otherwise one turn runs as `TurnOutcome` describes. |
| `Conversations.FirstTurnSeesNoHistory` | functions/index.js:165-192 | In a consistent store, a conversation that does not exist yet has no stored messages, so its rebuilt history is empty |
| `Conversations.FirstReplySeesNoHistory` | functions/index.js:158-226 | On a consistent store, the first reply call of a new conversation sends exactly the persona and the user's message |
| `Conversations.ReplyCarriesIntendedPersona` | functions/index.js:194-226 | For every style that is not an inherited member name, the reply call the handler makes carries the persona of the corrected lookup |
| `Conversations.CounterLifecycle` | functions/index.js:158-251 | After an answered turn, an unknown id ends at messageCount 2 with the request's fields. A known record gains exactly 2 and keeps its other fields. No other conversation changes. |
| `Conversations.FailedReplyLeavesRecord` | functions/index.js:162-226 | A turn that fails before writing answers 500 with at most one call and writes no message. It makes no call at all iff the persona lookup fails. A newly created record (count 0) stays. |
| `Conversations.CorrectionsGate` | functions/index.js:263-286 | `corrections` is present iff the style is exactly "corrective" and includeCorrections is truthy. Unparsable correction text gives `[]`, and the reply is still returned. |

## Left out

- HTTP plumbing is not modelled: the CORS headers, the OPTIONS/204 branch, sending responses and logging. Responses are datatypes with a `Status` function.
- The completion API calls are parameters. Their model name, `max_tokens` and `temperature` are not modelled, and neither is a reply whose content is null.
- The literal prompt and persona wording is not modelled, nor the constant resources, tips and cultural-notes lists. Prompts are represented by what they embed: language, level, goals, message, and persona.
- Firestore is an abstract map of conversations plus a message log. `serverTimestamp` is not modelled, and message timestamp order is taken to be write order. Document-path syntax is not modelled. A truthy conversation id that is not a string is treated as a store error (500).
- Store exceptions in `chat` (failed lookup, set, query, message write or update) are not modelled. Completion failures and string-conversion throws are modelled. In `generateStudyPlan` a failed `studyPlans` write is a flag, and a failed write is taken to store nothing.
- Concurrency is not modelled: two requests on the same conversation id can race between lookup and create.
- `Date.now()` and `toISOString()` are replaced by one integer `nowMs`. The source reads the clock again in every loop iteration and for `id` and `createdAt`. The model uses a single reading, so dates are exact multiples of a day from that reading. Dates stay milliseconds rather than ISO strings.
- JavaScript numbers are integers here. NaN and fractions (NaN is falsy) and number-to-string formatting beyond integers are not modelled.
- JsValues.ToDisplayString: integers of 1e21 and above print in plain decimal here, not in exponent form, and float precision is not modelled, because numbers are unbounded integers in this model. The conversion's other failure, a `toString` member that is inherited or not callable, is also not modelled: request values are plain JSON data.
- `JSON.parse` is not modelled: its result is an `Option` parameter.
- `conversationData` is read or set but never used afterwards. The persona and the messages use the request's coachingStyle, not a stored one, and the model does the same.
- The second completion call (for corrections) sits outside the inner `try`. A throw there answers 500 even though both messages and the increment are already written. Only a JSON parse failure degrades to `[]`. The model follows the code here, not a best-effort reading.

## Findings

| source | as written | input that shows it | evidently intended | confidence | as-written member | corrected member |
|---|---|---|---|---|---|---|
| functions/index.js:213 | `systemPrompts[coachingStyle] \|\| systemPrompts.encouraging` looks the style up on an object literal, so names inherited from Object.prototype resolve to truthy members and the fallback is skipped | coachingStyle "toString" (likewise "constructor", "valueOf", "__proto__", ...) | every style other than the three personas selects the encouraging persona | not executed; high | `ChatPrompt.InheritedKeyDefeatsFallback` | `ChatPrompt.SystemContent` |

The handler model (`Turn`, `TurnOutcome`) follows the code as written: it uses `SystemContentAsWritten`. `SystemContent` is the corrected reference. `ReplyCarriesIntendedPersona` proves that the two agree on every style that is not an inherited member name.
