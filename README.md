# RedisInsight: reply reshaping, AI chat state and command gating, in Dafny

RedisInsight is a GUI for Redis databases. Most of it is glue: React components,
NestJS controllers, socket and HTTP relays. This project models its few pieces of
deterministic logic and proves properties about them:

- **AI-assistant chat state** (`AiAssistant`, `Chatbot`). The UI store slice holds
  two loading flags, an agreements list that may be null, the ordered chat
  messages, and the splash-screen flag beside them. `AiAssistantState` is a class
  with one method per reducer. Each method states all of the new state: what it
  sets and that it leaves every other field unchanged. The list updates (mark by
  id, re-id a loaded history) and the URL rule of the thunks are functions, and
  lemmas are proved about them. The message constructors take their uuid as an
  argument.
- **AI chat history and command whitelist** (`AiQuery`). `PrepareHistory` and
  `PrepareHistoryIntermediateSteps` are the source's `forEach`/`push` loops.
  Each is proved equal to a flat-map specification (`History`, `StepEntries`),
  and order, length and filtering lemmas are proved about those. A stored
  answer without a steps list makes both throw, and the model has that error
  path too. The model's RUN_QUERY gate (`IsCommandAllowed`, used by `RunQuery`)
  lets a query through exactly when its first argument is `ft.search` or
  `ft.aggregate`, in any letter case. This is the corrected gate. The lookup in
  the source also admits `constructor` and `__proto__`, which every object
  inherits; see "## Findings".
- **Redis reply reshaping** (`DatabaseInfo`). This covers the cluster check, the
  connected-node filter, the module-list mapping and its probing fallback, the
  sentinel master and endpoint mapping, and the translation of the
  unknown-sentinel error. Client replies are inputs, already parsed, or the
  error the call threw. `Promise.all` fan-out is a loop over an explicit
  completion order (`Seqs.IsCompletionOrder`), so the contracts hold for every
  order.
- **Recommendation thresholds** (`Recommendation`): three strict thresholds, at
  10 cached scripts, a hash longer than 5000, and more than 1,000,000 keys.

`Js` models the JavaScript primitives the code relies on: truthiness,
`toLowerCase`, `String.prototype.includes` and `parseInt(s, 10)`. `Seqs` holds
the shared `filter` and flat-map helpers. A sentinel master is Down when its
flags field contains `down` anywhere (database-info.provider.ts:131), so
`s_down` and `o_down` both count as Down.

## Model

| member | source | states |
|---|---|---|
| Chatbot.GenerateHumanMessage | redisinsight/ui/src/utils/transformers/chatbot.ts:4-10 | a question: type HumanMessage, content is the input, empty context, no error, id `ai_` + uuid |
| Chatbot.GenerateAiMessage | redisinsight/ui/src/utils/transformers/chatbot.ts:12-17 | an answer: type AIMessage, empty content, no context field, id `ai_` + uuid |
| Chatbot.ClientIdRoundTrip | redisinsight/ui/src/utils/transformers/chatbot.ts:5 | the uuid can be read back from an `ai_` id, so distinct uuids give distinct ids |
| Chatbot.HumanMessagesDifferOnlyInId | redisinsight/ui/src/utils/transformers/chatbot.ts:4-10 | two questions with the same text are equal apart from the id; they differ exactly when the uuids differ |
| AiAssistant.AiAssistantState.constructor | redisinsight/ui/src/slices/panels/aiAssistant.ts:25-33 | the initial state: both loading flags false, agreements null, no messages, splash flag from storage or false |
| AiAssistant.AiAssistantState.SetHideCopilotSplashScreen | redisinsight/ui/src/slices/panels/aiAssistant.ts:40-43 | sets the splash flag; nothing else changes |
| AiAssistant.AiAssistantState.GetAiAgreements | redisinsight/ui/src/slices/panels/aiAssistant.ts:45-47 | agreementLoading becomes true; nothing else changes |
| AiAssistant.AiAssistantState.GetAiAgreementsSuccess | redisinsight/ui/src/slices/panels/aiAssistant.ts:48-51 | agreementLoading false and the payload stored; chat fields untouched |
| AiAssistant.AiAssistantState.GetAiAgreementsFailed | redisinsight/ui/src/slices/panels/aiAssistant.ts:52-54 | agreementLoading false; the agreements are kept |
| AiAssistant.AiAssistantState.ClearAiAgreements | redisinsight/ui/src/slices/panels/aiAssistant.ts:56-58 | agreements become the empty list (not null); loading flags and messages untouched |
| AiAssistant.AiAssistantState.UpdateAiAgreements | redisinsight/ui/src/slices/panels/aiAssistant.ts:60-62 | agreementLoading becomes true; nothing else changes |
| AiAssistant.AiAssistantState.UpdateAiAgreementsSuccess | redisinsight/ui/src/slices/panels/aiAssistant.ts:63-66 | agreementLoading false and the payload stored; chat fields untouched |
| AiAssistant.AiAssistantState.UpdateAiAgreementsFailed | redisinsight/ui/src/slices/panels/aiAssistant.ts:67-69 | agreementLoading false; the agreements are kept |
| AiAssistant.AiAssistantState.GetAiChatHistory | redisinsight/ui/src/slices/panels/aiAssistant.ts:71-73 | loading becomes true; agreement fields untouched |
| AiAssistant.AiAssistantState.GetAiChatHistorySuccess | redisinsight/ui/src/slices/panels/aiAssistant.ts:74-77 | loading false; the messages are the re-identified payload, or empty when it is absent; agreement fields untouched |
| AiAssistant.AiAssistantState.GetAiChatHistoryFailed | redisinsight/ui/src/slices/panels/aiAssistant.ts:78-80 | loading false; messages and agreement fields untouched |
| AiAssistant.AiAssistantState.SendAiQuestion | redisinsight/ui/src/slices/panels/aiAssistant.ts:81-83 | the payload is appended after the unchanged earlier messages; agreement fields untouched |
| AiAssistant.AiAssistantState.SetAiQuestionError | redisinsight/ui/src/slices/panels/aiAssistant.ts:84-99 | the messages become the old ones with the error set on every message carrying the id; agreement fields untouched |
| AiAssistant.AiAssistantState.SendAiAnswer | redisinsight/ui/src/slices/panels/aiAssistant.ts:100-102 | the payload is appended after the unchanged earlier messages; agreement fields untouched |
| AiAssistant.AiAssistantState.ClearAiChatHistory | redisinsight/ui/src/slices/panels/aiAssistant.ts:103-105 | messages become empty; loading flags and agreements untouched |
| AiAssistant.MarkQuestionError | redisinsight/ui/src/slices/panels/aiAssistant.ts:95-98 | same length and order; messages with the id differ from before only in `error`, which is the payload's; all others are unchanged |
| AiAssistant.MarkQuestionErrorLastWins | redisinsight/ui/src/slices/panels/aiAssistant.ts:95-98 | marking the same id twice leaves only the second error |
| AiAssistant.WithClientIds | redisinsight/ui/src/slices/panels/aiAssistant.ts:76 | one message per payload message, in order, with every field but the id kept and the id `ai_` + the i-th uuid |
| AiAssistant.LoadedMessages | redisinsight/ui/src/slices/panels/aiAssistant.ts:76 | an absent payload gives no messages; a present one gives its re-identified messages |
| AiAssistant.LoadedIdsDistinct | redisinsight/ui/src/slices/panels/aiAssistant.ts:76 | distinct uuids give a loaded history in which all ids are distinct |
| AiAssistant.ErrorMarksOnlyTheNewQuestion | redisinsight/ui/src/slices/panels/aiAssistant.ts:239-276 | when the new question's id is fresh, marking its error changes only that question, the last message |
| AiAssistant.AskThenFail | redisinsight/ui/src/slices/panels/aiAssistant.ts:239-277 | when nothing else is dispatched while the answer streams and the uuid is fresh, a failed ask appends the question; on a 401 it carries no error; otherwise it carries the stream error's status (500 when there is none), code and details; the loading flags, agreements and splash flag are unchanged |
| AiAssistant.MessagesUrl | redisinsight/ui/src/slices/panels/aiAssistant.ts:207-209 | the URL starts with the chat endpoint and ends with `/messages`, with `/` + id between them exactly when the id is truthy |
| AiAssistant.AgreementsUrl | redisinsight/ui/src/slices/panels/aiAssistant.ts:180-182 | the agreements URL is the messages URL followed by `/agreements` |
| AiAssistant.MessagesUrlRoundTrip | redisinsight/ui/src/slices/panels/aiAssistant.ts:207-209 | the id can be read back from the URL; a null id and an empty id both give the URL with no id segment |
| AiAssistant.MessagesUrlInjective | redisinsight/ui/src/slices/panels/aiAssistant.ts:292-295 | two truthy ids give the same URL only when they are equal |
| AiQuery.PrepareHistoryIntermediateSteps | redisinsight/api/src/modules/ai/query/ai-query.service.ts:41-57 | throws exactly when the message has no steps list; otherwise the loop's output is the steps' entries in step order |
| AiQuery.StepEntriesCount | redisinsight/api/src/modules/ai/query/ai-query.service.ts:41-57 | one entry per TOOL or TOOL_CALL step, so never more entries than steps; every entry has the TOOL or TOOL_CALL role |
| AiQuery.StepEntriesOfToolSteps | redisinsight/api/src/modules/ai/query/ai-query.service.ts:44-50 | when all steps are tool steps, entry i is step i's role (TOOL to TOOL, TOOL_CALL to TOOL_CALL) with its data |
| AiQuery.PrepareHistory | redisinsight/api/src/modules/ai/query/ai-query.service.ts:59-78 | throws exactly when some AiMessage has no steps list; otherwise the loop's output is the flat map of the per-message entries, in message order |
| AiQuery.AnswerEntries | redisinsight/api/src/modules/ai/query/ai-query.service.ts:63-68 | an AiMessage gives `[AI, content]` followed by its steps' entries in order; the empty-steps guard changes nothing |
| AiQuery.HistoryAround | redisinsight/api/src/modules/ai/query/ai-query.service.ts:61-75 | a message anywhere in the list contributes exactly its own entries at its own place (a HumanMessage exactly `[HUMAN, content]`) |
| AiQuery.HistoryIgnoresOtherTypes | redisinsight/api/src/modules/ai/query/ai-query.service.ts:72-74 | messages of any other type are dropped: the history equals that of the human and AI messages alone |
| AiQuery.HistoryLength | redisinsight/api/src/modules/ai/query/ai-query.service.ts:41-78 | history length = human messages + AI messages + TOOL/TOOL_CALL steps of AI messages |
| AiQuery.CommandAllowedIff | redisinsight/api/src/modules/ai/query/ai-query.service.ts:24-27 | allowed iff the first argument is present and is `ft.search` or `ft.aggregate` up to letter case; a missing list, a missing first element and an empty one are refused |
| AiQuery.RunQuery | redisinsight/api/src/modules/ai/query/ai-query.service.ts:157-163 | among string arguments, a query not allowed gets exactly `-ERR: This command is not allowed`; an allowed one is sent unchanged |
| AiQuery.PrototypeNamePassesWhitelist | redisinsight/api/src/modules/ai/query/ai-query.service.ts:159 | the lookup as written lets `CONSTRUCTOR` and `__PROTO__` through; the corrected gate refuses both |
| AiQuery.LowerCaseInheritedNamesExact | redisinsight/api/src/modules/ai/query/ai-query.service.ts:159 | of the names inherited from `Object.prototype`, exactly `constructor` and `__proto__` have no upper-case letter, so only they can match a lower-cased key |
| AiQuery.AsWrittenDiffersOnlyOnInheritedNames | redisinsight/api/src/modules/ai/query/ai-query.service.ts:159 | the lookup as written accepts exactly what the corrected gate accepts, plus the first arguments that lower-case to `constructor` or `__proto__` |
| Seqs.FlatMapAppend | redisinsight/api/src/modules/ai/query/ai-query.service.ts:60-77 | building the list with `forEach`/`push` over a concatenation concatenates the parts' results, so the input order is the output order |
| Seqs.Filter | redisinsight/api/src/modules/database/providers/database-info.provider.ts:58-59 | `filter` keeps exactly the elements passing the test and never lengthens the list |
| Seqs.FilterAppend | redisinsight/api/src/modules/recommendation/providers/recommendation.provider.ts:42 | filtering a concatenation concatenates the filtered parts, so order is kept |
| Seqs.FilterKeepsAll | redisinsight/api/src/modules/database/providers/database-info.provider.ts:58-59 | when every element passes, `filter` returns the list unchanged |
| Js.ToLowerMatchesExactlyCaseVariants | redisinsight/api/src/modules/ai/query/ai-query.service.ts:159 | comparing `toLowerCase()` with a lower-case name holds exactly for the upper/lower-case variants of that name |
| Js.ToLowerIsLowerCase | redisinsight/api/src/modules/ai/query/ai-query.service.ts:159 | a lower-cased key has no upper-case letter left |
| Js.IncludesInner | redisinsight/api/src/modules/database/providers/database-info.provider.ts:131 | a string includes every string it has somewhere inside |
| Js.IncludesHasWitness | redisinsight/api/src/modules/database/providers/database-info.provider.ts:147 | `includes` holds only when the substring occurs at some position |
| Js.ParseIntOfDecimal | redisinsight/api/src/modules/database/providers/database-info.provider.ts:174 | `parseInt(s, 10)` reads back every natural number's decimal spelling and stops at the first non-digit |
| Js.ParseIntOfNegativeDecimal | redisinsight/api/src/modules/database/providers/database-info.provider.ts:129 | a leading minus sign negates the parsed value |
| Js.ParseIntWithoutDigits | redisinsight/api/src/modules/recommendation/providers/recommendation.provider.ts:31 | a string with no decimal digit anywhere parses to `NaN` |
| Js.ParseIntSkipsLeadingSpace | redisinsight/api/src/modules/database/providers/database-info.provider.ts:132 | leading white space does not change the parsed value |
| DatabaseInfo.IsCluster | redisinsight/api/src/modules/database/providers/database-info.provider.ts:28-36 | true iff the parsed reply exists and has `cluster_state` equal to `ok`; any error gives false |
| DatabaseInfo.IsSentinel | redisinsight/api/src/modules/database/providers/database-info.provider.ts:42-49 | true iff `SENTINEL MASTERS` did not throw |
| DatabaseInfo.DetermineClusterNodes | redisinsight/api/src/modules/database/providers/database-info.provider.ts:55-65 | never more addresses than nodes; an address is present iff some Connected node has that host and port |
| DatabaseInfo.ClusterNodesAppend | redisinsight/api/src/modules/database/providers/database-info.provider.ts:58-59 | the nodes of a concatenation are those of its parts in order, so node order is kept |
| DatabaseInfo.AllConnectedNodesKept | redisinsight/api/src/modules/database/providers/database-info.provider.ts:61-64 | when all nodes are connected, output i is node i's host and port |
| DatabaseInfo.ModuleOfEntry | redisinsight/api/src/modules/database/providers/database-info.provider.ts:76-82 | name is the alias if one is known, else the raw name; version is `ver`; the semantic version is present iff the module is supported, and is then the conversion of `ver` |
| DatabaseInfo.ModulesOfList | redisinsight/api/src/modules/database/providers/database-info.provider.ts:74-76 | one module per reply entry, in reply order |
| DatabaseInfo.DetermineDatabaseModulesUsingInfo | redisinsight/api/src/modules/database/providers/database-info.provider.ts:93-107 | in any completion order, a module is in the result iff its `command info` reply has a non-nil entry; a failed probe drops only its own module; never more modules than probes |
| DatabaseInfo.DetermineDatabaseModules | redisinsight/api/src/modules/database/providers/database-info.provider.ts:72-86 | the `MODULE LIST` mapping when that call answers; on any error, the probe result |
| DatabaseInfo.MasterOfReply | redisinsight/api/src/modules/database/providers/database-info.provider.ts:119-134 | status is Down iff the flags contain `down`; host, name, port and replica count are read from `ip`, `name`, `port` and `num-slaves` with `parseInt` base 10 |
| DatabaseInfo.MasterNumbersAreDecimal | redisinsight/api/src/modules/database/providers/database-info.provider.ts:129-132 | a port and a replica count written in decimal are read as those numbers |
| DatabaseInfo.DownFlagsMeanDown | redisinsight/api/src/modules/database/providers/database-info.provider.ts:131 | a master whose flags contain `s_down` or `o_down` is Down |
| DatabaseInfo.MasterEndpoints | redisinsight/api/src/modules/database/providers/database-info.provider.ts:160-188 | the client's host and port first, then the reported sentinels in reply order (length = reply + 1); an error maps to WRONG_DATABASE_TYPE or to the ACL translation |
| DatabaseInfo.DetermineSentinelMasterGroups | redisinsight/api/src/modules/database/providers/database-info.provider.ts:113-153 | in any completion order: success iff every master's sentinels call answers, and then master i is reply item i with its endpoints; otherwise the error of the first failing call in that order; a masters-call error maps to WRONG_DISCOVERY_TOOL or to the ACL translation |
| DatabaseInfo.UnknownSentinelOnMasters | redisinsight/api/src/modules/database/providers/database-info.provider.ts:147-149 | an unknown-sentinel error on the masters call becomes WRONG_DISCOVERY_TOOL |
| DatabaseInfo.UnknownSentinelOnEndpoints | redisinsight/api/src/modules/database/providers/database-info.provider.ts:182-184 | an unknown-sentinel error on the sentinels call becomes WRONG_DATABASE_TYPE and is never turned into WRONG_DISCOVERY_TOOL |
| Recommendation.DetermineLuaScriptRecommendation | redisinsight/api/src/modules/recommendation/providers/recommendation.provider.ts:19-33 | the recommendation is named `luaScript` |
| Recommendation.LuaScriptThreshold | redisinsight/api/src/modules/recommendation/providers/recommendation.provider.ts:9-31 | a decimal count applies iff it is strictly above 10; a missing count, a count without any digit, and one starting with a character that cannot begin a number never do |
| Recommendation.DetermineBigHashesRecommendation | redisinsight/api/src/modules/recommendation/providers/recommendation.provider.ts:39-47 | named `bigHashes`; applies iff some key is a Hash with length strictly above 5000 |
| Recommendation.NonHashKeysNeverBig | redisinsight/api/src/modules/recommendation/providers/recommendation.provider.ts:42 | keys of other types never trigger it, whatever their length; an empty key list gives false |
| Recommendation.BigHashBoundary | redisinsight/api/src/modules/recommendation/providers/recommendation.provider.ts:10 | a hash of length exactly 5000 is not big; one of 5001 is |
| Recommendation.BigHashesMonotone | redisinsight/api/src/modules/recommendation/providers/recommendation.provider.ts:42-46 | adding keys never withdraws the recommendation |
| Recommendation.DetermineBigTotalRecommendation | redisinsight/api/src/modules/recommendation/providers/recommendation.provider.ts:53-60 | named `useSmallerKeys`; applies iff the total is strictly above 1,000,000 |
| Recommendation.RecommendationNamesDistinct | redisinsight/api/src/modules/recommendation/providers/recommendation.provider.ts:30-57 | the three names are fixed and pairwise distinct |

## Findings

| source | as written | input that shows it | evidently intended | confidence | as-written member | corrected member |
|---|---|---|---|---|---|---|
| redisinsight/api/src/modules/ai/query/ai-query.service.ts:159 | `COMMANDS_WHITELIST[key]` indexes a plain object literal, so names inherited from `Object.prototype` (`constructor`, `__proto__`) are truthy too | RUN_QUERY with `["CONSTRUCTOR"]` (lower-cased to `constructor`) passes the check and is sent to the database | only `ft.search` and `ft.aggregate`, in any case, are allowed | medium, not executed | AiQuery.PrototypeNamePassesWhitelist | AiQuery.CommandAllowedIff |

The whitelist guards nothing dangerous here: Redis will reject `constructor` as an unknown command. Still, the check lets through names outside the list. `AiQuery.IsCommandAllowedAsWritten` models the lookup as written. `AiQuery.IsCommandAllowed` checks the list's own keys only, and `RunQuery` uses it.

## Left out

- `AiQueryService.stream`, `getHistory` and `clearHistory` are not modelled. They are socket.io relays, async event handlers, repository persistence and auth calls. This includes the GET_INDEX handler and its test of `context`.
- The thunks of the slice are not modelled: HTTP calls, `dispatch`, streaming, and logout on 401. Only their URL rule is kept, plus the dispatches of a failed ask (`AskThenFail`). The local-storage write of `setHideCopilotSplashScreen` is I/O and is not modelled.
- `ApiEndpoints.AI_CHAT`, `SUPPORTED_REDIS_MODULES`, `REDIS_MODULES_COMMANDS` and the `ERROR_MESSAGES` texts are not part of this model. They are parameters, or named error kinds.
- uuid generation is not modelled: the uuid is an argument.
- The reply parsers are not modelled (`convertStringsArrayToObject`, `convertBulkStringsToObject`, `parseClusterNodes`, `convertRedisInfoReplyToObject`). Their parsed output is the input. `convertIntToSemanticVersion` is a function parameter. `catchAclError` is the uninterpreted wrapper `AclChecked`.
- DatabaseInfo.MastersFailure: errors already translated by `getMasterEndpoints` are assumed not to carry the phrase ``unknown command `sentinel` `` in their message. This rests on `catchAclError` keeping the message and on the WRONG_DATABASE_TYPE text, which are not part of this model.
- DatabaseInfo.DetermineClusterNodes: an error thrown by `CLUSTER NODES` propagates uncaught in the source. The model takes the parsed node list, so that path is not modelled.
- DatabaseInfo.ModuleOfEntry: the alias table is a map. A module named like an `Object.prototype` member is not modelled.
- `Promise.all` ordering is not fixed: it is an argument. `DetermineDatabaseModulesUsingInfo` is stated as a set, so its result order is not, and `DetermineSentinelMasterGroups` is stated by index.
- Js.ToLower: lowers ASCII letters only, because Unicode case mapping is not modelled. For the names compared here (`ft.search`, `ft.aggregate`, the prototype names), no non-ASCII character lowercases into them, so the whitelist decision is not affected.
- Js.ParseInt10: yields exact integers. JavaScript rounds values above 2^53 and distinguishes `-0`; neither is modelled.
- Numbers (`total`, key lengths, ports) are unbounded integers rather than IEEE doubles. Fractional and `NaN` totals are not modelled.
- AiAssistant.AskThenFail: the dispatches of `sendAiQuestion` (aiAssistant.ts:242) and `setAiQuestionError` (:269) are taken as consecutive. In the source, `await getStreamedAnswer(...)` lies between them, and other reducers may run meanwhile. A history reload (:76) re-identifies every message, so the error then marks nothing. A `clearAiChatHistory` (:103-105) removes the question. The precondition that no message already has the new id stands for `uuidv4` returning a fresh uuid; with a reused uuid an older message would be marked too.
- AiQuery.RunQuery: the query arguments are modelled as strings that may be missing. A truthy first argument that is not a string (a number, `true`, an array) makes `.toLowerCase()` throw at ai-query.service.ts:159. The catch at :164-166 then answers with the error's message instead of the `-ERR` reply. The model cannot express that input. In that case too nothing is sent to the database.
- The UI effects of a 401 during an ask are not modelled: the error notification and the logout act on other slices. `AskThenFail` only states that this slice gets the question without an error.
- Chat message records carry only the fields the reducers and constructors touch: id, type, content, context and error. Server-side fields such as `tool`, `createdAt` and `steps` go through the spread unchanged and are not modelled. Setting `error: undefined` is modelled as no error.
- Left out because they hold no logic to model: the React components, the NestJS module and controller wiring, the abstract auth provider, the z-set strategy's constant command, and the mocks and tests.
