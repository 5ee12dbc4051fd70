# Teams ↔ Watson Orchestrate adapter: a verified model of the turn pipeline

This project is a Dafny model of the deterministic core of a Microsoft Teams bot. The bot forwards each user message to IBM watsonx Orchestrate and returns the answer. For one turn the model follows the code through these steps:

- filter message activities;
- build a caller context from the Teams activity (email and phone probed over prioritised key lists);
- enrich it from a read-through profile cache, where fields already known always win;
- build the Watson context payload;
- fold the configured message rules over the user's text (input label, then the `ARGUMENTS`-style identity block);
- call the orchestrator with a cached bearer token and the conversation's stored thread id;
- store the thread id that comes back;
- optionally pass the answer through a language controller (one prompt sent to watsonx.ai);
- send the reply only when it is non-empty.

Every network exchange is an argument. Examples are the IAM token reply, the profile API reply, the orchestrator reply and the generation reply. Each reply is a datatype with a failure case. The clock is an argument `now: real`. A reply that is stored carries the time it arrived (`receivedAt`).

Modules, one per source file:

- `Wrappers`: `Option` and `Result`.
- `Strings`: Python's `startswith`, `in`, `lower`, `strip`, `rstrip` and `join`.
- `Values`: JSON-like values with Python truthiness and `str`. A `dict` is an ordered sequence of entries.
- `ContextBuilder`: `services/context_builder.py`.
- `MessageRules`: `services/message_rules.py`.
- `ThreadSessions`: `session/chat/memory_session.py`.
- `TokenCache`: `conversation/watsonx_token_manager.py`.
- `LanguageControl`: `conversation/watsonx_ai.py`.
- `ProfileService`: `services/user_profile_service.py`, together with an in-memory profile store.
- `StoreKeys`: the Redis key formats.
- `Orchestrate`: `conversation/watsonx.py`.
- `Bot`: `bot.py`.

The code is modelled in its own style:

- Code that updates objects becomes a class with `modifies` clauses. This covers the session store, both token caches, the profile store and service, the orchestrator client and the bot.
- Every loop becomes a method whose `while` loop is proved against a specification function, using invariants.
- Pure code becomes functions and lemmas.

## Where the code and its description differ

The model follows the code in every case below.

- **`_extract_from_mapping` and `_extract_first`.** The first present key whose value is a list or dict decides the result, even when that value holds no truthy element. The search does not go on to later keys, so the result is not simply "the first non-empty match". `ContextBuilder.EmptyListStopsSearch` shows a concrete profile: an empty `businessPhones` list hides a later `phone` entry.
- **Language control.** The code sends one prompt. That prompt carries an English/Spanish fallback taken from the locale. There is no detection, no Spanish-marker heuristic, no retry through stricter prompts, and no `pt`/`fr` locale fallback.
- **Two locale rules that disagree.** The locale rule of the message chain picks Spanish only for `es-…` locales. The controller's fallback picks English only for `en…` locales. They agree exactly for locales starting with `es-` or `en`; see `LanguageControl.LocaleChoicesAgreeIff`. For `fr-FR` or an empty locale, the rule asks for English while the controller's fallback is Spanish.
- **Idempotence of the chain.** Each rule is idempotent with respect to its own marker (`MessageRules.RuleIdempotent`). The configured chain as a whole is not idempotent. Folding the chain over its own output labels it again and prefixes it again whenever an identity block exists (`Bot.ConfiguredChainNotIdempotent`).
- **Generation failures.** A generation reply whose `results` list is empty makes `results[0]` raise `IndexError`. This is not a request exception, so it escapes the controller (`LanguageControl.NoResults`).
- **Token failures.** A failed token request raises out of `chat_completion`, before the session store is read, and so ends the turn (`Bot.OrchestrateTokenFailed`).
- **The fallback message.** `fallback_message` is never sent. The only line that would send it is commented out.

## Model

| member | source | states |
|---|---|---|
| ContextBuilder.FirstTruthyStr | services/context_builder.py:122 | empty iff no item is truthy; otherwise the `str` of the first truthy item |
| ContextBuilder.Coerce | services/context_builder.py:120-125 | `None` gives `""`; a list gives the `str` of its first truthy item, and is empty iff no item is truthy; any other value gives its `str` |
| ContextBuilder.Probe | services/context_builder.py:127-132 | empty iff no key holds a usable value; otherwise the coerced value of the first key, in order, whose value is truthy and coerces to a non-empty string |
| ContextBuilder.ExtractContactValue | services/context_builder.py:116-145 | `""` for a missing account; a hit on the attributes wins; otherwise probes the `additional_properties` dict (or `properties` when that is falsy); `""` when nothing matches |
| ContextBuilder.FromMappingNoneDecides | services/context_builder.py:148-159 | with no present list, dict or truthy scalar under any key, the result is `""` |
| ContextBuilder.FromMappingFirstDecides | services/context_builder.py:148-158 | the first key holding a list, a dict or a truthy scalar decides the result, even when a list or dict yields `""`; falsy scalars fall through |
| ContextBuilder.ExtractFromMapping | services/context_builder.py:148-159 | the loop computes exactly the first-deciding-key result |
| ContextBuilder.EmptyListStopsSearch | services/context_builder.py:153-154 | an empty `businessPhones` list stops the search before a later `phone` entry, giving `""` |
| ContextBuilder.FromActivity | services/context_builder.py:21-48 | the locale is the activity's when truthy and `"es-ES"` otherwise, so it is never empty; the message is the text or `""`; the sender's name, id and aad object id are copied unchanged; email and phone are probed over their account key lists |
| ContextBuilder.AadFallback | services/context_builder.py:78-83 | empty iff none of `id`, `aad_object_id`, `objectId` is truthy; otherwise the `str` of the first truthy one, tried in that order |
| ContextBuilder.MergeProfileData | services/context_builder.py:50-90 | a missing or empty profile leaves the context unchanged; non-empty email, phone and aad id keep their values and empty ones are filled from the profile; every other field is untouched |
| ContextBuilder.MergeIdempotent | services/context_builder.py:55-90 | merging the same profile twice equals merging it once |
| ContextBuilder.ToWatsonContext | services/context_builder.py:92-113 | the loop builds the `channel` payload: `channel_type` `"teams"`, the four identity keys, the locale, and each profile entry under `profile_<key>` |
| ContextBuilder.UnprefixedKeysKept | services/context_builder.py:109-111 | copying profile entries never changes a key without the `profile_` prefix |
| ContextBuilder.BaseKeysKept | services/context_builder.py:97-111 | the teams section always maps the four base keys to the context's conversation id, user name, aad id and user id |
| ContextBuilder.ProfileEntryCopied | services/context_builder.py:109-111 | every entry of a profile dict appears in the teams section as `profile_<key>` with its value |
| ContextBuilder.PrefixedKeyKept | services/context_builder.py:110-111 | a later profile entry with another key never overwrites a `profile_<key>` entry |
| MessageRules.LocaleInstruction | services/message_rules.py:43-46 | the Spanish instruction iff the lowered locale starts with `es-`; the English one otherwise, the empty locale included |
| MessageRules.LocaleApply | services/message_rules.py:37-52 | the message is unchanged when it already contains the instruction; an empty message gives exactly the instruction; otherwise `message + "\n\n" + instruction`; the result starts with the message and contains the instruction |
| MessageRules.LabelApply | services/message_rules.py:63-76 | an empty message is unchanged; a message already starting with `<label>: ` is unchanged; otherwise `<label>: '<message>'`; a non-empty result always starts with the label prefix |
| MessageRules.FirstTruthyItem | services/message_rules.py:144 | `None` iff no item is truthy; any returned item is truthy |
| MessageRules.FirstTruthyValue | services/message_rules.py:145-147 | `None` iff no dict value is truthy; a returned value is a non-empty string |
| MessageRules.FirstFromProfile | services/message_rules.py:137-150 | a returned value is always truthy |
| MessageRules.ExtractFirst | services/message_rules.py:137-150 | the loop computes exactly the first-deciding-key result, including `None` from an empty list |
| MessageRules.ExtractorsAgree | services/message_rules.py:137-150 | `_extract_first` and `_extract_from_mapping` stop at the same key; printed, their results agree |
| MessageRules.FirstItemsAgree | services/message_rules.py:144 | the item picked from a list prints to what `_extract_from_mapping` returns for that list |
| MessageRules.FirstValuesAgree | services/message_rules.py:147 | the value picked from a dict prints to what `_extract_from_mapping` returns for that dict |
| MessageRules.BuildPrefix | services/message_rules.py:98-135 | the appended `parts` list gives exactly the specified identity block |
| MessageRules.PrefixIsJoinedParts | services/message_rules.py:126-135 | the block is the present fields, email then aad id then phone, each as `key:'value'` and joined by newlines; the final `rstrip` never removes anything |
| MessageRules.PrefixEmptyIff | services/message_rules.py:126-135 | the block is empty iff email, aad id and phone all resolve to falsy values |
| MessageRules.ContextEmailLeads | services/message_rules.py:104-128 | a known context email opens the block as `email:'<email>'`, whatever the profile says |
| MessageRules.ContextFieldsOverrideProfile | services/message_rules.py:104-123 | with context email and phone known, the profile has no influence on the block |
| MessageRules.MergedContextMakesProfileRedundant | services/message_rules.py:103-124 | after the turn's merge step, building the block with the profile equals building it without one |
| MessageRules.PrefixApply | services/message_rules.py:90-96 | the message is unchanged when it already starts with the block (always, for an empty block); otherwise `block + "\n\n" + message`, or just the block for an empty message; the result always starts with the block |
| MessageRules.ApplyRule | bot.py:165 | one `rule.apply` call for each of the three rule kinds |
| MessageRules.RuleIdempotent | services/message_rules.py:37-96 | applying any rule to its own output changes nothing |
| ThreadSessions.Saved | session/chat/memory_session.py:15-18 | the key maps to `{thread_id, now + ttl}`; every other key keeps its entry |
| ThreadSessions.Lookup | session/chat/memory_session.py:20-24 | a thread id is returned iff an entry exists and `now < expire_at`, and it is the stored one |
| ThreadSessions.AfterLookup | session/chat/memory_session.py:25-27 | a live or absent entry leaves the store unchanged; an expired one is removed |
| ThreadSessions.Deleted | session/chat/memory_session.py:29-31 | the key is gone and every other key keeps its entry |
| ThreadSessions.ChatMemorySessionManager.constructor | session/chat/memory_session.py:11-13 | an empty store with the given time-to-live, 900 seconds by default |
| ThreadSessions.ChatMemorySessionManager.SaveThread | session/chat/memory_session.py:15-18 | the store becomes the saved store |
| ThreadSessions.ChatMemorySessionManager.GetThread | session/chat/memory_session.py:20-27 | returns the lookup result and leaves the store after lazy deletion |
| ThreadSessions.ChatMemorySessionManager.DeleteThread | session/chat/memory_session.py:29-31 | the store becomes the store without the key |
| ThreadSessions.EntrySurvives | session/chat/memory_session.py:15-31 | any sequence of saves, reads and deletes that neither saves nor deletes `c`, and reads `c` only before expiry, leaves `c`'s entry intact |
| ThreadSessions.SaveThenGet | session/chat/memory_session.py:15-24 | round trip: a thread saved at `t0` is returned at any later `now < t0 + ttl` whatever happens to other conversations |
| ThreadSessions.ExpiredReadForgets | session/chat/memory_session.py:23-27 | a read at or after expiry returns `None` and removes the entry, and every later read returns `None` |
| TokenCache.Refresh | conversation/watsonx_token_manager.py:29-45 | a failed request or a missing `access_token` is an error; otherwise the token with expiry `receivedAt + expires_in`, 3600 by default |
| TokenCache.WatsonxTokenManager.constructor | conversation/watsonx_token_manager.py:10-13 | no token, expiry 0 |
| TokenCache.WatsonxTokenManager.RefreshToken | conversation/watsonx_token_manager.py:29-45 | a good reply sets both fields; a failure raises before either field is assigned |
| TokenCache.WatsonxTokenManager.GetToken | conversation/watsonx_token_manager.py:15-27 | no refresh: the cached token, state unchanged; refresh iff no token or `now >= expires_at - buffer`; a failed refresh leaves the state unchanged and returns its error; a good refresh returns the new token; the returned token always equals the stored one |
| TokenCache.RenewedTokenReused | conversation/watsonx_token_manager.py:15-27 | after a call that renewed the token from a reply granting more than the buffer, a later call before the buffer window returns the same token, changes nothing, and ignores the endpoint |
| TokenCache.BufferWindowForcesRefresh | conversation/watsonx_token_manager.py:17-23 | once a token's buffer window is reached, the next call returns what an empty cache would, from the new reply; a failed renewal keeps the old state |
| LanguageControl.TargetLanguageFromLocale | conversation/watsonx_ai.py:91-96 | `"English"` iff the lowered locale starts with `en`; `"Spanish"` otherwise, the empty locale included |
| LanguageControl.BuildLanguageControlPrompt | conversation/watsonx_ai.py:98-122 | the prompt contains the user message, the response to check and the fallback language verbatim, each right after its label, and ends with the output cue |
| LanguageControl.NormalizeGeneration | conversation/watsonx_ai.py:156-167 | a request failure and missing `results` both give `None`; an empty `results` list is an error; otherwise the stripped first `generated_text`, with `None` iff it is missing or blank |
| LanguageControl.LocaleChoicesAgreeIff | conversation/watsonx_ai.py:93-96 | the locale rule's language and the controller's fallback agree iff the lowered locale starts with `es-` or `en` |
| LanguageControl.ControlFailsIff | conversation/watsonx_ai.py:24-89 | an enabled controller raises iff its token renewal fails (then with that error) or the generation `results` list is empty (then `NoResults`); a disabled one never raises; a failed renewal leaves the cache unchanged |
| LanguageControl.ControlTokenFollowsCacheRule | conversation/watsonx_ai.py:24-59 | the controller reuses a token exactly when the orchestrator's cache with a 60-second buffer would; an enabled call leaves the controller's cache as the orchestrator's cache rule with a 60-second buffer would; a token renewed before an `IndexError` is kept |
| LanguageControl.WatsonxAI.constructor | conversation/watsonx_ai.py:12-22 | the given settings and key, no token, expiry 0 |
| LanguageControl.WatsonxAI.GetIamToken | conversation/watsonx_ai.py:24-59 | reuse iff a token exists and `now < expires_at - 60`; a good reply sets the token and `receivedAt + expires_in` (3600 by default); a failure raises with the state unchanged |
| LanguageControl.WatsonxAI.GenerateText | conversation/watsonx_ai.py:124-167 | a token failure propagates and nothing is posted; with a token, the request whose `input` is the given prompt is posted, and the result is the normalised generation |
| LanguageControl.WatsonxAI.ControlLanguageResponse | conversation/watsonx_ai.py:61-89 | disabled: the response is returned unchanged, no prompt is built and the state is unchanged; enabled: the prompt built is filled in with the user message, the response and the locale's fallback language, its text is exactly what is posted, and it is posted iff a token is available; the result is the normalised generation or the token error; result and token cache are exactly `ControlOutcome` of the old cache |
| ProfileService.FetchProfile | services/user_profile_service.py:40-59 | a failure gives `None`; a profile is returned iff the body's `"user"` entry is a dict, and it is that dict's entries |
| ProfileService.ProfileLookup | services/user_profile_service.py:23-38 | empty id: `None`, no fetch; a non-empty cached profile is returned with no fetch and no save; miss and disabled: `None`, no fetch; otherwise fetch, and the store changes only by saving a non-empty result under the id |
| ProfileService.SecondLookupHitsCache | services/user_profile_service.py:27-38 | after a miss whose fetch gave a non-empty profile, the next lookup returns it without fetching, whatever the API replies |
| ProfileService.LookupTouchesOnlyItsId | services/user_profile_service.py:35-38 | a lookup never changes the profile cached under another id |
| ProfileService.ResultIsCached | services/user_profile_service.py:27-38 | a non-empty result is always the profile now cached under the id |
| ProfileService.ProfileStore.constructor | session/profile/base_profile_store.py:5-21 | an empty store |
| ProfileService.ProfileStore.GetProfile | session/profile/redis_profile_store.py:37-44 | the cached profile under the id, or `None` |
| ProfileService.ProfileStore.SaveProfile | session/profile/redis_profile_store.py:32-35 | the id now maps to the profile; other ids are unchanged |
| ProfileService.ProfileStore.DeleteProfile | session/profile/redis_profile_store.py:46-48 | the id is removed |
| ProfileService.UserProfileService.constructor | services/user_profile_service.py:15-21 | the given store and enabled flag |
| ProfileService.UserProfileService.GetUserProfile | services/user_profile_service.py:23-38 | the result, whether it fetched, and the new store, all as the lookup specification says |
| StoreKeys.SessionKey | session/chat/redis_session.py:35 | `session:` followed by exactly the conversation id |
| StoreKeys.ProfileKey | session/profile/redis_profile_store.py:50-51 | `profile:` followed by exactly the object id |
| StoreKeys.KeysInjective | session/chat/redis_session.py:35 | two ids give the same key iff they are equal, in both key spaces |
| StoreKeys.KeySpacesDisjoint | session/profile/redis_profile_store.py:50-51 | no session key equals any profile key |
| Orchestrate.RequestHeaders | conversation/watsonx.py:37-48 | bearer authorisation and the JSON content and accept headers; `X-IBM-THREAD-ID` is present iff the stored thread id is truthy, and then carries it |
| Orchestrate.RequestPayload | conversation/watsonx.py:50-59 | exactly one message, role `user` with the given content; the context; `stream` false |
| Orchestrate.Completion | conversation/watsonx.py:78-94 | a failure gives `None`; the first choice's content when choices are non-empty; `None` otherwise |
| Orchestrate.SessionAfter | conversation/watsonx.py:43-76 | a truthy returned thread id is stored, overwriting the old one, even with no choices; otherwise only the read's lazy deletion happens; other conversations are untouched |
| Orchestrate.ThreadContinuity | conversation/watsonx.py:43-76 | a returned thread id comes back as the thread header of every later call before it expires |
| Orchestrate.NoThreadNoSave | conversation/watsonx.py:73-94 | a failure or a reply without a thread id never adds or changes the conversation's entry |
| Orchestrate.WatsonxOrchestrate.constructor | conversation/watsonx.py:10-23 | the given session store and token manager |
| Orchestrate.WatsonxOrchestrate.ChatCompletion | conversation/watsonx.py:25-94 | a token failure raises before the store is read, with nothing posted; it raises iff the token must be renewed and the renewal fails; what it posts, returns or raises, and both caches after it, are exactly `ChatStep` of the old state |
| Orchestrate.ChatStepCases | conversation/watsonx.py:25-94 | a token failure raises before the store is read, posts nothing and changes neither cache; otherwise the request carries the bearer header of the cached or renewed token, the stored thread id and the payload, the result is the completion, and the store takes the session update |
| Bot.ApplyMessageRules | bot.py:157-171 | the loop is the left fold of `rule.apply` over the rules in order |
| Bot.FoldAppend | bot.py:163-165 | folding two rule lists in sequence equals folding their concatenation |
| Bot.PrefixFirstChar | services/message_rules.py:126-135 | a non-empty identity block starts with `e`, `a` or `p` |
| Bot.LabelledNeverPrefixed | services/message_rules.py:72-96 | a labelled message never starts with a non-empty identity block, so the prefix rule always acts on it |
| Bot.BlockLedTextUnlabelled | services/message_rules.py:72-76 | text that opens with a non-empty identity block never starts with the input label, so the label rule wraps it again |
| Bot.ConfiguredChainShape | bot.py:232-235 | the configured chain gives the block, a blank line, then the labelled message; it starts with the block and always contains the user's text |
| Bot.ConfiguredChainNotIdempotent | bot.py:232-235 | with a non-empty block, applying the chain to its own output makes it strictly longer |
| Bot.LanguageControlled | bot.py:173-219 | a falsy response is returned as is, as is any response when no controller exists; otherwise the controller's result when truthy, the original when not; the result is truthy iff the response is |
| Bot.Dispatch | bot.py:125-144 | a reply is sent iff it is truthy, and it is exactly that reply |
| Bot.RaisedIff | bot.py:46-115 | a turn raises iff the orchestrator's token renewal fails, or a controller is configured, the reply is truthy and the controller raises; the error names the step; otherwise the reply is delivered and something is sent iff it is truthy |
| Bot.ControllerSeesUserMessage | bot.py:104-109 | the controller's prompt is filled in with the activity's own message (not the prepared text) and its locale's fallback language, its text starts with the template head and that message, it does not depend on the prepared text or the Watson context, and it is built exactly when the orchestrator answered truthily and an enabled controller is configured (`ApplyLanguageControl` states that its text is what is posted) |
| Bot.AnswerRequest | bot.py:97-115 | a turn posts a request iff it has a token; the request carries that token and the conversation's stored thread id; the thread store after the turn is the orchestrator's session update, or unchanged after a token failure; a posted turn's response is the completion, and any delivery is the dispatch of the language decision |
| Bot.NextTurnCarriesThread | bot.py:97-115 | when a turn's reply carries a thread id, the next turn of the same conversation before expiry sends it as its thread header, whatever the controller did |
| Bot.NextTurnUsesCachedProfile | bot.py:57-96 | once a turn fetched a non-empty profile for an aad object id, the next turn from that sender finds it in the store the turn left and does not fetch |
| Bot.TeamsWatsonBot.constructor | bot.py:30-44 | the given orchestrator, rules, profile service and controller |
| Bot.TeamsWatsonBot.FetchUserProfile | bot.py:146-155 | no lookup and `None` without a profile service or an aad id, the store unchanged; otherwise the profile lookup's result and its store update |
| Bot.TeamsWatsonBot.ApplyLanguageControl | bot.py:173-219 | no controller call for a falsy response or without a controller; a disabled controller passes the response through; the prompt the controller builds is filled in with the given user message, the response and the given locale's fallback language exactly when an enabled controller gets a truthy response; its text is what is posted to watsonx.ai, and it is posted iff the controller has or obtains a token; the result, whether it raises, what the controller returned and the controller's new token cache are exactly `ControlStage` of the old state |
| Bot.ControlStageCases | bot.py:173-219 | no controller call for a falsy reply or without a controller; a disabled controller passes the reply through; otherwise the language decision over the normalised generation; it raises iff the controller raises |
| Bot.TeamsWatsonBot.PrepareTurn | bot.py:57-96 | the context from the activity, the guarded profile, the merged context, the Watson context built with the profile, and the rules folded over the merged message; the profile store is the lookup's new store |
| Bot.TeamsWatsonBot.FinishTurn | bot.py:104-115 | an orchestrator error propagates and nothing is ignored; otherwise the controller is given the activity's own message and locale, and outcome, prompt, controller result and the controller's token cache are exactly `AfterReply` of the old state |
| Bot.TeamsWatsonBot.AnswerTurn | bot.py:97-115 | outcome, request, response, controller prompt and result, thread store and both token caches are exactly `AnswerSpec` of the old state, about which `RaisedIff`, `AnswerRequest`, `ControllerSeesUserMessage` and `NextTurnCarriesThread` are proved |
| Bot.TeamsWatsonBot.HandleTurn | bot.py:46-115 | a non-message activity is ignored with no state changed; a message turn prepares the specified context, profile and prompt, leaves the profile store as the lookup does, and its outcome, request, controller prompt, and the thread store and token caches after it are `AnswerSpec` of the old state over the turn's own context |
| Bot.BuildBot | bot.py:222-261 | a 900-second thread store; the rules are label then arguments, with no locale rule; a profile service only when enabled; a language controller only when watsonx.ai is configured |

## Left out

- HTTP traffic of every kind is replaced by reply datatypes. This covers `requests.post`/`get`, status codes, URLs, timeouts, agent id and request bodies for the IAM endpoint.
- The Redis clients and JSON encoding are left out. The in-memory session manager stands in for the Redis session store. An in-memory map with the same interface stands in for the profile store. Redis expiry (`setex`: 900 seconds for threads, 86400 for profiles) is therefore not modelled; the profile cache never expires in the model.
- The clock is one reading per turn: `TurnInputs.now` serves every expiry check of the turn, while the code calls `time.time()` afresh in each token manager and in each session lookup and save. Expiries that fall between two such readings of one turn are not modelled.
- Logging, the typing indicator, `send_activity`, `run_in_executor` and the asyncio machinery are left out. A turn runs sequentially, and the races the code tolerates on token refresh are not modelled.
- `server.py` is not part of this model: the aiohttp transport, Bot Framework authentication, and the outer handler that reports a failed turn. A failed turn is the outcome `Raised`.
- Settings that read environment variables are not modelled. `is_enabled` is a boolean for the profile service. For watsonx.ai it is `AiSettings.IsEnabled`: the API key and project id are both non-empty.
- Generation parameters are not modelled: temperature, repetition penalty, model id and token limit.
- Reply bodies with the wrong shape are not modelled. Examples are a choice without `message.content`, a non-string `generated_text` or `thread_id`, a non-dict body, or a `"user"` entry that is not a dict. `FetchProfile` reads a non-dict `"user"` entry as no profile. An explicit JSON `null` is read like an absent key. In the token managers, a `null` `access_token` stores `None` and goes on, where the model stores the token; a `null` `expires_in` raises a `TypeError` after the token was stored (conversation/watsonx_token_manager.py:42-44, conversation/watsonx_ai.py:50-52), where the model uses 3600.
- Account attributes that are `None` in Python (name, id, aad object id) are modelled as `""`.
- `TargetLanguageFromLocale`: Python's `lower()` folds all of Unicode, while the model folds ASCII only. The two agree on every ASCII locale tag. The same holds for `LocaleInstruction`.
- Repr: Python's `repr` of a string picks double quotes when the string contains `'` but no `"`, and escapes backslashes, the chosen quote and control characters. The model always wraps in single quotes without escaping. This affects `str()` of lists and dicts, dict keys included, only for strings holding such characters.
- Python's `str()` of floats is not modelled. `Values` has no floating-point values.
- The `tests/test_language_detection.py` expectations (detection, retries, artifact stripping) belong to a language cascade the code does not contain, and are not modelled.
- `LocaleResponseRule` is modelled and proved, but the configured bot does not use it.
