/**
 * The turn coordinator (bot.py): filter message activities, build and enrich the
 * context, fold the message rules over the user's text, ask the orchestrator,
 * optionally pass the answer through the language controller, and send it only
 * when there is something to send. A turn runs sequentially; every external
 * reply the turn would receive is an argument.
 */
module Bot {
  import opened Wrappers
  import opened Strings
  import opened Values
  import opened ContextBuilder
  import opened MessageRules
  import opened ProfileService
  import opened Orchestrate
  import opened LanguageControl
  import opened TokenCache
  import opened ThreadSessions

  /** The rules `_build_bot` installs, in order; the locale rule is not among them. */
  const ConfiguredRules: seq<Rule> := [UserInputLabel(DefaultLabel), ArgumentsPrefix]

  /** The constructor's `fallback_message`; its only use in the source is commented out. */
  const FallbackMessage := "Lo siento, no pude procesar tu mensaje en este momento."

  // ---------------------------------------------------------------------------
  // _apply_message_rules

  /** The left fold of `rule.apply` over the rules, in order. */
  function FoldRules(rules: seq<Rule>, message: string, context: ActivityContext, profile: Option<Mapping>): string
    decreases |rules|
  {
    if rules == [] then message
    else FoldRules(rules[1..], ApplySpec(rules[0], message, context, profile), context, profile)
  }

  method ApplyMessageRules(rules: seq<Rule>, message: string, context: ActivityContext, profile: Option<Mapping>)
    returns (r: string)
    ensures r == FoldRules(rules, message, context, profile)
  {
    var updated := message;
    var i := 0;
    while i < |rules|
      invariant 0 <= i <= |rules|
      invariant FoldRules(rules[i..], updated, context, profile) == FoldRules(rules, message, context, profile)
    {
      assert rules[i..][1..] == rules[i + 1..];
      updated := ApplyRule(rules[i], updated, context, profile);
      i := i + 1;
    }
    assert rules[i..] == [];
    r := updated;
  }

  /** Folding a concatenation folds the second list over the result of the first. */
  lemma {:induction false} FoldAppend(first: seq<Rule>, second: seq<Rule>, message: string,
                                      context: ActivityContext, profile: Option<Mapping>)
    ensures FoldRules(first + second, message, context, profile)
            == FoldRules(second, FoldRules(first, message, context, profile), context, profile)
    decreases |first|
  {
    if first == [] {
      assert first + second == second;
    } else {
      assert (first + second)[1..] == first[1..] + second;
      FoldAppend(first[1..], second, ApplySpec(first[0], message, context, profile), context, profile);
    }
  }

  /** A non-empty identity block starts with `email:'`, `aad_object_id:'` or `phone:'`, never with a label. */
  lemma PrefixFirstChar(context: ActivityContext, profile: Option<Mapping>)
    ensures var p := Prefix(context, profile); p == "" || p[0] == 'e' || p[0] == 'a' || p[0] == 'p'
  {
    PrefixIsJoinedParts(context, profile);
    var parts := PrefixParts(context, profile);
    if parts != [] {
      JoinStartsWithFirst("\n", parts);
      assert parts[0][0] == 'e' || parts[0][0] == 'a' || parts[0][0] == 'p';
      assert Prefix(context, profile)[0] == parts[0][0];
    }
  }

  /** The labelled message never starts with a non-empty identity block. */
  lemma LabelledNeverPrefixed(message: string, context: ActivityContext, profile: Option<Mapping>)
    requires message != "" && Prefix(context, profile) != ""
    ensures !StartsWith(LabelApply(DefaultLabel, message), Prefix(context, profile))
  {
    var p := Prefix(context, profile);
    var labelled := LabelApply(DefaultLabel, message);
    var lp := LabelPrefix(DefaultLabel);
    PrefixFirstChar(context, profile);
    assert labelled[0] == 'U' by {
      assert StartsWith(labelled, lp);
      assert labelled[..|lp|][0] == labelled[0];
      assert lp[0] == 'U';
    }
    FirstCharsDiffer(labelled, p);
  }

  /**
   * The shape of the configured chain: the identity block, a blank line, then the
   * labelled message; the user's text always survives inside the result.
   */
  lemma ConfiguredChainShape(message: string, context: ActivityContext, profile: Option<Mapping>)
    ensures var r := FoldRules(ConfiguredRules, message, context, profile);
      var p := Prefix(context, profile);
      var labelled := LabelApply(DefaultLabel, message);
      && StartsWith(r, p)
      && Contains(r, message)
      && (message == "" ==> r == p)
      && (message != "" && p == "" ==> r == labelled)
      && (message != "" && p != "" ==> r == p + "\n\n" + labelled)
  {
    var p := Prefix(context, profile);
    var labelled := LabelApply(DefaultLabel, message);
    var r := FoldRules(ConfiguredRules, message, context, profile);
    assert ConfiguredRules[0] == UserInputLabel(DefaultLabel) && ConfiguredRules[1..] == [ArgumentsPrefix];
    assert FoldRules([ArgumentsPrefix], labelled, context, profile) == PrefixApply(p, labelled);
    assert r == PrefixApply(p, labelled);
    assert Contains(labelled, message) by {
      if StartsWith(message, LabelPrefix(DefaultLabel)) || message == "" {
        assert labelled == message;
        ContainsPrefix(message, "");
        assert message + "" == message;
      } else {
        ContainsMiddle(LabelPrefix(DefaultLabel) + "'", message, "'");
      }
    }
    if message != "" && p != "" {
      LabelledNeverPrefixed(message, context, profile);
      ContainsSuffixOf(p + "\n\n", labelled, message);
    } else if message != "" {
      assert r == labelled;
    } else {
      assert StartsWith(message, p) <==> p == "";
      ContainsPrefix(message, "");
      assert r == p;
      assert message == "";
      StartsWithConcat("", r);
      assert Contains(r, message);
    }
  }

  /** `sub` inside `s` is also inside `prefix + s`. */
  lemma {:induction false} ContainsSuffixOf(prefix: string, s: string, sub: string)
    requires Contains(s, sub)
    ensures Contains(prefix + s, sub)
    decreases |prefix|
  {
    if prefix == [] {
      assert prefix + s == s;
    } else {
      assert (prefix + s)[1..] == prefix[1..] + s;
      ContainsSuffixOf(prefix[1..], s, sub);
    }
  }

  /**
   * Although each rule is idempotent, the configured chain is not: once an
   * identity block is known, folding the chain over its own output labels and
   * prefixes it again.
   */
  lemma ConfiguredChainNotIdempotent(message: string, context: ActivityContext, profile: Option<Mapping>)
    requires Prefix(context, profile) != ""
    ensures var once := FoldRules(ConfiguredRules, message, context, profile);
      |FoldRules(ConfiguredRules, once, context, profile)| > |once|
  {
    var p := Prefix(context, profile);
    var once := FoldRules(ConfiguredRules, message, context, profile);
    ConfiguredChainShape(message, context, profile);
    PrefixFirstChar(context, profile);
    BlockLedTextUnlabelled(once, p);
    var relabelled := LabelApply(DefaultLabel, once);
    assert |relabelled| > |once|;
    ConfiguredChainShape(once, context, profile);
  }

  /** Text that opens with a non-empty identity block does not carry the input label. */
  lemma BlockLedTextUnlabelled(s: string, p: string)
    requires StartsWith(s, p) && p != "" && (p[0] == 'e' || p[0] == 'a' || p[0] == 'p')
    ensures s != "" && !StartsWith(s, LabelPrefix(DefaultLabel))
  {
    assert s[..|p|][0] == s[0];
  }

  // ---------------------------------------------------------------------------
  // _apply_language_control, _dispatch_response

  /**
   * `_apply_language_control` given whether a controller is configured and what
   * it returned: the controller's answer when it is non-empty, the original otherwise.
   */
  function LanguageControlled(response: Option<string>, controllerConfigured: bool, controlled: Option<string>): (r: Option<string>)
    ensures Present(r) <==> Present(response)
    ensures !Present(response) || !controllerConfigured ==> r == response
    ensures r == response || (controllerConfigured && Present(response) && Present(controlled) && r == controlled)
    ensures controllerConfigured && Present(response) && Present(controlled) ==> r == controlled
  {
    if !Present(response) then response
    else if !controllerConfigured then response
    else if Present(controlled) then controlled
    else response
  }

  datatype Delivery = Sent(text: string) | NothingSent

  /** `_dispatch_response`: send exactly a non-empty reply; the fallback message is never sent. */
  function Dispatch(response: Option<string>): (r: Delivery)
    ensures r.Sent? <==> Present(response)
    ensures r.Sent? ==> Some(r.text) == response
  {
    if Present(response) then Sent(response.value) else NothingSent
  }

  // ---------------------------------------------------------------------------
  // handle_turn

  /** Every reply from outside that one turn may receive. */
  datatype TurnInputs = TurnInputs(
    now: real,
    profileReply: FetchReply,
    orchestrateIam: IamReply,
    chatReply: ChatReply,
    languageIam: IamReply,
    generation: GenerationReply)

  /** An exception that escapes `handle_turn`. */
  datatype TurnError =
    | OrchestrateTokenFailed(cause: TokenError)
    | LanguageControlFailed(error: ControlError)

  datatype TurnOutcome = Ignored | Delivered(delivery: Delivery) | Raised(error: TurnError)

  /**
   * What a message turn computed on its way; `prompt` is what the controller sent
   * and `controlled` what it returned, both `None` when it was not called.
   */
  datatype TurnTrace = TurnTrace(
    context: ActivityContext,
    profile: Option<Mapping>,
    watsonContext: Value,
    prepared: string,
    request: Option<ChatRequest>,
    response: Option<string>,
    prompt: Option<Prompt>,
    controlled: Option<string>)

  /** The profile store after the first half of a turn: the lookup's store when the sender has an aad object id. */
  function PrepareProfiles(profiles: map<string, Mapping>, aad: string, enabled: bool, reply: FetchReply): map<string, Mapping>
  {
    if aad == "" then profiles else ProfileLookup(profiles, aad, enabled, reply).profiles
  }

  /**
   * Profile caching across turns: once a turn's lookup fetched a non-empty profile,
   * the next turn from the same sender finds it cached and does not fetch again.
   */
  lemma NextTurnUsesCachedProfile(profiles: map<string, Mapping>, aad: string, enabled: bool,
                                  reply: FetchReply, reply2: FetchReply)
    requires ProfileLookup(profiles, aad, enabled, reply).fetched
    requires NonEmptyProfile(ProfileLookup(profiles, aad, enabled, reply).result)
    ensures var second := ProfileLookup(PrepareProfiles(profiles, aad, enabled, reply), aad, enabled, reply2);
      !second.fetched && second.result == ProfileLookup(profiles, aad, enabled, reply).result
  {
    SecondLookupHitsCache(profiles, aad, enabled, reply, reply2);
  }

  /** A configured language controller as a turn sees it: whether it is enabled, and its token cache. */
  datatype ControllerState = ControllerState(enabled: bool, tokens: TokenState)

  /**
   * `_apply_language_control` over the controller's state: the answer it passes on
   * (or the error it raises), what the controller returned (`None` when it was not
   * called or raised), and the controller's token cache afterwards.
   */
  function ControlStage(controller: Option<ControllerState>, response: Option<string>, inputs: TurnInputs)
    : (Result<Option<string>, ControlError>, Option<string>, Option<TokenState>)
  {
    var tokens := if controller.Some? then Some(controller.value.tokens) else None;
    if controller.None? || !Present(response) then (Ok(response), None, tokens)
    else
      var (result, tokens') := ControlOutcome(controller.value.tokens, controller.value.enabled, response.value,
                                              inputs.now, inputs.languageIam, inputs.generation);
      match result
      case Err(e) => (Err(e), None, Some(tokens'))
      case Ok(controlled) => (Ok(LanguageControlled(response, true, controlled)), controlled, Some(tokens'))
  }

  /**
   * The prompt `_apply_language_control` has the controller send: built from the
   * user's own message, not the prepared text, and the fallback language of the
   * locale; sent only when an enabled controller is given a truthy reply.
   */
  function ControlPrompt(controller: Option<ControllerState>, response: Option<string>, userMessage: string, locale: string)
    : Option<Prompt>
  {
    if controller.Some? && controller.value.enabled && Present(response) then
      Some(Prompt(userMessage, response.value, TargetLanguageFromLocale(locale)))
    else None
  }

  /**
   * The cases of `_apply_language_control`: no controller call for a falsy reply or
   * without a controller; a disabled controller passes the reply through; an enabled
   * one gives the normalised generation, with the language decision applied; it
   * raises exactly when the controller does.
   */
  lemma ControlStageCases(controller: Option<ControllerState>, response: Option<string>, inputs: TurnInputs)
    ensures var (r, controlled, tokens) := ControlStage(controller, response, inputs);
      && (controller.None? || !Present(response) ==>
            r == Ok(response) && controlled == None && tokens == (if controller.Some? then Some(controller.value.tokens) else None))
      && (r.Ok? ==> r.value == LanguageControlled(response, controller.Some?, controlled))
      && (controller.Some? && Present(response) && !controller.value.enabled ==>
            r == Ok(response) && controlled == response && tokens == Some(controller.value.tokens))
      && (controller.Some? && Present(response) && controller.value.enabled && r.Ok? ==>
            NormalizeGeneration(inputs.generation) == Ok(controlled))
      && (r.Err? <==> controller.Some? && Present(response)
                      && ControlOutcome(controller.value.tokens, controller.value.enabled, response.value, inputs.now,
                                        inputs.languageIam, inputs.generation).0.Err?)
  {
  }

  /** What the turn does from the orchestrator call on, and the state of the three caches after it. */
  datatype Answer = Answer(
    outcome: TurnOutcome,
    request: Option<ChatRequest>,
    response: Option<string>,
    prompt: Option<Prompt>,
    controlled: Option<string>,
    store: ThreadSessions.Store,
    orchestratorTokens: TokenState,
    controllerTokens: Option<TokenState>)

  /**
   * The second half of `handle_turn` over the caches' contents: the orchestrator's
   * token (its failure raises), the request with the stored thread id, the thread
   * store after the reply, then the language controller when there is one and the
   * reply is truthy (its failure raises), sent a prompt made of the user's message
   * and locale, and the dispatch.
   */
  function AnswerSpec(tokens: TokenState, buffer: real, store: ThreadSessions.Store, ttl: real,
                      controller: Option<ControllerState>, context: ActivityContext, watsonContext: Value,
                      prepared: string, inputs: TurnInputs): Answer
  {
    AnswerAfterChat(ChatStep(tokens, buffer, store, ttl, context.conversationId, prepared, watsonContext, inputs.now,
                             inputs.orchestrateIam, inputs.chatReply),
                    controller, context, inputs)
  }

  /** The turn once the orchestrator call has given `chat`. */
  function AnswerAfterChat(chat: ChatOutcome, controller: Option<ControllerState>, context: ActivityContext,
                           inputs: TurnInputs): Answer
  {
    var c := AfterReply(controller, chat.result, context, inputs);
    Answer(c.outcome, chat.request, c.response, c.prompt, c.controlled, chat.store, chat.tokens, c.tokens)
  }

  /**
   * The end of a turn: the outcome, the orchestrator's reply, what the controller
   * sent and returned, and its token cache afterwards.
   */
  datatype Control = Control(outcome: TurnOutcome, response: Option<string>, prompt: Option<Prompt>,
                             controlled: Option<string>, tokens: Option<TokenState>)

  /**
   * The end of `handle_turn` given what `chat_completion` returned: its error
   * propagates; otherwise `_apply_language_control` on the reply, then
   * `_dispatch_response` unless that raised.
   */
  function AfterReply(controller: Option<ControllerState>, reply: Result<Option<string>, TokenError>,
                      context: ActivityContext, inputs: TurnInputs): Control
  {
    if reply.Err? then
      Control(Raised(OrchestrateTokenFailed(reply.error)), None, None, None,
              if controller.Some? then Some(controller.value.tokens) else None)
    else
      var response := reply.value;
      var (final, controlled, tokens') := ControlStage(controller, response, inputs);
      var outcome := if final.Err? then Raised(LanguageControlFailed(final.error)) else Delivered(Dispatch(final.value));
      Control(outcome, response, ControlPrompt(controller, response, context.message, context.locale), controlled, tokens')
  }

  /** A turn's answer assembled from what `chat_completion` and the end of the turn gave. */
  lemma AnswerAssembled(tokens: TokenState, buffer: real, store: ThreadSessions.Store, ttl: real,
                        controller: Option<ControllerState>, context: ActivityContext, watsonContext: Value,
                        prepared: string, inputs: TurnInputs, chat: ChatOutcome, control: Control)
    requires chat == ChatStep(tokens, buffer, store, ttl, context.conversationId, prepared, watsonContext, inputs.now,
                              inputs.orchestrateIam, inputs.chatReply)
    requires control == AfterReply(controller, chat.result, context, inputs)
    ensures AnswerSpec(tokens, buffer, store, ttl, controller, context, watsonContext, prepared, inputs)
            == Answer(control.outcome, chat.request, control.response, control.prompt, control.controlled, chat.store,
                      chat.tokens, control.tokens)
  {
  }

  /**
   * A turn raises exactly when the orchestrator's token cannot be renewed, or when a
   * controller is configured, the reply is truthy, and the controller raises; the
   * error names the step. Otherwise the reply is delivered, and it is sent iff it is truthy.
   */
  lemma RaisedIff(tokens: TokenState, buffer: real, store: ThreadSessions.Store, ttl: real,
                  controller: Option<ControllerState>, context: ActivityContext, watsonContext: Value,
                  prepared: string, inputs: TurnInputs)
    ensures var a := AnswerSpec(tokens, buffer, store, ttl, controller, context, watsonContext, prepared, inputs);
      var tokenFails := NeedsRefresh(tokens.token, tokens.expiresAt, inputs.now, buffer) && Refresh(inputs.orchestrateIam).Err?;
      var controlled := controller.Some? && Present(Completion(inputs.chatReply));
      var control := ControlOutcome(if controller.Some? then controller.value.tokens else tokens,
                                    controller.Some? && controller.value.enabled,
                                    if Present(Completion(inputs.chatReply)) then Completion(inputs.chatReply).value else "",
                                    inputs.now, inputs.languageIam, inputs.generation).0;
      && (a.outcome.Raised? <==> tokenFails || (controlled && control.Err?))
      && (tokenFails ==> a.outcome == Raised(OrchestrateTokenFailed(Refresh(inputs.orchestrateIam).error)) && a.request == None)
      && (!tokenFails && controlled && control.Err? ==> a.outcome == Raised(LanguageControlFailed(control.error)))
      && (!a.outcome.Raised? ==> a.outcome.Delivered? && (a.outcome.delivery.Sent? <==> Present(Completion(inputs.chatReply))))
  {
  }

  /** A posted request carries the renewed or reused token and the thread id stored for the conversation. */
  lemma AnswerRequest(tokens: TokenState, buffer: real, store: ThreadSessions.Store, ttl: real,
                      controller: Option<ControllerState>, context: ActivityContext, watsonContext: Value,
                      prepared: string, inputs: TurnInputs)
    ensures var a := AnswerSpec(tokens, buffer, store, ttl, controller, context, watsonContext, prepared, inputs);
      var bearer := TokenStep(tokens, inputs.now, buffer, inputs.orchestrateIam).0;
      && (a.request.Some? <==> bearer.Ok?)
      && (bearer.Ok? ==> a.request == Some(ChatRequest(RequestHeaders(bearer.value, Lookup(store, context.conversationId, inputs.now)),
                                                       RequestPayload(prepared, watsonContext))))
      && (bearer.Ok? ==> a.store == SessionAfter(store, context.conversationId, inputs.now, inputs.chatReply, ttl))
      && (bearer.Err? ==> a.store == store)
      && a.orchestratorTokens == TokenStep(tokens, inputs.now, buffer, inputs.orchestrateIam).1
      && (a.request.Some? ==> a.response == Completion(inputs.chatReply))
      && (a.outcome.Delivered? ==>
            a.request.Some? && a.outcome.delivery == Dispatch(LanguageControlled(a.response, controller.Some?, a.controlled)))
  {
  }

  /**
   * The controller hears what the user wrote: its prompt quotes the activity's own
   * message and the locale's fallback language, whatever the message rules made of
   * the text posted to the orchestrator, and it is sent exactly when the
   * orchestrator answered with a truthy reply and the controller is enabled.
   */
  lemma ControllerSeesUserMessage(tokens: TokenState, buffer: real, store: ThreadSessions.Store, ttl: real,
                                  controller: Option<ControllerState>, context: ActivityContext, watsonContext: Value,
                                  prepared: string, inputs: TurnInputs, watsonContext2: Value, prepared2: string)
    ensures var a := AnswerSpec(tokens, buffer, store, ttl, controller, context, watsonContext, prepared, inputs);
      && (a.prompt.Some? <==> a.request.Some? && controller.Some? && controller.value.enabled
                              && Present(Completion(inputs.chatReply)))
      && (a.prompt.Some? ==>
            a.prompt == Some(Prompt(context.message, Completion(inputs.chatReply).value, TargetLanguageFromLocale(context.locale)))
            && a.prompt.value.Text() == BuildLanguageControlPrompt(context.message, Completion(inputs.chatReply).value,
                                                                   TargetLanguageFromLocale(context.locale))
            && StartsWith(a.prompt.value.Text(), PromptHead + context.message + ResponseLabel))
      && a.prompt == AnswerSpec(tokens, buffer, store, ttl, controller, context, watsonContext2, prepared2, inputs).prompt
  {
    AnswerRequest(tokens, buffer, store, ttl, controller, context, watsonContext, prepared, inputs);
    AnswerRequest(tokens, buffer, store, ttl, controller, context, watsonContext2, prepared2, inputs);
  }

  /**
   * Thread continuity across turns: when a turn's reply carries a thread id, the
   * next turn of that conversation before the entry expires sends that id as its
   * thread header, whatever the controller does.
   */
  lemma {:induction false} NextTurnCarriesThread(tokens: TokenState, buffer: real, store: ThreadSessions.Store, ttl: real,
                                                 controller: Option<ControllerState>, context: ActivityContext,
                                                 watsonContext: Value, prepared: string, inputs: TurnInputs,
                                                 controller2: Option<ControllerState>, context2: ActivityContext,
                                                 watsonContext2: Value, prepared2: string, inputs2: TurnInputs)
    requires AnswerSpec(tokens, buffer, store, ttl, controller, context, watsonContext, prepared, inputs).request.Some?
    requires CarriesThread(inputs.chatReply) && inputs2.now < inputs.chatReply.receivedAt + ttl
    requires context2.conversationId == context.conversationId
    ensures var first := AnswerSpec(tokens, buffer, store, ttl, controller, context, watsonContext, prepared, inputs);
      var second := AnswerSpec(first.orchestratorTokens, buffer, first.store, ttl, controller2, context2, watsonContext2,
                               prepared2, inputs2);
      second.request.Some? ==> HeaderValue(second.request.value.headers, ThreadHeader) == inputs.chatReply.threadId
  {
    var first := AnswerSpec(tokens, buffer, store, ttl, controller, context, watsonContext, prepared, inputs);
    AnswerRequest(tokens, buffer, store, ttl, controller, context, watsonContext, prepared, inputs);
    AnswerRequest(first.orchestratorTokens, buffer, first.store, ttl, controller2, context2, watsonContext2, prepared2, inputs2);
    var bearer := TokenStep(first.orchestratorTokens, inputs2.now, buffer, inputs2.orchestrateIam).0;
    if bearer.Ok? {
      ThreadContinuity(store, context.conversationId, inputs.now, inputs.chatReply, ttl, inputs2.now, bearer.value);
    }
  }

  class TeamsWatsonBot {
    const orchestrator: WatsonxOrchestrate
    const rules: seq<Rule>
    const profileService: UserProfileService?
    const languageController: WatsonxAI?

    constructor (orchestrator: WatsonxOrchestrate, rules: seq<Rule>, profileService: UserProfileService?,
                 languageController: WatsonxAI?)
      ensures this.orchestrator == orchestrator && this.rules == rules
      ensures this.profileService == profileService && this.languageController == languageController
    {
      this.orchestrator := orchestrator;
      this.rules := rules;
      this.profileService := profileService;
      this.languageController := languageController;
    }

    /** The orchestrator's token cache. */
    function OrchestratorTokens(): TokenState
      reads orchestrator.tokenManager
    {
      TokenState(orchestrator.tokenManager.token, orchestrator.tokenManager.expiresAt)
    }

    /** The language controller, when one is configured, as a turn sees it. */
    function Controller(): Option<ControllerState>
      reads if languageController != null then {languageController} else {}
    {
      if languageController == null then None
      else Some(ControllerState(languageController.settings.IsEnabled(),
                                TokenState(languageController.token, languageController.expiresAt)))
    }

    /** The language controller's token cache, when one is configured. */
    function ControllerTokens(): Option<TokenState>
      reads if languageController != null then {languageController} else {}
    {
      if languageController == null then None else Some(TokenState(languageController.token, languageController.expiresAt))
    }

    /** `_fetch_user_profile`: no lookup without a profile service or an aad object id. */
    method FetchUserProfile(aadObjectId: string, reply: FetchReply) returns (r: Option<Mapping>)
      modifies if profileService != null then {profileService.store} else {}
      ensures profileService == null || aadObjectId == "" ==> r == None
      ensures profileService != null && aadObjectId != "" ==>
                var lookup := ProfileLookup(old(profileService.store.profiles), aadObjectId, profileService.enabled, reply);
                r == lookup.result && profileService.store.profiles == lookup.profiles
      ensures profileService != null && aadObjectId == "" ==> profileService.store.profiles == old(profileService.store.profiles)
    {
      if profileService == null || aadObjectId == "" {
        return None;
      }
      var fetched;
      r, fetched := profileService.GetUserProfile(aadObjectId, reply);
    }

    /**
     * `_apply_language_control`; `prompt` is the prompt the controller built and `sent`
     * the text it posted to watsonx.ai, once it had a token.
     */
    method ApplyLanguageControl(response: Option<string>, userMessage: string, locale: string,
                                inputs: TurnInputs)
      returns (r: Result<Option<string>, ControlError>, prompt: Option<Prompt>, sent: Option<string>,
               controlled: Option<string>)
      modifies if languageController != null then {languageController} else {}
      ensures !Present(response) || languageController == null ==>
                r == Ok(response) && prompt == None && sent == None && controlled == None
      ensures prompt == ControlPrompt(old(Controller()), response, userMessage, locale)
      ensures sent.Some? <==> languageController != null && prompt.Some?
                              && (CanReuseToken(old(languageController.token), old(languageController.expiresAt), inputs.now)
                                  || Refresh(inputs.languageIam).Ok?)
      ensures sent.Some? ==> prompt.Some? && sent.value == prompt.value.Text()
      ensures (r, controlled, ControllerTokens()) == ControlStage(old(Controller()), response, inputs)
    {
      if !Present(response) {
        return Ok(response), None, None, None;
      }
      if languageController == null {
        return Ok(response), None, None, None;
      }
      var result;
      prompt, sent, result := languageController.ControlLanguageResponse(userMessage, response.value, locale, inputs.now,
                                                                         inputs.languageIam, inputs.generation);
      if result.Err? {
        return Err(result.error), prompt, sent, None;
      }
      controlled := result.value;
      if Present(controlled) {
        r := Ok(controlled);
      } else {
        r := Ok(response);
      }
    }

    /** The part of `handle_turn` before the orchestrator call: context, profile, Watson context, prepared text. */
    method PrepareTurn(activity: Activity, profileReply: FetchReply)
      returns (context: ActivityContext, profile: Option<Mapping>, watsonContext: Value, prepared: string)
      modifies if profileService != null then {profileService.store} else {}
      ensures var initial := FromActivity(activity);
        && (profileService == null || initial.userAadObjectId == "" ==> profile == None)
        && (profileService != null && initial.userAadObjectId != "" ==>
              profile == ProfileLookup(old(profileService.store.profiles), initial.userAadObjectId,
                                       profileService.enabled, profileReply).result)
        && context == MergeProfileData(initial, profile)
        && watsonContext == WatsonContext(context, TeamsSection(context, profile))
        && prepared == FoldRules(rules, context.message, context, profile)
      ensures profileService != null ==>
                profileService.store.profiles == PrepareProfiles(old(profileService.store.profiles), FromActivity(activity).userAadObjectId,
                                                                 profileService.enabled,
                                                                 profileReply)
    {
      var initial := FromActivity(activity);
      ghost var before := if profileService != null then profileService.store.profiles else map[];
      profile := FetchUserProfile(initial.userAadObjectId, profileReply);
      assert profileService != null ==>
               profileService.store.profiles == PrepareProfiles(before, initial.userAadObjectId, profileService.enabled, profileReply);
      context := MergeProfileData(initial, profile);
      watsonContext := ToWatsonContext(context, profile);
      prepared := ApplyMessageRules(rules, context.message, context, profile);
    }

    /**
     * The part of `handle_turn` from the orchestrator call on: ask, control the
     * language, dispatch. `request` is what was posted to the orchestrator.
     */
    method AnswerTurn(context: ActivityContext, watsonContext: Value, prepared: string, inputs: TurnInputs)
      returns (outcome: TurnOutcome, request: Option<ChatRequest>, response: Option<string>, prompt: Option<Prompt>,
               controlled: Option<string>)
      modifies orchestrator.chatSession, orchestrator.tokenManager
      modifies if languageController != null then {languageController} else {}
      ensures outcome != Ignored
      ensures Answer(outcome, request, response, prompt, controlled, orchestrator.chatSession.store, OrchestratorTokens(),
                     ControllerTokens())
              == AnswerSpec(old(OrchestratorTokens()), orchestrator.tokenManager.buffer, old(orchestrator.chatSession.store),
                            orchestrator.chatSession.expireSeconds, old(Controller()), context, watsonContext, prepared, inputs)
    {
      ghost var tokens0 := OrchestratorTokens();
      ghost var store0 := orchestrator.chatSession.store;
      ghost var controller0 := Controller();
      var r;
      request, r := orchestrator.ChatCompletion(context.conversationId, prepared, watsonContext, inputs.now,
                                                inputs.orchestrateIam, inputs.chatReply);
      ghost var chat := ChatOutcome(request, r, orchestrator.chatSession.store, OrchestratorTokens());
      assert Controller() == controller0;
      outcome, response, prompt, controlled := FinishTurn(r, context, inputs);
      assert orchestrator.chatSession.store == chat.store && OrchestratorTokens() == chat.tokens;
      AnswerAssembled(tokens0, orchestrator.tokenManager.buffer, store0, orchestrator.chatSession.expireSeconds, controller0,
                      context, watsonContext, prepared, inputs, chat,
                      Control(outcome, response, prompt, controlled, ControllerTokens()));
    }

    /**
     * The end of `handle_turn`: an orchestrator error propagates; otherwise control
     * the language of the reply with the user's own message and locale, then dispatch it.
     */
    method FinishTurn(reply: Result<Option<string>, TokenError>, context: ActivityContext, inputs: TurnInputs)
      returns (outcome: TurnOutcome, response: Option<string>, prompt: Option<Prompt>, controlled: Option<string>)
      modifies if languageController != null then {languageController} else {}
      ensures outcome != Ignored
      ensures Control(outcome, response, prompt, controlled, ControllerTokens()) == AfterReply(old(Controller()), reply, context, inputs)
    {
      if reply.Err? {
        return Raised(OrchestrateTokenFailed(reply.error)), None, None, None;
      }
      response := reply.value;
      var final, sent;
      final, prompt, sent, controlled := ApplyLanguageControl(response, context.message, context.locale, inputs);
      if final.Err? {
        outcome := Raised(LanguageControlFailed(final.error));
      } else {
        outcome := Delivered(Dispatch(final.value));
      }
    }

    /** `handle_turn` */
    method HandleTurn(activity: Activity, inputs: TurnInputs) returns (outcome: TurnOutcome, trace: Option<TurnTrace>)
      modifies orchestrator.chatSession, orchestrator.tokenManager
      modifies if profileService != null then {profileService.store} else {}
      modifies if languageController != null then {languageController} else {}
      ensures activity.activityType != "message" ==>
                outcome == Ignored && trace == None
                && unchanged(orchestrator.chatSession, orchestrator.tokenManager)
                && (profileService != null ==> unchanged(profileService.store))
                && (languageController != null ==> unchanged(languageController))
      ensures activity.activityType == "message" ==> outcome != Ignored && trace.Some?
      ensures trace.Some? ==>
                var t := trace.value;
                Answer(outcome, t.request, t.response, t.prompt, t.controlled, orchestrator.chatSession.store, OrchestratorTokens(),
                       ControllerTokens())
                == AnswerSpec(old(OrchestratorTokens()), orchestrator.tokenManager.buffer, old(orchestrator.chatSession.store),
                              orchestrator.chatSession.expireSeconds, old(Controller()), t.context, t.watsonContext,
                              t.prepared, inputs)
      ensures activity.activityType == "message" && profileService != null ==>
                profileService.store.profiles == PrepareProfiles(old(profileService.store.profiles), FromActivity(activity).userAadObjectId,
                                                                 profileService.enabled,
                                                                 inputs.profileReply)
      ensures trace.Some? ==>
                var t := trace.value;
                var initial := FromActivity(activity);
                && (profileService == null || initial.userAadObjectId == "" ==> t.profile == None)
                && (profileService != null && initial.userAadObjectId != "" ==>
                      t.profile == ProfileLookup(old(profileService.store.profiles), initial.userAadObjectId,
                                                 profileService.enabled, inputs.profileReply).result)
                && t.context == MergeProfileData(initial, t.profile)
                && t.watsonContext == WatsonContext(t.context, TeamsSection(t.context, t.profile))
                && t.prepared == FoldRules(rules, t.context.message, t.context, t.profile)
    {
      if activity.activityType != "message" {
        return Ignored, None;
      }
      var context, profile, watsonContext, prepared := PrepareTurn(activity, inputs.profileReply);
      assert OrchestratorTokens() == old(OrchestratorTokens()) && orchestrator.chatSession.store == old(orchestrator.chatSession.store);
      assert Controller() == old(Controller());
      var request, response, prompt, controlled;
      outcome, request, response, prompt, controlled := AnswerTurn(context, watsonContext, prepared, inputs);
      trace := Some(TurnTrace(context, profile, watsonContext, prepared, request, response, prompt, controlled));
    }
  }

  /**
   * `_build_bot`: a 900-second thread store, the two configured rules, the profile
   * service only when its settings are enabled, the language controller only when
   * watsonx.ai is configured.
   */
  method BuildBot(profileSettingsEnabled: bool, aiSettings: AiSettings) returns (bot: TeamsWatsonBot)
    ensures fresh(bot) && fresh(bot.orchestrator) && fresh(bot.orchestrator.chatSession) && fresh(bot.orchestrator.tokenManager)
    ensures bot.orchestrator.chatSession.expireSeconds == 900.0 && bot.orchestrator.chatSession.store == map[]
    ensures bot.orchestrator.tokenManager.token == None && bot.orchestrator.tokenManager.buffer == DefaultExpirationBuffer
    ensures bot.rules == ConfiguredRules
    ensures bot.profileService != null <==> profileSettingsEnabled
    ensures bot.profileService != null ==>
              bot.profileService.enabled && fresh(bot.profileService.store) && bot.profileService.store.profiles == map[]
    ensures bot.languageController != null <==> aiSettings.IsEnabled()
    ensures bot.languageController != null ==> bot.languageController.settings == aiSettings && bot.languageController.token == None
  {
    var sessions := new ChatMemorySessionManager(900.0);
    var tokens := new WatsonxTokenManager();
    var orchestrator := new WatsonxOrchestrate(sessions, tokens);
    var store := new ProfileStore();
    var service := new UserProfileService(profileSettingsEnabled, store);
    var controller: WatsonxAI? := null;
    if aiSettings.IsEnabled() {
      controller := new WatsonxAI(aiSettings, aiSettings.apiKey);
    }
    bot := new TeamsWatsonBot(orchestrator, ConfiguredRules, if profileSettingsEnabled then service else null, controller);
  }
}
