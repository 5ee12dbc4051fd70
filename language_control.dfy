/**
 * The post-processing language check (conversation/watsonx_ai.py): a single
 * prompt asks a generation model to return the orchestrator's reply in the
 * language of the user's message, with the locale as fallback. The client keeps
 * its own cached IAM token. The token and generation replies are arguments.
 */
module LanguageControl {
  import opened Wrappers
  import opened Strings
  import opened TokenCache
  import MessageRules

  /** The two settings `is_enabled` looks at. */
  datatype AiSettings = AiSettings(apiKey: string, projectId: string)
  {
    predicate IsEnabled()
    {
      apiKey != "" && projectId != ""
    }
  }

  /**
   * What the generation endpoint gives back: the `generated_text` of each entry
   * of `results` (`None` where an entry has none; `results` itself `None` when
   * the body has no such key), or a request failure of any kind.
   */
  datatype GenerationReply =
    | Generated(results: Option<seq<Option<string>>>)
    | GenerationFailed

  datatype ControlError =
    | IamError(cause: TokenError)   // the token request raised
    | NoResults                     // `results` is an empty list: `[0]` raises `IndexError`

  /** `_get_iam_token` reuses its token only this long before expiry. */
  const ReuseMargin: real := 60.0

  /** `_get_target_language_from_locale`: English for `en…` locales in any case, Spanish for all others. */
  function TargetLanguageFromLocale(locale: string): (r: string)
    ensures r == "English" || r == "Spanish"
    ensures r == "English" <==> StartsWith(Lower(locale), "en")
  {
    if StartsWith(Lower(locale), "en") then "English" else "Spanish"
  }

  const PromptHead := "You are a bilingual (English/Spanish) language validator. Determine the language of the USER MESSAGE (only English or Spanish) and ensure the RESPONSE TO CHECK is returned in that same language.\n\nUSER MESSAGE: "
  const ResponseLabel := "\nRESPONSE TO CHECK: "
  const FallbackLabel := "\nFALLBACK LANGUAGE FROM LOCALE: "
  const PromptTail := "\n\nINSTRUCTIONS:\n"
    + "- Decide if USER MESSAGE is Spanish or English. If unclear, use the FALLBACK LANGUAGE FROM LOCALE.\n"
    + "- If RESPONSE TO CHECK is already in the USER MESSAGE language: return it EXACTLY as provided.\n"
    + "- If RESPONSE TO CHECK is in the other language: translate it to match the USER MESSAGE language.\n"
    + "- Preserve ALL formatting, markdown, emojis, placeholders, variables, and quoted text.\n"
    + "- Return ONLY the final response text.\n"
    + "- NO explanations, NO comments, NO meta-text.\n"
    + "- Do NOT add phrases like \"Here is...\" or \"(The corrected...)\".\n"
    + "- Do NOT explain what you did.\n"
    + "- Do NOT shorten or summarize; keep the full response intact.\n"
    + "\nOUTPUT (response only):"

  /** `_build_language_control_prompt`: the three inputs appear verbatim, each after its label. */
  function BuildLanguageControlPrompt(userMessage: string, response: string, fallbackLanguage: string): (r: string)
    ensures StartsWith(r, PromptHead + userMessage + ResponseLabel)
    ensures Contains(r, ResponseLabel + response + FallbackLabel)
    ensures Contains(r, FallbackLabel + fallbackLanguage + PromptTail)
    ensures EndsWith(r, fallbackLanguage + PromptTail)
  {
    FieldsInPlace(PromptHead, userMessage, ResponseLabel, response, FallbackLabel, fallbackLanguage, PromptTail);
    PromptHead + userMessage + ResponseLabel + response + FallbackLabel + fallbackLanguage + PromptTail
  }

  /** A prompt as `control_language_response` fills it in; `Text()` is what is sent. */
  datatype Prompt = Prompt(userMessage: string, response: string, fallbackLanguage: string)
  {
    function Text(): string
    {
      BuildLanguageControlPrompt(userMessage, response, fallbackLanguage)
    }
  }

  /** Where each field lands in a concatenation of seven pieces, stated over arbitrary pieces. */
  lemma FieldsInPlace(h: string, u: string, rl: string, resp: string, fl: string, f: string, t: string)
    ensures StartsWith(h + u + rl + resp + fl + f + t, h + u + rl)
    ensures Contains(h + u + rl + resp + fl + f + t, rl + resp + fl)
    ensures Contains(h + u + rl + resp + fl + f + t, fl + f + t)
    ensures EndsWith(h + u + rl + resp + fl + f + t, f + t)
  {
    var r := h + u + rl + resp + fl + f + t;
    assert r == (h + u + rl) + (resp + fl + f + t);
    StartsWithConcat(h + u + rl, resp + fl + f + t);
    assert r == (h + u) + (rl + resp + fl) + (f + t);
    ContainsMiddle(h + u, rl + resp + fl, f + t);
    assert r == (h + u + rl + resp) + (fl + f + t) + "";
    ContainsMiddle(h + u + rl + resp, fl + f + t, "");
    assert r == (h + u + rl + resp + fl) + (f + t);
    EndsWithConcat(h + u + rl + resp + fl, f + t);
  }

  /** The result normalisation of `_generate_text`, once a token was obtained. */
  function NormalizeGeneration(reply: GenerationReply): (r: Result<Option<string>, ControlError>)
    ensures reply.GenerationFailed? ==> r == Ok(None)
    ensures reply.Generated? && reply.results.None? ==> r == Ok(None)
    ensures r.Err? <==> reply.Generated? && reply.results == Some([])
    ensures r.Ok? && r.value.Some? ==>
              reply.Generated? && reply.results.Some? && reply.results.value[0].Some?
              && r.value.value == Strip(reply.results.value[0].value) && r.value.value != ""
    ensures reply.Generated? && reply.results.Some? && reply.results.value != [] ==>
              (r == Ok(None) <==> reply.results.value[0].None? || Strip(reply.results.value[0].value) == "")
  {
    match reply
    case GenerationFailed => Ok(None)
    case Generated(results) =>
      var entries := if results.Some? then results.value else [None];
      if entries == [] then Err(NoResults)
      else
        var text := Strip(if entries[0].Some? then entries[0].value else "");
        if text != "" then Ok(Some(text)) else Ok(None)
  }

  /** The reuse test of `_get_iam_token`. */
  predicate CanReuseToken(token: Option<string>, expiresAt: real, now: real)
  {
    !Missing(token) && now < expiresAt - ReuseMargin
  }

  /**
   * The locale instruction rule and this fallback choose the same language exactly
   * for locales starting with `es-` or `en`; for any other locale (`fr-FR`, `""`)
   * the rule asks for English while the fallback is Spanish.
   */
  lemma LocaleChoicesAgreeIff(locale: string)
    ensures (MessageRules.LocaleInstruction("S", "E", locale) == "S") == (TargetLanguageFromLocale(locale) == "Spanish")
            <==> StartsWith(Lower(locale), "es-") || StartsWith(Lower(locale), "en")
  {
    var l := Lower(locale);
    if StartsWith(l, "es-") {
      assert l[..3][1] == 's';
      assert l[..2][1] == l[1];
    }
  }

  /**
   * One `control_language_response` call on a controller whose token cache is `s`:
   * the result and the cache it leaves. A disabled controller returns the reply as
   * given; an enabled one needs a token (reused or renewed), then normalises the
   * generation reply.
   */
  function ControlOutcome(s: TokenState, enabled: bool, response: string, now: real, iam: IamReply,
                          generation: GenerationReply): (Result<Option<string>, ControlError>, TokenState)
  {
    if !enabled then (Ok(Some(response)), s)
    else if CanReuseToken(s.token, s.expiresAt, now) then (NormalizeGeneration(generation), s)
    else match Refresh(iam)
      case Err(e) => (Err(IamError(e)), s)
      case Ok((token, expiresAt)) => (NormalizeGeneration(generation), TokenState(Some(token), expiresAt))
  }

  /**
   * The controller raises exactly when it is enabled and either its token renewal
   * fails or the generation reply has an empty `results` list, and the error says
   * which; a failed renewal leaves the token cache as it was, while a token renewed
   * before an `IndexError` is kept.
   */
  lemma ControlFailsIff(s: TokenState, enabled: bool, response: string, now: real, iam: IamReply,
                        generation: GenerationReply)
    ensures var (r, s') := ControlOutcome(s, enabled, response, now, iam, generation);
      && (r.Err? <==> enabled && ((!CanReuseToken(s.token, s.expiresAt, now) && Refresh(iam).Err?)
                                  || (generation.Generated? && generation.results == Some([]))))
      && (r.Err? && !CanReuseToken(s.token, s.expiresAt, now) && Refresh(iam).Err? ==> r == Err(IamError(Refresh(iam).error)))
      && (r.Err? && (CanReuseToken(s.token, s.expiresAt, now) || Refresh(iam).Ok?) ==> r == Err(NoResults))
      && (Refresh(iam).Err? ==> s' == s)
  {
  }

  /**
   * The controller's cache follows the orchestrator cache's rule with a 60-second
   * buffer: it reuses a token exactly when that cache would, and is left as that
   * cache's `get_token` leaves it, even when the generation then raises.
   */
  lemma ControlTokenFollowsCacheRule(s: TokenState, response: string, now: real, iam: IamReply,
                                     generation: GenerationReply)
    ensures CanReuseToken(s.token, s.expiresAt, now) <==> !NeedsRefresh(s.token, s.expiresAt, now, DefaultExpirationBuffer)
    ensures ControlOutcome(s, true, response, now, iam, generation).0.Err? && Refresh(iam).Ok? && !CanReuseToken(s.token, s.expiresAt, now)
            ==> ControlOutcome(s, true, response, now, iam, generation).1 == TokenState(Some(Refresh(iam).value.0), Refresh(iam).value.1)
    ensures ControlOutcome(s, true, response, now, iam, generation).1 == TokenStep(s, now, DefaultExpirationBuffer, iam).1
  {
  }

  class WatsonxAI {
    const settings: AiSettings
    const apiKey: string
    var token: Option<string>
    var expiresAt: real

    constructor (settings: AiSettings, apiKey: string)
      ensures this.settings == settings && this.apiKey == apiKey && token == None && expiresAt == 0.0
    {
      this.settings := settings;
      this.apiKey := apiKey;
      token := None;
      expiresAt := 0.0;
    }

    /** `_get_iam_token`: reuse the token until 60 seconds before expiry, otherwise request one. */
    method GetIamToken(now: real, reply: IamReply) returns (r: Result<string, TokenError>)
      modifies this
      ensures CanReuseToken(old(token), old(expiresAt), now) ==>
                r == Ok(old(token).value) && token == old(token) && expiresAt == old(expiresAt)
      ensures !CanReuseToken(old(token), old(expiresAt), now) && Refresh(reply).Err? ==>
                r == Err(Refresh(reply).error) && token == old(token) && expiresAt == old(expiresAt)
      ensures !CanReuseToken(old(token), old(expiresAt), now) && Refresh(reply).Ok? ==>
                r == Ok(Refresh(reply).value.0) && token == Some(Refresh(reply).value.0) && expiresAt == Refresh(reply).value.1
    {
      if !Missing(token) && now < expiresAt - ReuseMargin {
        return Ok(token.value);
      }
      match reply
      case IamRequestFailed =>
        return Err(TokenRequestFailed);
      case IamGranted(accessToken, expiresIn, receivedAt) =>
        if accessToken.None? {
          return Err(MissingAccessToken);
        }
        token := Some(accessToken.value);
        var lifetime := if expiresIn.Some? then expiresIn.value else DefaultExpiresIn;
        expiresAt := receivedAt + lifetime;
        return Ok(token.value);
    }

    /**
     * `_generate_text`: a token first (its failure propagates, and nothing is posted),
     * then the request whose `input` is `prompt`, then the normalised generation.
     * `sent` is the `input` of the posted request.
     */
    method GenerateText(prompt: string, now: real, iam: IamReply, generation: GenerationReply)
      returns (sent: Option<string>, r: Result<Option<string>, ControlError>)
      modifies this
      ensures sent.Some? <==> CanReuseToken(old(token), old(expiresAt), now) || Refresh(iam).Ok?
      ensures sent.Some? ==> sent.value == prompt
      ensures !CanReuseToken(old(token), old(expiresAt), now) && Refresh(iam).Err? ==>
                r == Err(IamError(Refresh(iam).error)) && token == old(token) && expiresAt == old(expiresAt)
      ensures CanReuseToken(old(token), old(expiresAt), now) || Refresh(iam).Ok? ==> r == NormalizeGeneration(generation)
      ensures CanReuseToken(old(token), old(expiresAt), now) ==> token == old(token) && expiresAt == old(expiresAt)
      ensures !CanReuseToken(old(token), old(expiresAt), now) && Refresh(iam).Ok? ==>
                token == Some(Refresh(iam).value.0) && expiresAt == Refresh(iam).value.1
    {
      var bearer := GetIamToken(now, iam);
      if bearer.Err? {
        return None, Err(IamError(bearer.error));
      }
      sent := Some(prompt);
      match generation
      case GenerationFailed =>
        return sent, Ok(None);
      case Generated(results) =>
        var entries := if results.Some? then results.value else [None];
        if entries == [] {
          return sent, Err(NoResults);
        }
        var generatedText := Strip(if entries[0].Some? then entries[0].value else "");
        if generatedText != "" {
          return sent, Ok(Some(generatedText));
        }
        return sent, Ok(None);
    }

    /**
     * `control_language_response`: when disabled, the reply is returned as given and no
     * prompt is built or sent; otherwise the prompt carries the locale's fallback language,
     * and its text is what is posted once a token is available.
     */
    method ControlLanguageResponse(userMessage: string, response: string, locale: string, now: real,
                                   iam: IamReply, generation: GenerationReply)
      returns (prompt: Option<Prompt>, sent: Option<string>, r: Result<Option<string>, ControlError>)
      modifies this
      ensures !settings.IsEnabled() ==>
                prompt == None && sent == None && r == Ok(Some(response)) && token == old(token) && expiresAt == old(expiresAt)
      ensures settings.IsEnabled() ==>
                prompt == Some(Prompt(userMessage, response, TargetLanguageFromLocale(locale)))
      ensures sent.Some? <==> settings.IsEnabled() && (CanReuseToken(old(token), old(expiresAt), now) || Refresh(iam).Ok?)
      ensures sent.Some? ==> prompt.Some? && sent.value == prompt.value.Text()
      ensures settings.IsEnabled() && (CanReuseToken(old(token), old(expiresAt), now) || Refresh(iam).Ok?) ==>
                r == NormalizeGeneration(generation)
      ensures settings.IsEnabled() && !CanReuseToken(old(token), old(expiresAt), now) && Refresh(iam).Err? ==>
                r == Err(IamError(Refresh(iam).error)) && token == old(token) && expiresAt == old(expiresAt)
      ensures settings.IsEnabled() && !CanReuseToken(old(token), old(expiresAt), now) && Refresh(iam).Ok? ==>
                token == Some(Refresh(iam).value.0) && expiresAt == Refresh(iam).value.1
      ensures CanReuseToken(old(token), old(expiresAt), now) ==> token == old(token) && expiresAt == old(expiresAt)
      ensures (r, TokenState(token, expiresAt))
              == ControlOutcome(TokenState(old(token), old(expiresAt)), settings.IsEnabled(), response, now, iam, generation)
    {
      if !settings.IsEnabled() {
        return None, None, Ok(Some(response));
      }
      var fallbackLanguage := TargetLanguageFromLocale(locale);
      var built := Prompt(userMessage, response, fallbackLanguage);
      prompt := Some(built);
      sent, r := GenerateText(built.Text(), now, iam, generation);
    }
  }
}
