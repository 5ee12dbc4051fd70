/**
 * The rules that rewrite the outgoing user message before it reaches the
 * orchestrator (services/message_rules.py). Each rule looks for its own marker
 * first, so applying a rule to its own output changes nothing.
 */
module MessageRules {
  import opened Wrappers
  import opened Strings
  import opened Values
  import opened ContextBuilder

  /** The three `MessageRule` implementations, with their constructor arguments. */
  datatype Rule =
    | LocaleResponse(spanishInstruction: string, englishInstruction: string)
    | UserInputLabel(labelText: string)
    | ArgumentsPrefix

  const DefaultSpanishInstruction := "ALWAYS respond in Spanish. NEVER use Markdown table formats to reply."
  const DefaultEnglishInstruction := "ALWAYS respond in English. NEVER use Markdown table formats to reply."
  const DefaultLabel := "USER_INPUT"

  const ArgumentEmailKeys := ["mail", "email", "userPrincipalName", "primaryEmail"]
  const ArgumentPhoneKeys := ["mobilePhone", "mobile_phone", "mobile", "businessPhones", "phone", "telephoneNumber"]

  // ---------------------------------------------------------------------------
  // LocaleResponseRule

  /** The instruction `LocaleResponseRule` appends for a locale. */
  function LocaleInstruction(spanish: string, english: string, locale: string): (r: string)
    ensures StartsWith(Lower(locale), "es-") ==> r == spanish
    ensures !StartsWith(Lower(locale), "es-") ==> r == english
  {
    if StartsWith(Lower(locale), "es-") then spanish else english
  }

  /** `LocaleResponseRule.apply` */
  function LocaleApply(spanish: string, english: string, message: string, context: ActivityContext): (r: string)
    ensures var instruction := LocaleInstruction(spanish, english, context.locale);
      && (Contains(message, instruction) ==> r == message)
      && (!Contains(message, instruction) && message == "" ==> r == instruction)
      && (!Contains(message, instruction) && message != "" ==> r == message + "\n\n" + instruction)
      && StartsWith(r, message)
      && Contains(r, instruction)
  {
    var instruction := LocaleInstruction(spanish, english, context.locale);
    if Contains(message, instruction) then message
    else
      var separator := if message != "" then "\n\n" else "";
      var r := message + separator + instruction;
      assert r == message + (separator + instruction);
      StartsWithConcat(message, separator + instruction);
      ContainsSuffix(message + separator, instruction);
      r
  }

  // ---------------------------------------------------------------------------
  // UserInputLabelRule

  function LabelPrefix(labelText: string): string
  {
    labelText + ": "
  }

  /** `UserInputLabelRule.apply` */
  function LabelApply(labelText: string, message: string): (r: string)
    ensures message == "" ==> r == ""
    ensures StartsWith(message, LabelPrefix(labelText)) ==> r == message
    ensures message != "" && !StartsWith(message, LabelPrefix(labelText)) ==> r == LabelPrefix(labelText) + "'" + message + "'"
    ensures message != "" ==> StartsWith(r, LabelPrefix(labelText))
  {
    if message == "" then message
    else if StartsWith(message, LabelPrefix(labelText)) then message
    else
      var r := LabelPrefix(labelText) + "'" + message + "'";
      assert r == LabelPrefix(labelText) + ("'" + message + "'");
      StartsWithConcat(LabelPrefix(labelText), "'" + message + "'");
      r
  }

  // ---------------------------------------------------------------------------
  // ArgumentsPrefixRule._extract_first

  /** `next((item for item in items if item), None)` */
  function FirstTruthyItem(items: seq<Value>): (r: Option<Value>)
    ensures r.None? <==> forall i :: 0 <= i < |items| ==> !Truthy(items[i])
    ensures r.Some? ==> Truthy(r.value)
  {
    if items == [] then None
    else if Truthy(items[0]) then Some(items[0])
    else
      var r := FirstTruthyItem(items[1..]);
      assert forall i :: 1 <= i < |items| ==> items[1..][i - 1] == items[i];
      r
  }

  /** `next((str(v) for v in d.values() if v), None)` */
  function FirstTruthyValue(entries: Mapping): (r: Option<Value>)
    ensures r.None? <==> forall i :: 0 <= i < |entries| ==> !Truthy(entries[i].1)
    ensures r.Some? ==> r.value.Str? && Truthy(r.value)
  {
    if entries == [] then None
    else if Truthy(entries[0].1) then Some(Str(ToStr(entries[0].1)))
    else
      var r := FirstTruthyValue(entries[1..]);
      assert forall i :: 1 <= i < |entries| ==> entries[1..][i - 1] == entries[i];
      r
  }

  /** What `_extract_first(profile, keys)` returns: the first deciding key decides, possibly with `None`. */
  function FirstFromProfile(profile: Mapping, keys: seq<string>): (r: Option<Value>)
    ensures r.Some? ==> Truthy(r.value)
  {
    if keys == [] then None
    else if Decides(profile, keys[0]) then
      var v := Get(profile, keys[0]).value;
      if v.List? then FirstTruthyItem(v.items)
      else if v.Dict? then FirstTruthyValue(v.entries)
      else Some(Str(ToStr(v)))
    else FirstFromProfile(profile, keys[1..])
  }

  /** `_extract_first` */
  method ExtractFirst(profile: Mapping, keys: seq<string>) returns (r: Option<Value>)
    ensures r == FirstFromProfile(profile, keys)
  {
    var i := 0;
    while i < |keys|
      invariant 0 <= i <= |keys|
      invariant FirstFromProfile(profile, keys) == FirstFromProfile(profile, keys[i..])
    {
      assert keys[i..][1..] == keys[i + 1..];
      var found := Get(profile, keys[i]);
      if found.Some? {
        var value := found.value;
        if value.List? {
          return FirstTruthyItem(value.items);
        }
        if value.Dict? {
          return FirstTruthyValue(value.entries);
        }
        if Truthy(value) {
          return Some(Str(ToStr(value)));
        }
      }
      i := i + 1;
    }
    return None;
  }

  /**
   * `_extract_first` and the context builder's `_extract_from_mapping` stop at the
   * same key and agree once their results are printed.
   */
  lemma {:induction false} ExtractorsAgree(profile: Mapping, keys: seq<string>)
    ensures FromMapping(profile, keys) == match FirstFromProfile(profile, keys) case None => "" case Some(v) => ToStr(v)
  {
    if keys != [] {
      if Decides(profile, keys[0]) {
        var v := Get(profile, keys[0]).value;
        if v.List? {
          FirstItemsAgree(v.items);
        } else if v.Dict? {
          FirstValuesAgree(v.entries);
        }
      } else {
        ExtractorsAgree(profile, keys[1..]);
      }
    }
  }

  lemma {:induction false} FirstItemsAgree(items: seq<Value>)
    ensures FirstTruthyStr(items) == match FirstTruthyItem(items) case None => "" case Some(v) => ToStr(v)
  {
    if items != [] && !Truthy(items[0]) {
      FirstItemsAgree(items[1..]);
    }
  }

  lemma {:induction false} FirstValuesAgree(entries: Mapping)
    ensures FirstTruthyStr(ValuesOf(entries)) == match FirstTruthyValue(entries) case None => "" case Some(v) => ToStr(v)
  {
    if entries != [] && !Truthy(entries[0].1) {
      assert ValuesOf(entries)[1..] == ValuesOf(entries[1..]);
      FirstValuesAgree(entries[1..]);
    }
  }

  // ---------------------------------------------------------------------------
  // ArgumentsPrefixRule._build_prefix

  /** `context.<field> or _extract_first(profile, keys)`, with a missing result as `None`. */
  function IdentityValue(contextValue: string, profile: Mapping, keys: seq<string>): Value
  {
    if contextValue != "" then Str(contextValue)
    else match FirstFromProfile(profile, keys)
      case Some(v) => v
      case None => Null
  }

  function Argument(key: string, v: Value): string
  {
    key + ":'" + ToStr(v) + "'"
  }

  /** `profile or {}` */
  function OrEmpty(profile: Option<Mapping>): Mapping
  {
    if profile.Some? then profile.value else []
  }

  /** The `parts` list: the present identity fields, email, then aad object id, then phone. */
  function PrefixParts(context: ActivityContext, profile: Option<Mapping>): seq<string>
  {
    var p := OrEmpty(profile);
    var email := IdentityValue(context.userEmail, p, ArgumentEmailKeys);
    var phone := IdentityValue(context.userPhone, p, ArgumentPhoneKeys);
    var aad := Str(context.userAadObjectId);
    (if Truthy(email) then [Argument("email", email)] else [])
      + (if Truthy(aad) then [Argument("aad_object_id", aad)] else [])
      + (if Truthy(phone) then [Argument("phone", phone)] else [])
  }

  /** What `_build_prefix` returns. */
  function Prefix(context: ActivityContext, profile: Option<Mapping>): string
  {
    RStrip(Join("\n", PrefixParts(context, profile)))
  }

  /** `_build_prefix` */
  method BuildPrefix(context: ActivityContext, profile: Option<Mapping>) returns (r: string)
    ensures r == Prefix(context, profile)
  {
    var p := OrEmpty(profile);
    var email := Str(context.userEmail);
    if context.userEmail == "" {
      var extracted := ExtractFirst(p, ArgumentEmailKeys);
      email := if extracted.Some? then extracted.value else Null;
    }
    var phone := Str(context.userPhone);
    if context.userPhone == "" {
      var extracted := ExtractFirst(p, ArgumentPhoneKeys);
      phone := if extracted.Some? then extracted.value else Null;
    }
    var aad := Str(context.userAadObjectId);
    var parts: seq<string> := [];
    if Truthy(email) {
      parts := parts + [Argument("email", email)];
    }
    if Truthy(aad) {
      parts := parts + [Argument("aad_object_id", aad)];
    }
    if Truthy(phone) {
      parts := parts + [Argument("phone", phone)];
    }
    assert email == IdentityValue(context.userEmail, p, ArgumentEmailKeys);
    assert phone == IdentityValue(context.userPhone, p, ArgumentPhoneKeys);
    assert parts == PrefixParts(context, profile);
    var arguments := Join("\n", parts);
    r := RStrip(arguments);
  }

  /** Every part ends in a quote, so the final `rstrip` never removes anything. */
  lemma PrefixIsJoinedParts(context: ActivityContext, profile: Option<Mapping>)
    ensures Prefix(context, profile) == Join("\n", PrefixParts(context, profile))
  {
    var parts := PrefixParts(context, profile);
    if parts != [] {
      var last := parts[|parts| - 1];
      assert last != [] && last[|last| - 1] == '\'';
      JoinEndsWithLast("\n", parts);
    }
  }

  /** The prefix is empty exactly when no identity field is known. */
  lemma PrefixEmptyIff(context: ActivityContext, profile: Option<Mapping>)
    ensures var p := OrEmpty(profile);
      Prefix(context, profile) == "" <==>
        && !Truthy(IdentityValue(context.userEmail, p, ArgumentEmailKeys))
        && context.userAadObjectId == ""
        && !Truthy(IdentityValue(context.userPhone, p, ArgumentPhoneKeys))
  {
    PrefixIsJoinedParts(context, profile);
    var parts := PrefixParts(context, profile);
    assert forall i :: 0 <= i < |parts| ==> parts[i] != [];
    JoinEmptyIff("\n", parts);
  }

  /** A known context email leads the block and overrides anything in the profile. */
  lemma ContextEmailLeads(context: ActivityContext, profile: Option<Mapping>)
    requires context.userEmail != ""
    ensures StartsWith(Prefix(context, profile), "email:'" + context.userEmail + "'")
  {
    var parts := PrefixParts(context, profile);
    assert IdentityValue(context.userEmail, OrEmpty(profile), ArgumentEmailKeys) == Str(context.userEmail);
    assert parts[0] == Argument("email", Str(context.userEmail)) == "email:'" + context.userEmail + "'";
    PrefixIsJoinedParts(context, profile);
    JoinStartsWithFirst("\n", parts);
  }

  /** With email and phone known from the context, the profile has no say in the block. */
  lemma ContextFieldsOverrideProfile(context: ActivityContext, p1: Option<Mapping>, p2: Option<Mapping>)
    requires context.userEmail != "" && context.userPhone != ""
    ensures Prefix(context, p1) == Prefix(context, p2)
  {
  }

  /**
   * Once the context has been merged with the profile (as the turn does before the
   * rules run), the profile adds nothing more to the block.
   */
  lemma MergedContextMakesProfileRedundant(context: ActivityContext, profile: Option<Mapping>)
    ensures var merged := MergeProfileData(context, profile);
      Prefix(merged, profile) == Prefix(merged, None)
  {
    var merged := MergeProfileData(context, profile);
    var p := OrEmpty(profile);
    if p != [] {
      MergedFieldRedundant(context.userEmail, merged.userEmail, p, ArgumentEmailKeys);
      MergedFieldRedundant(context.userPhone, merged.userPhone, p, ArgumentPhoneKeys);
      assert PrefixParts(merged, profile) == PrefixParts(merged, None);
    }
  }

  /** One identity field: after the merge, probing the profile again yields what probing nothing yields. */
  lemma MergedFieldRedundant(original: string, merged: string, p: Mapping, keys: seq<string>)
    requires merged == if original != "" then original else FromMapping(p, keys)
    ensures IdentityValue(merged, p, keys) == IdentityValue(merged, [], keys)
  {
    FirstFromEmptyProfile(keys);
    if merged == "" {
      ExtractorsAgree(p, keys);
      ToStrEmptyOnlyForEmpty(FirstFromProfile(p, keys));
    }
  }

  lemma {:induction false} FirstFromEmptyProfile(keys: seq<string>)
    ensures FirstFromProfile([], keys) == None
  {
    if keys != [] {
      assert !Decides([], keys[0]);
      FirstFromEmptyProfile(keys[1..]);
    }
  }

  lemma ToStrEmptyOnlyForEmpty(o: Option<Value>)
    requires o.Some? ==> Truthy(o.value)
    ensures (match o case None => "" case Some(v) => ToStr(v)) == "" ==> o.None?
  {
  }

  // ---------------------------------------------------------------------------
  // ArgumentsPrefixRule.apply

  /** `ArgumentsPrefixRule.apply`, once the prefix is built. */
  function PrefixApply(prefix: string, message: string): (r: string)
    ensures StartsWith(r, prefix)
    ensures StartsWith(message, prefix) ==> r == message
    ensures !StartsWith(message, prefix) && message == "" ==> r == prefix
    ensures !StartsWith(message, prefix) && message != "" ==> r == prefix + "\n\n" + message
  {
    if StartsWith(message, prefix) then message
    else
      var separator := if message != "" then "\n\n" else "";
      var r := prefix + separator + message;
      assert r == prefix + (separator + message);
      StartsWithConcat(prefix, separator + message);
      r
  }

  // ---------------------------------------------------------------------------
  // Application of one rule

  /** `rule.apply(message, context, profile)` */
  function ApplySpec(rule: Rule, message: string, context: ActivityContext, profile: Option<Mapping>): string
  {
    match rule
    case LocaleResponse(spanish, english) => LocaleApply(spanish, english, message, context)
    case UserInputLabel(labelText) => LabelApply(labelText, message)
    case ArgumentsPrefix => PrefixApply(Prefix(context, profile), message)
  }

  /** The polymorphic `MessageRule.apply`. */
  method ApplyRule(rule: Rule, message: string, context: ActivityContext, profile: Option<Mapping>) returns (r: string)
    ensures r == ApplySpec(rule, message, context, profile)
  {
    match rule
    case LocaleResponse(spanish, english) =>
      r := LocaleApply(spanish, english, message, context);
    case UserInputLabel(labelText) =>
      r := LabelApply(labelText, message);
    case ArgumentsPrefix =>
      var prefix := BuildPrefix(context, profile);
      r := PrefixApply(prefix, message);
  }

  /** Each rule is idempotent: its output already carries its marker. */
  lemma RuleIdempotent(rule: Rule, message: string, context: ActivityContext, profile: Option<Mapping>)
    ensures var once := ApplySpec(rule, message, context, profile);
      ApplySpec(rule, once, context, profile) == once
  {
    match rule
    case LocaleResponse(spanish, english) =>
    case UserInputLabel(labelText) =>
    case ArgumentsPrefix =>
  }
}
