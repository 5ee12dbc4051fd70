/**
 * Turning a Bot Framework activity into the adapter's immutable activity context,
 * merging cached profile data into it, and building the context payload sent to
 * the orchestrator (services/context_builder.py).
 */
module ContextBuilder {
  import opened Wrappers
  import opened Strings
  import opened Values

  /** The frozen per-turn record. */
  datatype ActivityContext = ActivityContext(
    conversationId: string,
    userName: string,
    userId: string,
    userAadObjectId: string,
    userEmail: string,
    userPhone: string,
    locale: string,
    message: string)

  /**
   * The sender of an activity. `attributes` holds what `getattr` can find on the
   * account object; `additionalProperties` and `properties` are the two
   * auxiliary attributes (`Null` when the account has none).
   */
  datatype Account = Account(
    name: string,
    id: string,
    aadObjectId: string,
    attributes: Mapping,
    additionalProperties: Value,
    properties: Value)

  datatype Activity = Activity(
    activityType: string,
    conversationId: string,
    sender: Account,
    locale: Option<string>,
    text: Option<string>)

  const DefaultLocale := "es-ES"
  const AccountEmailKeys := ["email", "mail", "userPrincipalName", "primaryEmail"]
  const AccountPhoneKeys := ["mobilePhone", "mobile_phone", "phone", "telephoneNumber"]
  const ProfileEmailKeys := ["mail", "email", "userPrincipalName", "primaryEmail"]
  const ProfilePhoneKeys := ["mobilePhone", "mobile_phone", "mobile", "businessPhones", "phone", "telephoneNumber"]

  // ---------------------------------------------------------------------------
  // Unwrapping list and dict values

  /** `next((str(item) for item in items if item), "")` */
  function FirstTruthyStr(items: seq<Value>): (r: string)
    ensures r == "" <==> forall i :: 0 <= i < |items| ==> !Truthy(items[i])
    ensures forall i :: 0 <= i < |items| && Truthy(items[i]) && (forall j :: 0 <= j < i ==> !Truthy(items[j]))
                        ==> r == ToStr(items[i])
  {
    if items == [] then ""
    else if Truthy(items[0]) then ToStr(items[0])
    else
      var r := FirstTruthyStr(items[1..]);
      assert forall i :: 1 <= i < |items| ==> items[1..][i - 1] == items[i];
      r
  }

  /** `d.values()` */
  function ValuesOf(m: Mapping): (r: seq<Value>)
    ensures |r| == |m| && forall i :: 0 <= i < |m| ==> r[i] == m[i].1
  {
    seq(|m|, i requires 0 <= i < |m| => m[i].1)
  }

  /** The inner `_coerce` of `_extract_contact_value`. */
  function Coerce(v: Value): (r: string)
    ensures v.Null? ==> r == ""
    ensures !v.List? && !v.Null? ==> r == ToStr(v)
    ensures v.List? ==> (r == "" <==> forall i :: 0 <= i < |v.items| ==> !Truthy(v.items[i]))
    ensures v.List? ==> forall i :: 0 <= i < |v.items| && Truthy(v.items[i]) && (forall j :: 0 <= j < i ==> !Truthy(v.items[j]))
                                    ==> r == ToStr(v.items[i])
  {
    match v
    case List(items) => FirstTruthyStr(items)
    case Null => ""
    case _ => ToStr(v)
  }

  /** A value `_extract_contact_value` accepts: truthy, and still non-empty once coerced. */
  predicate Usable(v: Value)
  {
    Truthy(v) && Coerce(v) != ""
  }

  // ---------------------------------------------------------------------------
  // _extract_contact_value

  /** Probe `keys` in order on one attribute source; the first usable value wins. */
  function Probe(source: Mapping, keys: seq<string>): (r: string)
    ensures r == "" <==> forall i :: 0 <= i < |keys| ==> !Usable(GetOrNull(source, keys[i]))
    ensures forall i :: 0 <= i < |keys| && Usable(GetOrNull(source, keys[i]))
                        && (forall j :: 0 <= j < i ==> !Usable(GetOrNull(source, keys[j])))
                        ==> r == Coerce(GetOrNull(source, keys[i]))
  {
    if keys == [] then ""
    else if Usable(GetOrNull(source, keys[0])) then Coerce(GetOrNull(source, keys[0]))
    else
      var r := Probe(source, keys[1..]);
      assert forall i :: 1 <= i < |keys| ==> keys[1..][i - 1] == keys[i];
      r
  }

  /** `additional_properties or properties`, when that is a dict. */
  function AuxiliaryProperties(account: Account): Option<Mapping>
  {
    var props := if Truthy(account.additionalProperties) then account.additionalProperties else account.properties;
    if props.Dict? then Some(props.entries) else None
  }

  /** What `_extract_contact_value(account, keys)` returns. */
  function ContactValue(account: Option<Account>, keys: seq<string>): (r: string)
  {
    if account.None? then ""
    else
      var fromAttributes := Probe(account.value.attributes, keys);
      if fromAttributes != "" then fromAttributes
      else match AuxiliaryProperties(account.value)
        case Some(props) => Probe(props, keys)
        case None => ""
  }

  /** `_extract_contact_value`: probe the account's attributes, then its auxiliary properties map. */
  method ExtractContactValue(account: Option<Account>, keys: seq<string>) returns (r: string)
    ensures r == ContactValue(account, keys)
    ensures account.None? ==> r == ""
    ensures account.Some? && Probe(account.value.attributes, keys) != "" ==> r == Probe(account.value.attributes, keys)
  {
    if account.None? {
      return "";
    }
    var acc := account.value;
    var i := 0;
    while i < |keys|
      invariant 0 <= i <= |keys|
      invariant Probe(acc.attributes, keys) == Probe(acc.attributes, keys[i..])
    {
      var value := GetOrNull(acc.attributes, keys[i]);
      if Truthy(value) {
        var coerced := Coerce(value);
        if coerced != "" {
          return coerced;
        }
      }
      assert keys[i..][1..] == keys[i + 1..];
      i := i + 1;
    }
    var props := AuxiliaryProperties(acc);
    if props.Some? {
      var j := 0;
      while j < |keys|
        invariant 0 <= j <= |keys|
        invariant Probe(props.value, keys) == Probe(props.value, keys[j..])
      {
        var value := GetOrNull(props.value, keys[j]);
        if Truthy(value) {
          var coerced := Coerce(value);
          if coerced != "" {
            return coerced;
          }
        }
        assert keys[j..][1..] == keys[j + 1..];
        j := j + 1;
      }
    }
    return "";
  }

  // ---------------------------------------------------------------------------
  // _extract_from_mapping

  /** A present key whose value stops `_extract_from_mapping`: any list or dict, or a truthy scalar. */
  predicate Decides(data: Mapping, key: string)
  {
    match Get(data, key)
    case None => false
    case Some(v) => v.List? || v.Dict? || Truthy(v)
  }

  /** The string a deciding value yields. */
  function Unwrap(v: Value): string
  {
    match v
    case List(items) => FirstTruthyStr(items)
    case Dict(entries) => FirstTruthyStr(ValuesOf(entries))
    case _ => ToStr(v)
  }

  /** What `_extract_from_mapping(data, keys)` returns: the first deciding key decides, even with `""`. */
  function FromMapping(data: Mapping, keys: seq<string>): string
  {
    if keys == [] then ""
    else if Decides(data, keys[0]) then Unwrap(Get(data, keys[0]).value)
    else FromMapping(data, keys[1..])
  }

  /** With no deciding key the result is `""`. */
  lemma {:induction false} FromMappingNoneDecides(data: Mapping, keys: seq<string>)
    requires forall i :: 0 <= i < |keys| ==> !Decides(data, keys[i])
    ensures FromMapping(data, keys) == ""
  {
    if keys != [] {
      assert forall i :: 0 <= i < |keys| - 1 ==> keys[1..][i] == keys[i + 1];
      FromMappingNoneDecides(data, keys[1..]);
    }
  }

  /** The first deciding key gives the result, even when it unwraps to `""`. */
  lemma {:induction false} FromMappingFirstDecides(data: Mapping, keys: seq<string>, i: nat)
    requires i < |keys| && Decides(data, keys[i])
    requires forall j :: 0 <= j < i ==> !Decides(data, keys[j])
    ensures FromMapping(data, keys) == Unwrap(Get(data, keys[i]).value)
  {
    if i > 0 {
      assert forall j :: 0 <= j < |keys| - 1 ==> keys[1..][j] == keys[j + 1];
      FromMappingFirstDecides(data, keys[1..], i - 1);
    }
  }

  /** `_extract_from_mapping` */
  method ExtractFromMapping(data: Mapping, keys: seq<string>) returns (r: string)
    ensures r == FromMapping(data, keys)
  {
    var i := 0;
    while i < |keys|
      invariant 0 <= i <= |keys|
      invariant FromMapping(data, keys) == FromMapping(data, keys[i..])
    {
      var found := Get(data, keys[i]);
      assert keys[i..][1..] == keys[i + 1..];
      if found.Some? {
        var value := found.value;
        if value.List? {
          return FirstTruthyStr(value.items);
        }
        if value.Dict? {
          return FirstTruthyStr(ValuesOf(value.entries));
        }
        if Truthy(value) {
          return ToStr(value);
        }
      }
      i := i + 1;
    }
    return "";
  }

  lemma EmptyListStopsSearch()
    ensures FromMapping([("businessPhones", List([])), ("phone", Str("555"))], ProfilePhoneKeys) == ""
  {
    var data: Mapping := [("businessPhones", List([])), ("phone", Str("555"))];
    assert Get(data, "businessPhones") == Some(List([]));
    assert Decides(data, ProfilePhoneKeys[3]);
    assert forall j :: 0 <= j < 3 ==> !HasKey(data, ProfilePhoneKeys[j]);
  }

  // ---------------------------------------------------------------------------
  // from_activity, merge_profile_data

  function FromActivity(activity: Activity): (r: ActivityContext)
    ensures r.locale != ""
    ensures Present(activity.locale) ==> r.locale == activity.locale.value
    ensures !Present(activity.locale) ==> r.locale == DefaultLocale
    ensures Present(activity.text) ==> r.message == activity.text.value
    ensures !Present(activity.text) ==> r.message == ""
    ensures r.conversationId == activity.conversationId
    ensures r.userName == activity.sender.name && r.userId == activity.sender.id
    ensures r.userAadObjectId == activity.sender.aadObjectId
    ensures r.userEmail == ContactValue(Some(activity.sender), AccountEmailKeys)
    ensures r.userPhone == ContactValue(Some(activity.sender), AccountPhoneKeys)
  {
    ActivityContext(
      activity.conversationId,
      activity.sender.name,
      activity.sender.id,
      activity.sender.aadObjectId,
      ContactValue(Some(activity.sender), AccountEmailKeys),
      ContactValue(Some(activity.sender), AccountPhoneKeys),
      if Present(activity.locale) then activity.locale.value else DefaultLocale,
      if Present(activity.text) then activity.text.value else "")
  }

  /** `str(profile.get("id") or profile.get("aad_object_id") or profile.get("objectId") or "")` */
  function AadFallback(profile: Mapping): (r: string)
    ensures r == "" <==> !Truthy(GetOrNull(profile, "id")) && !Truthy(GetOrNull(profile, "aad_object_id"))
                         && !Truthy(GetOrNull(profile, "objectId"))
    ensures Truthy(GetOrNull(profile, "id")) ==> r == ToStr(GetOrNull(profile, "id"))
    ensures !Truthy(GetOrNull(profile, "id")) && Truthy(GetOrNull(profile, "aad_object_id"))
            ==> r == ToStr(GetOrNull(profile, "aad_object_id"))
    ensures !Truthy(GetOrNull(profile, "id")) && !Truthy(GetOrNull(profile, "aad_object_id")) && Truthy(GetOrNull(profile, "objectId"))
            ==> r == ToStr(GetOrNull(profile, "objectId"))
  {
    var id := GetOrNull(profile, "id");
    var aad := GetOrNull(profile, "aad_object_id");
    var objectId := GetOrNull(profile, "objectId");
    ToStr(if Truthy(id) then id else if Truthy(aad) then aad else if Truthy(objectId) then objectId else Str(""))
  }

  /** `merge_profile_data`: fill the empty identity fields from the profile; present ones always win. */
  function MergeProfileData(context: ActivityContext, profile: Option<Mapping>): (r: ActivityContext)
    ensures profile.None? || profile.value == [] ==> r == context
    ensures r.conversationId == context.conversationId && r.userName == context.userName
    ensures r.userId == context.userId && r.locale == context.locale && r.message == context.message
    ensures context.userEmail != "" ==> r.userEmail == context.userEmail
    ensures context.userPhone != "" ==> r.userPhone == context.userPhone
    ensures context.userAadObjectId != "" ==> r.userAadObjectId == context.userAadObjectId
    ensures profile.Some? && profile.value != [] && context.userEmail == "" ==> r.userEmail == FromMapping(profile.value, ProfileEmailKeys)
    ensures profile.Some? && profile.value != [] && context.userPhone == "" ==> r.userPhone == FromMapping(profile.value, ProfilePhoneKeys)
    ensures profile.Some? && profile.value != [] && context.userAadObjectId == "" ==> r.userAadObjectId == AadFallback(profile.value)
  {
    if profile.None? || profile.value == [] then context
    else
      var p := profile.value;
      context.(
        userEmail := if context.userEmail != "" then context.userEmail else FromMapping(p, ProfileEmailKeys),
        userPhone := if context.userPhone != "" then context.userPhone else FromMapping(p, ProfilePhoneKeys),
        userAadObjectId := if context.userAadObjectId != "" then context.userAadObjectId else AadFallback(p))
  }

  lemma MergeIdempotent(context: ActivityContext, profile: Option<Mapping>)
    ensures MergeProfileData(MergeProfileData(context, profile), profile) == MergeProfileData(context, profile)
  {
  }

  // ---------------------------------------------------------------------------
  // to_watson_context

  const ProfileKeyPrefix := "profile_"

  /** The four base keys of the `teams` section. */
  function BaseTeams(context: ActivityContext): Mapping
  {
    [("conversation_id", Str(context.conversationId)),
     ("user_name", Str(context.userName)),
     ("user_aadObjectId", Str(context.userAadObjectId)),
     ("user_id", Str(context.userId))]
  }

  /** The effect of `for key, value in profile.items(): teams[f"profile_{key}"] = value`. */
  function WithProfile(teams: Mapping, profile: Mapping): Mapping
    decreases |profile|
  {
    if profile == [] then teams
    else WithProfile(SetKey(teams, ProfileKeyPrefix + profile[0].0, profile[0].1), profile[1..])
  }

  function TeamsSection(context: ActivityContext, profile: Option<Mapping>): Mapping
  {
    if profile.Some? && profile.value != [] then WithProfile(BaseTeams(context), profile.value) else BaseTeams(context)
  }

  /** The payload shape: `{"channel": {"channel_type": "teams", "teams": {...}, "locale": ...}}`. */
  function WatsonContext(context: ActivityContext, teams: Mapping): Value
  {
    Dict([("channel", Dict([("channel_type", Str("teams")), ("teams", Dict(teams)), ("locale", Str(context.locale))]))])
  }

  /** `to_watson_context` */
  method ToWatsonContext(context: ActivityContext, profile: Option<Mapping>) returns (payload: Value)
    ensures payload == WatsonContext(context, TeamsSection(context, profile))
  {
    var teams := BaseTeams(context);
    if profile.Some? && profile.value != [] {
      var p := profile.value;
      var i := 0;
      while i < |p|
        invariant 0 <= i <= |p|
        invariant WithProfile(teams, p[i..]) == WithProfile(BaseTeams(context), p)
      {
        assert p[i..][1..] == p[i + 1..];
        teams := SetKey(teams, ProfileKeyPrefix + p[i].0, p[i].1);
        i := i + 1;
      }
      assert p[i..] == [];
    }
    payload := WatsonContext(context, teams);
  }

  /** Keys without the `profile_` prefix, such as the four base keys, survive every profile entry. */
  lemma {:induction false} UnprefixedKeysKept(teams: Mapping, profile: Mapping, key: string)
    requires !StartsWith(key, ProfileKeyPrefix)
    ensures Get(WithProfile(teams, profile), key) == Get(teams, key)
    decreases |profile|
  {
    if profile != [] {
      StartsWithConcat(ProfileKeyPrefix, profile[0].0);
      UnprefixedKeysKept(SetKey(teams, ProfileKeyPrefix + profile[0].0, profile[0].1), profile[1..], key);
    }
  }

  lemma NotPrefixed(key: string)
    requires key != [] && key[0] != 'p'
    ensures !StartsWith(key, ProfileKeyPrefix)
  {
    if |key| >= |ProfileKeyPrefix| {
      assert key[..|ProfileKeyPrefix|][0] == key[0] != ProfileKeyPrefix[0];
    }
  }

  lemma BaseKeysKept(context: ActivityContext, profile: Option<Mapping>)
    ensures var teams := TeamsSection(context, profile);
      && Get(teams, "conversation_id") == Some(Str(context.conversationId))
      && Get(teams, "user_name") == Some(Str(context.userName))
      && Get(teams, "user_aadObjectId") == Some(Str(context.userAadObjectId))
      && Get(teams, "user_id") == Some(Str(context.userId))
  {
    var base := BaseTeams(context);
    assert Get(base[3..], "user_id") == Some(Str(context.userId));
    assert Get(base[2..], "user_aadObjectId") == Some(Str(context.userAadObjectId));
    assert Get(base[2..], "user_id") == Some(Str(context.userId));
    assert Get(base[1..], "user_aadObjectId") == Some(Str(context.userAadObjectId));
    assert Get(base[1..], "user_id") == Some(Str(context.userId));
    if profile.Some? && profile.value != [] {
      NotPrefixed("conversation_id");
      NotPrefixed("user_name");
      NotPrefixed("user_aadObjectId");
      NotPrefixed("user_id");
      UnprefixedKeysKept(BaseTeams(context), profile.value, "conversation_id");
      UnprefixedKeysKept(BaseTeams(context), profile.value, "user_name");
      UnprefixedKeysKept(BaseTeams(context), profile.value, "user_aadObjectId");
      UnprefixedKeysKept(BaseTeams(context), profile.value, "user_id");
    }
  }

  /** Every entry of a profile (a dict, so its keys are distinct) appears under `profile_<key>`. */
  lemma {:induction false} ProfileEntryCopied(teams: Mapping, profile: Mapping, i: nat)
    requires DistinctKeys(profile) && i < |profile|
    ensures Get(WithProfile(teams, profile), ProfileKeyPrefix + profile[i].0) == Some(profile[i].1)
    decreases |profile|
  {
    var next := SetKey(teams, ProfileKeyPrefix + profile[0].0, profile[0].1);
    assert DistinctKeys(profile[1..]) by {
      assert forall a :: 0 <= a < |profile| - 1 ==> profile[1..][a] == profile[a + 1];
    }
    if i == 0 {
      PrefixedKeyKept(next, profile[1..], profile[0].0);
    } else {
      assert profile[1..][i - 1] == profile[i];
      ProfileEntryCopied(next, profile[1..], i - 1);
    }
  }

  /** A `profile_<key>` entry is left alone by later entries with other keys. */
  lemma {:induction false} PrefixedKeyKept(teams: Mapping, profile: Mapping, key: string)
    requires forall j :: 0 <= j < |profile| ==> profile[j].0 != key
    ensures Get(WithProfile(teams, profile), ProfileKeyPrefix + key) == Get(teams, ProfileKeyPrefix + key)
    decreases |profile|
  {
    if profile != [] {
      var k0 := profile[0].0;
      assert ProfileKeyPrefix + k0 != ProfileKeyPrefix + key by {
        assert (ProfileKeyPrefix + k0)[|ProfileKeyPrefix|..] == k0;
        assert (ProfileKeyPrefix + key)[|ProfileKeyPrefix|..] == key;
      }
      assert forall j :: 0 <= j < |profile| - 1 ==> profile[1..][j] == profile[j + 1];
      PrefixedKeyKept(SetKey(teams, ProfileKeyPrefix + k0, profile[0].1), profile[1..], key);
    }
  }
}
