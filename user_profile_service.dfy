/**
 * The read-through profile cache (services/user_profile_service.py): look in the
 * store, then (when configured) fetch from the profile API and keep any non-empty
 * result. The store is an abstract map standing in for the Redis-backed store
 * (session/profile/); the API reply is an argument.
 */
module ProfileService {
  import opened Wrappers
  import opened Values

  /** What the profile API gives back: the decoded JSON body, or any request failure. */
  datatype FetchReply = FetchOk(payload: Mapping) | FetchFailed

  /** `_fetch_profile`: the body's `"user"` entry when it is a dictionary, `None` otherwise. */
  function FetchProfile(reply: FetchReply): (r: Option<Mapping>)
    ensures reply.FetchFailed? ==> r == None
    ensures r.Some? ==> reply.FetchOk? && Get(reply.payload, "user") == Some(Dict(r.value))
    ensures reply.FetchOk? && !HasKey(reply.payload, "user") ==> r == None
    ensures reply.FetchOk? && Get(reply.payload, "user").Some? && Get(reply.payload, "user").value.Dict?
            ==> r == Some(Get(reply.payload, "user").value.entries)
  {
    match reply
    case FetchFailed => None
    case FetchOk(payload) =>
      var user := Get(payload, "user");
      if user.Some? && user.value.Dict? then Some(user.value.entries) else None
  }

  /** A profile counts as cached or worth saving only when it is a non-empty dictionary. */
  predicate NonEmptyProfile(p: Option<Mapping>)
  {
    p.Some? && p.value != []
  }

  /** The result of one `get_user_profile` call: what it returns, whether it fetched, and the new store. */
  datatype ProfileOutcome = ProfileOutcome(result: Option<Mapping>, fetched: bool, profiles: map<string, Mapping>)

  function CachedProfile(profiles: map<string, Mapping>, objectId: string): Option<Mapping>
  {
    if objectId in profiles then Some(profiles[objectId]) else None
  }

  /** `get_user_profile` over the store's contents, the enabled flag and the API reply. */
  function ProfileLookup(profiles: map<string, Mapping>, objectId: string, enabled: bool, reply: FetchReply): (r: ProfileOutcome)
    ensures objectId == "" ==> r == ProfileOutcome(None, false, profiles)
    ensures objectId != "" && NonEmptyProfile(CachedProfile(profiles, objectId)) ==>
              r == ProfileOutcome(Some(profiles[objectId]), false, profiles)
    ensures objectId != "" && !NonEmptyProfile(CachedProfile(profiles, objectId)) && !enabled ==>
              r == ProfileOutcome(None, false, profiles)
    ensures r.fetched <==> objectId != "" && !NonEmptyProfile(CachedProfile(profiles, objectId)) && enabled
    ensures r.fetched ==> r.result == FetchProfile(reply)
    ensures r.profiles != profiles ==> r.fetched && NonEmptyProfile(r.result) && r.profiles == profiles[objectId := r.result.value]
    ensures r.fetched && NonEmptyProfile(r.result) ==> r.profiles == profiles[objectId := r.result.value]
  {
    if objectId == "" then ProfileOutcome(None, false, profiles)
    else
      var cached := CachedProfile(profiles, objectId);
      if NonEmptyProfile(cached) then ProfileOutcome(cached, false, profiles)
      else if !enabled then ProfileOutcome(None, false, profiles)
      else
        var profile := FetchProfile(reply);
        if NonEmptyProfile(profile) then ProfileOutcome(profile, true, profiles[objectId := profile.value])
        else ProfileOutcome(profile, true, profiles)
  }

  /**
   * After a lookup that fetched a non-empty profile, the next lookup for the same
   * id returns that profile without fetching, whatever the API would say.
   */
  lemma SecondLookupHitsCache(profiles: map<string, Mapping>, objectId: string, enabled: bool,
                              first: FetchReply, second: FetchReply)
    requires ProfileLookup(profiles, objectId, enabled, first).fetched
    requires NonEmptyProfile(ProfileLookup(profiles, objectId, enabled, first).result)
    ensures var once := ProfileLookup(profiles, objectId, enabled, first);
      ProfileLookup(once.profiles, objectId, enabled, second) == ProfileOutcome(once.result, false, once.profiles)
  {
  }

  /** A lookup never changes the profile cached under any other id. */
  lemma LookupTouchesOnlyItsId(profiles: map<string, Mapping>, objectId: string, enabled: bool,
                               reply: FetchReply, other: string)
    requires other != objectId
    ensures CachedProfile(ProfileLookup(profiles, objectId, enabled, reply).profiles, other) == CachedProfile(profiles, other)
  {
  }

  /** A non-empty result is either the cached profile or the one just fetched and now cached. */
  lemma ResultIsCached(profiles: map<string, Mapping>, objectId: string, enabled: bool, reply: FetchReply)
    requires NonEmptyProfile(ProfileLookup(profiles, objectId, enabled, reply).result)
    ensures var r := ProfileLookup(profiles, objectId, enabled, reply);
      objectId in r.profiles && r.result == Some(r.profiles[objectId])
  {
  }

  /** The profile store interface (`ProfileStore`) over an in-memory map. */
  class ProfileStore {
    var profiles: map<string, Mapping>

    constructor ()
      ensures profiles == map[]
    {
      profiles := map[];
    }

    method GetProfile(objectId: string) returns (r: Option<Mapping>)
      ensures r == CachedProfile(profiles, objectId)
    {
      if objectId in profiles {
        return Some(profiles[objectId]);
      }
      return None;
    }

    method SaveProfile(objectId: string, profile: Mapping)
      modifies this
      ensures profiles == old(profiles)[objectId := profile]
    {
      profiles := profiles[objectId := profile];
    }

    method DeleteProfile(objectId: string)
      modifies this
      ensures profiles == old(profiles) - {objectId}
    {
      profiles := profiles - {objectId};
    }
  }

  class UserProfileService {
    const store: ProfileStore
    /** `settings.is_enabled()`: base URL and client secret both configured. */
    const enabled: bool

    constructor (enabled: bool, store: ProfileStore)
      ensures this.enabled == enabled && this.store == store
    {
      this.enabled := enabled;
      this.store := store;
    }

    /** `get_user_profile` */
    method GetUserProfile(objectId: string, reply: FetchReply) returns (r: Option<Mapping>, fetched: bool)
      modifies store
      ensures ProfileOutcome(r, fetched, store.profiles) == ProfileLookup(old(store.profiles), objectId, enabled, reply)
    {
      if objectId == "" {
        return None, false;
      }
      var cached := store.GetProfile(objectId);
      if cached.Some? && cached.value != [] {
        return cached, false;
      }
      if !enabled {
        return None, false;
      }
      var profile := FetchProfile(reply);
      if profile.Some? && profile.value != [] {
        store.SaveProfile(objectId, profile.value);
      }
      return profile, true;
    }
  }
}
