/**
 * Key formats of the Redis-backed stores (session/chat/redis_session.py and
 * session/profile/redis_profile_store.py). The two stores share one key space,
 * and the prefixes keep their entries apart.
 */
module StoreKeys {
  import opened Strings

  const SessionPrefix := "session:"
  const ProfilePrefix := "profile:"

  /** `f"session:{conversation_id}"` */
  function SessionKey(conversationId: string): (r: string)
    ensures StartsWith(r, SessionPrefix) && r[|SessionPrefix|..] == conversationId
  {
    SessionPrefix + conversationId
  }

  /** `f"profile:{object_id}"` */
  function ProfileKey(objectId: string): (r: string)
    ensures StartsWith(r, ProfilePrefix) && r[|ProfilePrefix|..] == objectId
  {
    ProfilePrefix + objectId
  }

  /** Each key names exactly one id. */
  lemma KeysInjective(a: string, b: string)
    ensures SessionKey(a) == SessionKey(b) <==> a == b
    ensures ProfileKey(a) == ProfileKey(b) <==> a == b
  {
    if SessionKey(a) == SessionKey(b) {
      assert a == SessionKey(a)[|SessionPrefix|..];
    }
    if ProfileKey(a) == ProfileKey(b) {
      assert a == ProfileKey(a)[|ProfilePrefix|..];
    }
  }

  /** No session key is a profile key. */
  lemma KeySpacesDisjoint(conversationId: string, objectId: string)
    ensures SessionKey(conversationId) != ProfileKey(objectId)
  {
    assert SessionKey(conversationId)[0] == 's';
    assert ProfileKey(objectId)[0] == 'p';
  }
}
