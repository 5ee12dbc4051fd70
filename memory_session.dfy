/**
 * The in-memory thread session store (session/chat/memory_session.py): a map from
 * conversation id to the orchestrator's thread id, with a time-to-live and lazy
 * deletion of expired entries on read. The clock is an explicit `now` argument.
 */
module ThreadSessions {
  import opened Wrappers

  datatype ThreadRecord = ThreadRecord(threadId: string, expireAt: real)

  type Store = map<string, ThreadRecord>

  const DefaultExpireSeconds: real := 900.0

  /** The store after `save_thread(conversationId, threadId)` at time `now`. */
  function Saved(store: Store, conversationId: string, threadId: string, now: real, ttl: real): (r: Store)
    ensures conversationId in r && r[conversationId] == ThreadRecord(threadId, now + ttl)
    ensures forall c :: c != conversationId ==> (c in r <==> c in store)
    ensures forall c :: c != conversationId && c in store ==> r[c] == store[c]
  {
    store[conversationId := ThreadRecord(threadId, now + ttl)]
  }

  /** What `get_thread(conversationId)` returns at time `now`. */
  function Lookup(store: Store, conversationId: string, now: real): (r: Option<string>)
    ensures r.Some? <==> conversationId in store && now < store[conversationId].expireAt
    ensures r.Some? ==> r.value == store[conversationId].threadId
  {
    if conversationId in store && now < store[conversationId].expireAt
    then Some(store[conversationId].threadId)
    else None
  }

  /** The store after `get_thread(conversationId)` at time `now`: an expired entry is dropped. */
  function AfterLookup(store: Store, conversationId: string, now: real): (r: Store)
    ensures conversationId in store && now < store[conversationId].expireAt ==> r == store
    ensures conversationId !in store ==> r == store
    ensures conversationId in store && now >= store[conversationId].expireAt ==> r == store - {conversationId}
  {
    if conversationId in store && now >= store[conversationId].expireAt
    then store - {conversationId}
    else store
  }

  /** The store after `delete_thread(conversationId)`. */
  function Deleted(store: Store, conversationId: string): (r: Store)
    ensures conversationId !in r
    ensures forall c :: c != conversationId ==> (c in r <==> c in store)
    ensures forall c :: c != conversationId && c in store ==> r[c] == store[c]
  {
    store - {conversationId}
  }

  class ChatMemorySessionManager {
    var store: Store
    const expireSeconds: real

    constructor (expireSeconds: real := DefaultExpireSeconds)
      ensures this.store == map[] && this.expireSeconds == expireSeconds
    {
      this.store := map[];
      this.expireSeconds := expireSeconds;
    }

    /** `save_thread`: overwrite the entry, leave every other key alone. */
    method SaveThread(conversationId: string, threadId: string, now: real)
      modifies this
      ensures store == Saved(old(store), conversationId, threadId, now, expireSeconds)
    {
      var expireAt := now + expireSeconds;
      store := store[conversationId := ThreadRecord(threadId, expireAt)];
    }

    /** `get_thread`: the thread id while the entry is live; an expired entry is deleted. */
    method GetThread(conversationId: string, now: real) returns (r: Option<string>)
      modifies this
      ensures r == Lookup(old(store), conversationId, now)
      ensures store == AfterLookup(old(store), conversationId, now)
    {
      if conversationId in store && now < store[conversationId].expireAt {
        return Some(store[conversationId].threadId);
      }
      if conversationId in store {
        store := store - {conversationId};
      }
      return None;
    }

    /** `delete_thread`: remove the key when present. */
    method DeleteThread(conversationId: string)
      modifies this
      ensures store == Deleted(old(store), conversationId)
    {
      store := store - {conversationId};
    }
  }

  // ---------------------------------------------------------------------------
  // Histories of store operations

  datatype SessionOp =
    | SaveOp(conversationId: string, threadId: string, at: real)
    | GetOp(conversationId: string, at: real)
    | DeleteOp(conversationId: string)

  function Step(store: Store, op: SessionOp, ttl: real): Store
  {
    match op
    case SaveOp(c, t, at) => Saved(store, c, t, at, ttl)
    case GetOp(c, at) => AfterLookup(store, c, at)
    case DeleteOp(c) => Deleted(store, c)
  }

  function Run(store: Store, ops: seq<SessionOp>, ttl: real): Store
    decreases |ops|
  {
    if ops == [] then store else Run(Step(store, ops[0], ttl), ops[1..], ttl)
  }

  /** No save or delete for `c`, and every read of `c` happens before its entry expires. */
  predicate LeavesEntryAlone(op: SessionOp, c: string, expireAt: real)
  {
    op.conversationId != c || (op.GetOp? && op.at < expireAt)
  }

  /** An entry is untouched by any history that leaves it alone. */
  lemma {:induction false} EntrySurvives(store: Store, ops: seq<SessionOp>, ttl: real, c: string)
    requires c in store
    requires forall i :: 0 <= i < |ops| ==> LeavesEntryAlone(ops[i], c, store[c].expireAt)
    ensures c in Run(store, ops, ttl) && Run(store, ops, ttl)[c] == store[c]
    decreases |ops|
  {
    if ops != [] {
      var next := Step(store, ops[0], ttl);
      assert LeavesEntryAlone(ops[0], c, store[c].expireAt);
      assert c in next && next[c] == store[c];
      assert forall i :: 0 <= i < |ops| - 1 ==> ops[1..][i] == ops[i + 1];
      EntrySurvives(next, ops[1..], ttl, c);
    }
  }

  /**
   * Round trip: a thread id saved at `t0` is read back at any `now` before
   * `t0 + ttl`, whatever happens to other conversations in between, provided `c`
   * is neither saved nor deleted again and the clock does not run backwards.
   */
  lemma SaveThenGet(store: Store, c: string, threadId: string, t0: real, ops: seq<SessionOp>, now: real, ttl: real)
    requires now < t0 + ttl
    requires forall i :: 0 <= i < |ops| ==> ops[i].conversationId == c ==> ops[i].GetOp? && ops[i].at <= now
    ensures Lookup(Run(Saved(store, c, threadId, t0, ttl), ops, ttl), c, now) == Some(threadId)
  {
    var saved := Saved(store, c, threadId, t0, ttl);
    EntrySurvives(saved, ops, ttl, c);
  }

  /** A store read only at or after expiry is empty for that conversation, and stays so. */
  lemma ExpiredReadForgets(store: Store, c: string, now: real)
    requires c in store && now >= store[c].expireAt
    ensures Lookup(store, c, now) == None
    ensures c !in AfterLookup(store, c, now)
    ensures forall later :: Lookup(AfterLookup(store, c, now), c, later) == None
  {
  }
}
