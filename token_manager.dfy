/**
 * The cached IAM bearer token of the orchestrator client
 * (conversation/watsonx_token_manager.py): a two-field state `{token, expiresAt}`
 * refreshed when missing or within `buffer` seconds of expiry. The token
 * endpoint's reply is an argument, stamped with the time it arrived.
 */
module TokenCache {
  import opened Wrappers

  /** What the IAM endpoint gives back: a JSON body, or a request failure of any kind. */
  datatype IamReply =
    | IamGranted(accessToken: Option<string>, expiresIn: Option<real>, receivedAt: real)
    | IamRequestFailed

  datatype TokenError =
    | TokenRequestFailed   // `requests` raised; re-raised to the caller
    | MissingAccessToken   // the body has no `access_token` (a `KeyError`)

  const DefaultExpiresIn: real := 3600.0
  const DefaultExpirationBuffer: real := 60.0

  /** `not token` */
  predicate Missing(token: Option<string>)
  {
    token.None? || token.value == ""
  }

  /** The condition under which `get_token` asks for a new token. */
  predicate NeedsRefresh(token: Option<string>, expiresAt: real, now: real, buffer: real)
  {
    Missing(token) || now >= expiresAt - buffer
  }

  /** The state a reply leads to: the new token and its expiry, or the error raised before any field changes. */
  function Refresh(reply: IamReply): (r: Result<(string, real), TokenError>)
    ensures reply.IamRequestFailed? ==> r == Err(TokenRequestFailed)
    ensures reply.IamGranted? && reply.accessToken.None? ==> r == Err(MissingAccessToken)
    ensures r.Ok? ==> r.value.0 == reply.accessToken.value
    ensures r.Ok? && reply.expiresIn.None? ==> r.value.1 == reply.receivedAt + DefaultExpiresIn
    ensures r.Ok? && reply.expiresIn.Some? ==> r.value.1 == reply.receivedAt + reply.expiresIn.value
  {
    match reply
    case IamRequestFailed => Err(TokenRequestFailed)
    case IamGranted(accessToken, expiresIn, receivedAt) =>
      if accessToken.None? then Err(MissingAccessToken)
      else Ok((accessToken.value, receivedAt + (if expiresIn.Some? then expiresIn.value else DefaultExpiresIn)))
  }

  class WatsonxTokenManager {
    var token: Option<string>
    var expiresAt: real
    const buffer: real

    constructor (buffer: real := DefaultExpirationBuffer)
      ensures token == None && expiresAt == 0.0 && this.buffer == buffer
    {
      token := None;
      expiresAt := 0.0;
      this.buffer := buffer;
    }

    /** `_refresh_token`: assign both fields from a good reply; raise, changing nothing, otherwise. */
    method RefreshToken(reply: IamReply) returns (r: Result<string, TokenError>)
      modifies this
      ensures Refresh(reply).Err? ==> r == Err(Refresh(reply).error) && token == old(token) && expiresAt == old(expiresAt)
      ensures Refresh(reply).Ok? ==>
                (r == Ok(Refresh(reply).value.0) && token == Some(Refresh(reply).value.0) && expiresAt == Refresh(reply).value.1)
    {
      if reply.IamRequestFailed? {
        return Err(TokenRequestFailed);
      }
      if reply.accessToken.None? {
        return Err(MissingAccessToken);
      }
      token := Some(reply.accessToken.value);
      var expiresIn := if reply.expiresIn.Some? then reply.expiresIn.value else DefaultExpiresIn;
      expiresAt := reply.receivedAt + expiresIn;
      return Ok(token.value);
    }

    /** `get_token`: the cached token while it is outside the buffer window, a new one otherwise. */
    method GetToken(now: real, reply: IamReply) returns (r: Result<string, TokenError>)
      modifies this
      ensures !NeedsRefresh(old(token), old(expiresAt), now, buffer) ==>
                r == Ok(old(token).value) && token == old(token) && expiresAt == old(expiresAt)
      ensures NeedsRefresh(old(token), old(expiresAt), now, buffer) && Refresh(reply).Err? ==>
                r == Err(Refresh(reply).error) && token == old(token) && expiresAt == old(expiresAt)
      ensures NeedsRefresh(old(token), old(expiresAt), now, buffer) && Refresh(reply).Ok? ==>
                token == Some(Refresh(reply).value.0) && expiresAt == Refresh(reply).value.1
      ensures NeedsRefresh(old(token), old(expiresAt), now, buffer) && Refresh(reply).Ok? ==>
                r == Ok(Refresh(reply).value.0)
      ensures r.Ok? ==> token == Some(r.value)
      ensures (r, TokenState(token, expiresAt)) == TokenStep(TokenState(old(token), old(expiresAt)), now, buffer, reply)
    {
      if Missing(token) || now >= expiresAt - buffer {
        var refreshed := RefreshToken(reply);
        if refreshed.Err? {
          return refreshed;
        }
      }
      return Ok(token.value);
    }
  }

  /** The two fields of the cache. */
  datatype TokenState = TokenState(token: Option<string>, expiresAt: real)

  /** One `get_token` call at `now`, as a result and the state it leaves. */
  function TokenStep(s: TokenState, now: real, buffer: real, reply: IamReply): (Result<string, TokenError>, TokenState)
  {
    if !NeedsRefresh(s.token, s.expiresAt, now, buffer) then (Ok(s.token.value), s)
    else match Refresh(reply)
      case Err(e) => (Err(e), s)
      case Ok((token, expiresAt)) => (Ok(token), TokenState(Some(token), expiresAt))
  }

  /**
   * After a call that renewed the token from a reply granting more than `buffer`
   * seconds, a later call before the buffer window opens returns the same token,
   * sends no request (whatever the endpoint would reply) and changes nothing.
   */
  lemma RenewedTokenReused(s: TokenState, t1: real, t2: real, buffer: real, first: IamReply, second: IamReply)
    requires NeedsRefresh(s.token, s.expiresAt, t1, buffer)
    requires Refresh(first).Ok? && Refresh(first).value.0 != ""
    requires t2 < Refresh(first).value.1 - buffer
    ensures var (r1, s1) := TokenStep(s, t1, buffer, first);
      r1 == Ok(Refresh(first).value.0) && TokenStep(s1, t2, buffer, second) == (r1, s1)
  {
  }

  /**
   * Once the buffer window of a token is reached, the next call behaves as on an
   * empty cache: it asks the endpoint again and returns what the new reply gives;
   * a failed renewal leaves the old state in place.
   */
  lemma BufferWindowForcesRefresh(s: TokenState, t1: real, t2: real, buffer: real, first: IamReply, second: IamReply)
    requires TokenStep(s, t1, buffer, first).0.Ok?
    requires t2 >= TokenStep(s, t1, buffer, first).1.expiresAt - buffer
    ensures var s1 := TokenStep(s, t1, buffer, first).1;
      var cold := TokenStep(TokenState(None, 0.0), t2, buffer, second);
      && TokenStep(s1, t2, buffer, second).0 == cold.0
      && (Refresh(second).Ok? ==> TokenStep(s1, t2, buffer, second).1 == cold.1)
      && (Refresh(second).Err? ==> TokenStep(s1, t2, buffer, second).1 == s1)
  {
  }
}
