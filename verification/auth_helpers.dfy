/**
 * The token-freshness gate in front of every Spotify call:
 * `get_spotify_client` and the `require_auth` decorator.
 */
module AuthHelpers {
  import opened Common

  /** The session key the OAuth token dictionary is stored under. */
  const TokenKey := "token_info"
  /** A token is refreshed this many seconds before it actually expires. */
  const ExpiryBufferSeconds := 60
  const UnauthorizedStatus := 401
  const UnauthorizedMessage := "Unauthorized. Please login again."

  /**
   * The OAuth token dictionary; a key that is absent is None. `otherFields`
   * stands for the keys the gate never reads (`token_type`, `scope`, …).
   */
  datatype TokenInfo = TokenInfo(
    accessToken: Option<string>,
    refreshToken: Option<string>,
    expiresAt: Option<int>,
    otherFields: map<string, string>)
  {
    /** `not token_info`: the dictionary is empty. */
    predicate IsEmpty() {
      accessToken.None? && refreshToken.None? && expiresAt.None? && otherFields == map[]
    }

    /** `token_info.get('expires_at', 0)`. */
    function ExpiresAtOrZero(): int {
      match expiresAt
      case Some(t) => t
      case None => 0
    }

    /** `token_info.get('refresh_token')` is truthy: present and not the empty string. */
    predicate HasRefreshToken() {
      refreshToken.Some? && refreshToken.value != ""
    }
  }

  /** A Spotify client, known by the access token it was built with. */
  datatype Client = Client(accessToken: string)

  /**
   * What `get_spotify_client` ends with: None, a client, or the KeyError that
   * `token_info['access_token']` raises on a token without that key.
   */
  datatype ClientOutcome = NoClient | Ready(client: Client) | AccessTokenMissing

  /**
   * The expiry test of `get_spotify_client`, with `now` standing for
   * `int(time.time())`: a token counts as expired once no more than 60
   * seconds of it remain, and one without `expires_at` counts as expiring at 0.
   */
  function IsExpired(info: TokenInfo, now: int): (expired: bool)
    ensures info.expiresAt.Some? ==> (expired <==> info.expiresAt.value - now <= ExpiryBufferSeconds)
    ensures info.expiresAt.None? ==> (expired <==> now >= -ExpiryBufferSeconds)
  {
    now >= info.ExpiresAtOrZero() - ExpiryBufferSeconds
  }

  /** A token without `expires_at` counts as expired at every time the clock can report. */
  lemma MissingExpiryAlwaysExpired(info: TokenInfo, now: nat)
    requires info.expiresAt.None?
    ensures IsExpired(info, now)
  {
  }

  /** `Spotify(auth=token_info['access_token'])`. */
  function ClientFrom(info: TokenInfo): (outcome: ClientOutcome)
    ensures outcome != NoClient
    ensures outcome.Ready? <==> info.accessToken.Some?
    ensures outcome.Ready? ==> outcome.client.accessToken == info.accessToken.value
  {
    match info.accessToken
    case Some(token) => Ready(Client(token))
    case None => AccessTokenMissing
  }

  /**
   * The decision `get_spotify_client` makes, for the stored token, the clock
   * and the refresh oracle (`refresh(rt)` is None when the refresh raises).
   */
  function ExpectedOutcome(stored: Option<TokenInfo>, now: int, refresh: string -> Option<TokenInfo>): (outcome: ClientOutcome)
    // no stored token, or an empty one: no client
    ensures stored.None? || stored.value.IsEmpty() ==> outcome == NoClient
    // an unexpired token is never refused
    ensures stored.Some? && !stored.value.IsEmpty() && !IsExpired(stored.value, now) ==> outcome != NoClient
    // a client carries the access token of the stored token while it is fresh, else of the refreshed one
    ensures outcome.Ready? ==>
      && stored.Some? && !stored.value.IsEmpty()
      && if !IsExpired(stored.value, now) then stored.value.accessToken == Some(outcome.client.accessToken)
         else
           && stored.value.HasRefreshToken()
           && var renewed := refresh(stored.value.refreshToken.value);
              renewed.Some? && renewed.value.accessToken == Some(outcome.client.accessToken)
  {
    if stored.None? || stored.value.IsEmpty() then NoClient
    else if !IsExpired(stored.value, now) then ClientFrom(stored.value)
    else if !stored.value.HasRefreshToken() then NoClient
    else match refresh(stored.value.refreshToken.value)
      case None => NoClient
      case Some(renewed) => ClientFrom(renewed)
  }

  /** The response of a route wrapped by `require_auth`. */
  datatype Guarded<R> =
    | Unauthorized(status: int, error: string)
    | Handled(result: R)
    | Raised            // the KeyError from `get_spotify_client` propagates

  /**
   * `require_auth`'s branch: no client gives a 401 and the handler is not
   * called; a client is passed as the handler's first argument, the other
   * arguments unchanged.
   */
  function Guard<A, R>(outcome: ClientOutcome, handler: (Client, A) -> R, args: A): (resp: Guarded<R>)
    ensures resp.Unauthorized? <==> outcome.NoClient?
    ensures resp.Unauthorized? ==> resp.status == UnauthorizedStatus && resp.error == UnauthorizedMessage
    ensures resp.Handled? <==> outcome.Ready?
    ensures resp.Handled? ==> resp.result == handler(outcome.client, args)
  {
    match outcome
    case NoClient => Unauthorized(UnauthorizedStatus, UnauthorizedMessage)
    case Ready(client) => Handled(handler(client, args))
    case AccessTokenMissing => Raised
  }

  /** The Flask session, reduced to the token entries the gate reads and writes. */
  class Session {
    var data: map<string, TokenInfo>

    constructor (initial: map<string, TokenInfo>)
      ensures data == initial
    {
      data := initial;
    }

    /** `session.get("token_info")`. */
    function StoredToken(): Option<TokenInfo>
      reads this
    {
      if TokenKey in data then Some(data[TokenKey]) else None
    }

    /**
     * `get_spotify_client`: the session is written only when an expired
     * token is refreshed successfully, and then only under `token_info`.
     */
    method GetSpotifyClient(now: int, refresh: string -> Option<TokenInfo>) returns (outcome: ClientOutcome)
      modifies this
      ensures outcome == ExpectedOutcome(old(StoredToken()), now, refresh)
      // no token: None, session untouched
      ensures var t := old(StoredToken());
        (t.None? || t.value.IsEmpty()) ==> outcome == NoClient && data == old(data)
      // an unexpired token: a client with the stored access token, session untouched
      ensures var t := old(StoredToken());
        (t.Some? && !t.value.IsEmpty() && !IsExpired(t.value, now)) ==>
          outcome == ClientFrom(t.value) && data == old(data)
      // expired and no refresh token: None, session untouched
      ensures var t := old(StoredToken());
        (t.Some? && !t.value.IsEmpty() && IsExpired(t.value, now) && !t.value.HasRefreshToken()) ==>
          outcome == NoClient && data == old(data)
      // expired and refreshed: the new token replaces the old one and builds the client
      ensures var t := old(StoredToken());
        (t.Some? && !t.value.IsEmpty() && IsExpired(t.value, now) && t.value.HasRefreshToken()
         && refresh(t.value.refreshToken.value).Some?) ==>
          var renewed := refresh(t.value.refreshToken.value).value;
          outcome == ClientFrom(renewed) && data == old(data)[TokenKey := renewed]
      // expired and the refresh raised: None, and the old token stays stored
      ensures var t := old(StoredToken());
        (t.Some? && !t.value.IsEmpty() && IsExpired(t.value, now) && t.value.HasRefreshToken()
         && refresh(t.value.refreshToken.value).None?) ==>
          outcome == NoClient && data == old(data)
    {
      if TokenKey !in data || data[TokenKey].IsEmpty() {
        return NoClient;
      }
      var tokenInfo := data[TokenKey];
      if IsExpired(tokenInfo, now) {
        if !tokenInfo.HasRefreshToken() {
          return NoClient;
        }
        var newTokenInfo := refresh(tokenInfo.refreshToken.value);
        if newTokenInfo.None? {
          return NoClient;
        }
        data := data[TokenKey := newTokenInfo.value];
        tokenInfo := newTokenInfo.value;
      }
      outcome := ClientFrom(tokenInfo);
    }

    /** A route wrapped by `require_auth`, called with `args`. */
    method RequireAuth<A, R>(handler: (Client, A) -> R, args: A, now: int, refresh: string -> Option<TokenInfo>)
      returns (resp: Guarded<R>)
      modifies this
      ensures resp == Guard(ExpectedOutcome(old(StoredToken()), now, refresh), handler, args)
      ensures resp.Unauthorized? <==> ExpectedOutcome(old(StoredToken()), now, refresh) == NoClient
      ensures ExpectedOutcome(old(StoredToken()), now, refresh) == NoClient ==> data == old(data)
      // the session changes only when an expired token is refreshed, and then only under `token_info`
      ensures var t := old(StoredToken());
        if t.Some? && !t.value.IsEmpty() && IsExpired(t.value, now) && t.value.HasRefreshToken()
           && refresh(t.value.refreshToken.value).Some?
        then data == old(data)[TokenKey := refresh(t.value.refreshToken.value).value]
        else data == old(data)
    {
      var sp := GetSpotifyClient(now, refresh);
      resp := Guard(sp, handler, args);
    }
  }
}
