/** The backend's music-provider client: a process-wide access-token cache refreshed by a
    client-credentials exchange, and the bearer-authenticated GET built on it.

    The clock (`Date.now()`), the environment and the exchange's HTTP result are parameters;
    an exchange is performed exactly when the method reports `exchanged`. */
module SpotifyService {
  import opened Common

  /** The safety margin: a cached token is not used within 5 seconds of its expiry. */
  const SafetyMarginMs: int := 5000

  const MissingCredentials: string := "Missing SPOTIFY_CLIENT_ID/SECRET"

  /** The token endpoint's reply: the token and its lifetime in seconds. */
  datatype TokenReply = TokenReply(accessToken: string, expiresIn: int)

  /** `SPOTIFY_CLIENT_ID` and `SPOTIFY_CLIENT_SECRET`. */
  datatype Credentials = Credentials(clientId: Option<string>, clientSecret: Option<string>)

  /** A GET to the provider's API: path, query parameters and the Authorization header. */
  datatype ApiRequest = ApiRequest(path: string, params: seq<(string, string)>, authorization: string)

  /** The early-return test: a non-empty cached token strictly before `expiresAt - 5000`. */
  predicate CachedTokenUsable(accessToken: string, expiresAt: int, now: int) {
    accessToken != "" && now < expiresAt - SafetyMarginMs
  }

  predicate Configured(creds: Credentials) {
    Truthy(creds.clientId) && Truthy(creds.clientSecret)
  }

  class TokenCache {
    /** Module-level `accessToken`; "" when none is cached. */
    var accessToken: string
    /** Module-level `expiresAt`, epoch milliseconds. */
    var expiresAt: int

    /** Nothing is cached at start-up. */
    constructor ()
      ensures accessToken == "" && expiresAt == 0
    {
      accessToken, expiresAt := "", 0;
    }

    /** `getAccessToken()` at clock value `now`. A usable cached token is returned without an
        exchange. Otherwise missing credentials fail before any exchange; a failed exchange
        propagates its error; a successful one caches the token with expiry
        `now + expires_in * 1000` (`now` read before the exchange). The cache is changed only by
        a successful exchange, and a returned token is always the cached one. */
    method GetAccessToken(now: int, creds: Credentials, exchange: Outcome<TokenReply>)
      returns (r: Outcome<string>, exchanged: bool)
      modifies this
      ensures CachedTokenUsable(old(accessToken), old(expiresAt), now) ==>
        r == Ok(old(accessToken)) && !exchanged
      ensures !CachedTokenUsable(old(accessToken), old(expiresAt), now) && !Configured(creds) ==>
        r == Fail(MissingCredentials) && !exchanged
      ensures !CachedTokenUsable(old(accessToken), old(expiresAt), now) && Configured(creds) ==>
        exchanged && (exchange.Fail? ==> r == Fail(exchange.message))
      ensures exchanged && exchange.Ok? ==>
        && r == Ok(exchange.value.accessToken)
        && accessToken == exchange.value.accessToken
        && expiresAt == now + exchange.value.expiresIn * 1000
      ensures !(exchanged && exchange.Ok?) ==> accessToken == old(accessToken) && expiresAt == old(expiresAt)
      ensures r.Ok? ==> r.value == accessToken
    {
      if CachedTokenUsable(accessToken, expiresAt, now) {
        return Ok(accessToken), false;
      }
      if !Configured(creds) {
        return Fail(MissingCredentials), false;
      }
      exchanged := true;
      match exchange
      case Fail(message) =>
        r := Fail(message);
      case Ok(reply) =>
        accessToken := reply.accessToken;
        expiresAt := now + reply.expiresIn * 1000;
        r := Ok(accessToken);
    }

    /** `sget(path, params)`: obtains the token, then sends the GET with `Bearer <token>`. A
        token failure (missing credentials or a failed exchange) propagates without a request;
        otherwise the response is returned as it came. The cache changes as in
        `getAccessToken`. */
    method Sget<D>(now: int, creds: Credentials, exchange: Outcome<TokenReply>,
                   path: string, params: seq<(string, string)>, response: Outcome<D>)
      returns (r: Outcome<D>, sent: Option<ApiRequest>)
      modifies this
      ensures CachedTokenUsable(old(accessToken), old(expiresAt), now) ==>
        sent == Some(ApiRequest(path, params, "Bearer " + old(accessToken))) && r == response
      ensures !CachedTokenUsable(old(accessToken), old(expiresAt), now) && !Configured(creds) ==>
        sent.None? && r == Fail(MissingCredentials)
      ensures !CachedTokenUsable(old(accessToken), old(expiresAt), now) && Configured(creds) && exchange.Fail? ==>
        sent.None? && r == Fail(exchange.message)
      ensures !CachedTokenUsable(old(accessToken), old(expiresAt), now) && Configured(creds) && exchange.Ok? ==>
        && sent == Some(ApiRequest(path, params, "Bearer " + exchange.value.accessToken))
        && r == response
        && accessToken == exchange.value.accessToken
        && expiresAt == now + exchange.value.expiresIn * 1000
      ensures !(!CachedTokenUsable(old(accessToken), old(expiresAt), now) && Configured(creds) && exchange.Ok?) ==>
        accessToken == old(accessToken) && expiresAt == old(expiresAt)
      ensures sent.Some? ==> sent.value == ApiRequest(path, params, "Bearer " + accessToken)
    {
      var token, _ := GetAccessToken(now, creds, exchange);
      if token.Fail? {
        return Fail(token.message), None;
      }
      sent := Some(ApiRequest(path, params, "Bearer " + token.value));
      r := response;
    }
  }

  /** `searchArtistByName(name)`: the search path and its parameters. */
  function SearchArtistPath(name: string): (string, seq<(string, string)>)
  {
    ("/search", [("q", name), ("type", "artist"), ("limit", "1")])
  }

  /** `getArtist(id)`. */
  function ArtistPath(artistId: string): (string, seq<(string, string)>)
  {
    ("/artists/" + artistId, [])
  }

  /** `getArtistAlbums(id)`: albums and singles, US market, at most 24. */
  function ArtistAlbumsPath(artistId: string): (string, seq<(string, string)>)
  {
    ("/artists/" + artistId + "/albums", [("include_groups", "album,single"), ("market", "US"), ("limit", "24")])
  }

  // ----- the refresh rule over several calls -----

  /** The artist view's requests on a fresh cache, inside one validity window: the name search
      exchanges for a token, and the artist and album requests reuse it, even when a later
      exchange would have given another. */
  method ArtistRequests<S, A, L>(t1: int, t2: int, creds: Credentials, reply: TokenReply, later: TokenReply,
                                 name: string, artistId: string,
                                 search: Outcome<S>, artist: Outcome<A>, albums: Outcome<L>)
    returns (requests: seq<Option<ApiRequest>>)
    requires Configured(creds) && reply.accessToken != ""
    requires t1 <= t2 < t1 + reply.expiresIn * 1000 - SafetyMarginMs
    ensures var bearer := "Bearer " + reply.accessToken;
      requests == [
        Some(ApiRequest("/search", [("q", name), ("type", "artist"), ("limit", "1")], bearer)),
        Some(ApiRequest("/artists/" + artistId, [], bearer)),
        Some(ApiRequest("/artists/" + artistId + "/albums",
                        [("include_groups", "album,single"), ("market", "US"), ("limit", "24")], bearer))]
  {
    var cache := new TokenCache();
    var find := SearchArtistPath(name);
    var _, first := cache.Sget(t1, creds, Ok(reply), find.0, find.1, search);
    var one := ArtistPath(artistId);
    var _, second := cache.Sget(t2, creds, Ok(later), one.0, one.1, artist);
    var discs := ArtistAlbumsPath(artistId);
    var _, third := cache.Sget(t2, creds, Ok(later), discs.0, discs.1, albums);
    requests := [first, second, third];
  }

  /** The first call on a fresh cache always exchanges, whatever the clock says. */
  method FirstCallExchanges(now: int, creds: Credentials, exchange: Outcome<TokenReply>)
    returns (exchanged: bool)
    requires Configured(creds)
    ensures exchanged
  {
    var cache := new TokenCache();
    var _, e := cache.GetAccessToken(now, creds, exchange);
    exchanged := e;
  }

  /** Two calls inside the validity window cost one exchange and return the same token; a
      third call at or after `expiresAt - 5000` exchanges again. */
  method RefreshWindow(t1: int, t2: int, t3: int, creds: Credentials, reply: TokenReply, later: TokenReply)
    returns (first: Outcome<string>, second: Outcome<string>, exchanges: nat)
    requires Configured(creds) && reply.accessToken != ""
    requires t1 <= t2 < t1 + reply.expiresIn * 1000 - SafetyMarginMs
    requires t3 >= t1 + reply.expiresIn * 1000 - SafetyMarginMs
    ensures first == second == Ok(reply.accessToken)
    ensures exchanges == 2
  {
    var cache := new TokenCache();
    var e1, e2, e3;
    first, e1 := cache.GetAccessToken(t1, creds, Ok(reply));
    second, e2 := cache.GetAccessToken(t2, creds, Ok(later));
    var _, x := cache.GetAccessToken(t3, creds, Ok(later));
    e3 := x;
    exchanges := (if e1 then 1 else 0) + (if e2 then 1 else 0) + (if e3 then 1 else 0);
  }
}
