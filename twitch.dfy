/** `TwitchService` of backend/app/services/twitch.py: the cached app access token and
    the three Helix calls made with it. The network is an oracle: each request's
    outcome (`HttpResult`) and each clock reading are parameters. */
module Twitch {
  import opened Wrappers
  import opened Json

  /** The service's settings (backend/app/core/config.py). */
  datatype Config = Config(clientId: string, clientSecret: string, tokenUrl: string, apiBaseUrl: string)

  /** What a request gives back: no connection, or a status with a body that is
      JSON (`Some`) or not (`None`). */
  datatype HttpResult = Unreachable | Response(status: int, body: Option<Value>)

  /** The exception a call raises. */
  datatype Fault =
    | ConnectionFailed           // requests' ConnectionError, Timeout, ...
    | HttpStatus(code: int)      // raise_for_status
    | NotJson                    // response.json() on a non-JSON body
    | MissingKey(key: string)    // KeyError
    | WrongType(what: string)    // TypeError / AttributeError on an unexpected JSON shape

  /** A request the service sends. */
  datatype HttpRequest =
    | Post(url: string, form: map<string, string>)
    | Get(url: string, headers: map<string, string>, params: map<string, Value>)

  /** `raise_for_status` raises for client and server errors. */
  predicate RaisesForStatus(status: int)
  {
    400 <= status < 600
  }

  /** The two cached fields; `None` is Python's None. */
  datatype TokenCache = TokenCache(accessToken: Option<string>, tokenExpiry: Option<int>)

  /** One `get_access_token` call's environment: the clock read by the check, the
      token endpoint's answer, and the clock read after it. */
  datatype TokenEnv = TokenEnv(now: int, reply: HttpResult, later: int)

  /** The new cache, the returned token or the exception, and the requests sent. */
  datatype TokenOutcome = TokenOutcome(cache: TokenCache, result: Result<Option<string>, Fault>, sent: seq<HttpRequest>)

  /** The cached token may be reused: it is truthy, an expiry is set, and the clock is
      strictly before it. */
  predicate IsFresh(c: TokenCache, now: int)
  {
    Given(c.accessToken) && c.tokenExpiry.Some? && now < c.tokenExpiry.value
  }

  /** The client-credentials POST. */
  function TokenRequest(cfg: Config): (q: HttpRequest)
    ensures q.Post? && q.url == cfg.tokenUrl
    ensures q.form.Keys == {"client_id", "client_secret", "grant_type"}
    ensures q.form["client_id"] == cfg.clientId && q.form["client_secret"] == cfg.clientSecret
    ensures q.form["grant_type"] == "client_credentials"
  {
    Post(cfg.tokenUrl, map["client_id" := cfg.clientId, "client_secret" := cfg.clientSecret,
                           "grant_type" := "client_credentials"])
  }

  /** What the lines after the POST leave: the cache and the token or the exception. */
  datatype Refreshed = Refreshed(cache: TokenCache, result: Result<Option<string>, Fault>)

  /** Lines after the POST: status check, `access_token` (assigned first), then
      `expires_in` with default 0 and the expiry from the second clock reading. */
  function Refresh(c: TokenCache, reply: HttpResult, later: int): (o: Refreshed)
    ensures o.result.Success? ==> o.cache == TokenCache(o.result.value, o.cache.tokenExpiry) && o.cache.tokenExpiry.Some?
    ensures o.cache.tokenExpiry != c.tokenExpiry ==> o.result.Success?
  {
    match reply
    case Unreachable => Refreshed(c, Failure(ConnectionFailed))
    case Response(status, body) =>
      if RaisesForStatus(status) then Refreshed(c, Failure(HttpStatus(status)))
      else if body.None? then Refreshed(c, Failure(NotJson))
      else if !body.value.Dict? then Refreshed(c, Failure(WrongType("token response")))
      else
        var m := body.value.fields;
        if "access_token" !in m then Refreshed(c, Failure(MissingKey("access_token")))
        else if !(m["access_token"].Str? || m["access_token"].Null?) then Refreshed(c, Failure(WrongType("access_token")))
        else
          var token := if m["access_token"].Str? then Some(m["access_token"].s) else None;
          if "expires_in" !in m then Refreshed(TokenCache(token, Some(later + 0)), Success(token))
          else if m["expires_in"].Int? then Refreshed(TokenCache(token, Some(later + m["expires_in"].n)), Success(token))
          else Refreshed(TokenCache(token, c.tokenExpiry), Failure(WrongType("expires_in")))
  }

  /** `get_access_token`. */
  function AccessToken(cfg: Config, c: TokenCache, env: TokenEnv): (o: TokenOutcome)
    ensures IsFresh(c, env.now) <==> o.sent == []
    ensures !IsFresh(c, env.now) ==> o.sent == [TokenRequest(cfg)]
    ensures o.result.Failure? && !(o.result.error.WrongType? && o.result.error.what == "expires_in") ==> o.cache == c
  {
    if IsFresh(c, env.now) then TokenOutcome(c, Success(c.accessToken), [])
    else
      var o := Refresh(c, env.reply, env.later);
      TokenOutcome(o.cache, o.result, [TokenRequest(cfg)])
  }

  /** A token endpoint answer that carries a string token and, optionally, an integer
      lifetime. */
  predicate GoodTokenReply(reply: HttpResult, token: string, expiresIn: Option<int>)
  {
    && reply.Response? && !RaisesForStatus(reply.status)
    && reply.body.Some? && reply.body.value.Dict?
    && "access_token" in reply.body.value.fields && reply.body.value.fields["access_token"] == Str(token)
    && (expiresIn.None? <==> "expires_in" !in reply.body.value.fields)
    && (expiresIn.Some? ==> reply.body.value.fields["expires_in"] == Int(expiresIn.value))
  }

  /** A fresh cached token is returned with no request and no state change. */
  lemma FreshTokenReused(cfg: Config, c: TokenCache, env: TokenEnv)
    requires IsFresh(c, env.now)
    ensures AccessToken(cfg, c, env) == TokenOutcome(c, Success(c.accessToken), [])
  {
  }

  /** Otherwise a good answer stores the new token with expiry `later + expires_in`
      (0 when absent) and returns it. */
  lemma RefreshStoresToken(cfg: Config, c: TokenCache, env: TokenEnv, token: string, expiresIn: Option<int>)
    requires !IsFresh(c, env.now)
    requires GoodTokenReply(env.reply, token, expiresIn)
    ensures var o := AccessToken(cfg, c, env);
      && o.cache == TokenCache(Some(token), Some(env.later + if expiresIn.Some? then expiresIn.value else 0))
      && o.result == Success(Some(token))
      && o.sent == [TokenRequest(cfg)]
  {
  }

  /** Without `expires_in` the new token expires at once: a call at the same clock
      reading, or any later one, refreshes again. */
  lemma AbsentLifetimeRefreshesAgain(cfg: Config, c: TokenCache, env: TokenEnv, token: string, env2: TokenEnv)
    requires !IsFresh(c, env.now)
    requires GoodTokenReply(env.reply, token, None)
    requires env2.now >= env.later
    ensures var o := AccessToken(cfg, c, env);
      !IsFresh(o.cache, env2.now) && AccessToken(cfg, o.cache, env2).sent == [TokenRequest(cfg)]
  {
    RefreshStoresToken(cfg, c, env, token, None);
  }

  /** A refresh that raises before the token is assigned (no connection, error status,
      a non-JSON or non-object body, no `access_token`) keeps both fields. */
  lemma FailedRefreshKeepsCache(cfg: Config, c: TokenCache, env: TokenEnv)
    requires !IsFresh(c, env.now)
    requires || env.reply.Unreachable?
             || RaisesForStatus(env.reply.status)
             || env.reply.body.None?
             || !env.reply.body.value.Dict?
             || "access_token" !in env.reply.body.value.fields
    ensures AccessToken(cfg, c, env).cache == c && AccessToken(cfg, c, env).result.Failure?
  {
  }

  /** A non-numeric `expires_in` raises after the token was assigned: the token is
      replaced, the expiry kept. */
  lemma BadLifetimeReplacesTokenOnly(cfg: Config, c: TokenCache, env: TokenEnv, token: string)
    requires !IsFresh(c, env.now)
    requires env.reply.Response? && !RaisesForStatus(env.reply.status)
    requires env.reply.body.Some? && env.reply.body.value.Dict?
    requires "access_token" in env.reply.body.value.fields && env.reply.body.value.fields["access_token"] == Str(token)
    requires "expires_in" in env.reply.body.value.fields && !env.reply.body.value.fields["expires_in"].Int?
    ensures AccessToken(cfg, c, env).cache == TokenCache(Some(token), c.tokenExpiry)
    ensures AccessToken(cfg, c, env).result == Failure(WrongType("expires_in"))
  {
  }

  /** An empty or missing token is never reused, whatever the expiry. */
  lemma EmptyTokenNotReused(cfg: Config, c: TokenCache, env: TokenEnv)
    requires c.accessToken == None || c.accessToken == Some("")
    ensures AccessToken(cfg, c, env).sent == [TokenRequest(cfg)]
  {
  }

  /** The result of a Helix call: new cache, the value or exception, requests sent. */
  datatype ApiOutcome = ApiOutcome(cache: TokenCache, result: Result<Value, Fault>, sent: seq<HttpRequest>)

  /** The text of `f'Bearer {access_token}'`. */
  function TokenText(t: Option<string>): string
  {
    if t.Some? then t.value else "None"
  }

  function AuthHeaders(cfg: Config, token: Option<string>): map<string, string>
  {
    map["Client-ID" := cfg.clientId, "Authorization" := "Bearer " + TokenText(token)]
  }

  /** `raise_for_status()` then `response.json().get('data', [])`. */
  function DataOf(reply: HttpResult): (r: Result<Value, Fault>)
    ensures r.Success? <==> reply.Response? && !RaisesForStatus(reply.status) && reply.body.Some? && reply.body.value.Dict?
    ensures r.Success? && "data" !in reply.body.value.fields ==> r.value == List([])
    ensures r.Success? && "data" in reply.body.value.fields ==> r.value == reply.body.value.fields["data"]
  {
    match reply
    case Unreachable => Failure(ConnectionFailed)
    case Response(status, body) =>
      if RaisesForStatus(status) then Failure(HttpStatus(status))
      else if body.None? then Failure(NotJson)
      else if !body.value.Dict? then Failure(WrongType("response"))
      else if "data" in body.value.fields then Success(body.value.fields["data"])
      else Success(List([]))
  }

  /** The shared pattern: a token, then one authorised GET, then its `data`. */
  function ApiGet(cfg: Config, c: TokenCache, env: TokenEnv, path: string, params: map<string, Value>, reply: HttpResult): (o: ApiOutcome)
    ensures o.cache == AccessToken(cfg, c, env).cache
    ensures AccessToken(cfg, c, env).result.Success? ==> o.result == DataOf(reply)
    ensures AccessToken(cfg, c, env).result.Failure? ==> o.result == Failure(AccessToken(cfg, c, env).result.error)
  {
    var t := AccessToken(cfg, c, env);
    if t.result.Failure? then ApiOutcome(t.cache, Failure(t.result.error), t.sent)
    else ApiOutcome(t.cache, DataOf(reply), t.sent + [Get(cfg.apiBaseUrl + path, AuthHeaders(cfg, t.result.value), params)])
  }

  /** Every call obtains the token first and sends it with the client id; a reply
      without `data` gives `[]`. */
  lemma ApiGetSendsToken(cfg: Config, c: TokenCache, env: TokenEnv, path: string, params: map<string, Value>, reply: HttpResult)
    ensures var o := ApiGet(cfg, c, env, path, params, reply);
      var t := AccessToken(cfg, c, env);
      && o.cache == t.cache
      && (t.result.Failure? ==> o.result == Failure(t.result.error) && o.sent == t.sent)
      && (t.result.Success? ==>
            && o.sent[..|t.sent|] == t.sent && |o.sent| == |t.sent| + 1
            && o.sent[|t.sent|].Get?
            && o.sent[|t.sent|].url == cfg.apiBaseUrl + path
            && o.sent[|t.sent|].params == params
            && o.sent[|t.sent|].headers.Keys == {"Client-ID", "Authorization"}
            && o.sent[|t.sent|].headers["Client-ID"] == cfg.clientId
            && o.sent[|t.sent|].headers["Authorization"] == "Bearer " + TokenText(t.result.value)
            && o.result == DataOf(reply))
  {
  }

  /** `autocomplete_games`. */
  function Autocomplete(cfg: Config, c: TokenCache, env: TokenEnv, query: string, reply: HttpResult): (o: ApiOutcome)
    ensures forall q | q in o.sent && q.Get? :: q.url == cfg.apiBaseUrl + "/search/categories" && q.params == map["query" := Str(query)]
  {
    ApiGet(cfg, c, env, "/search/categories", map["query" := Str(query)], reply)
  }

  /** `get_videos_by_game_id`: a page of 10 videos. */
  function VideosByGameId(cfg: Config, c: TokenCache, env: TokenEnv, gameId: Value, reply: HttpResult): (o: ApiOutcome)
    ensures forall q | q in o.sent && q.Get? :: q.params == map["game_id" := gameId, "first" := Int(10)]
  {
    ApiGet(cfg, c, env, "/videos", map["game_id" := gameId, "first" := Int(10)], reply)
  }

  /** `if not data: return None` then `data[0]['id']`; Python's None is `Null`. */
  function FirstId(data: Value): (r: Result<Value, Fault>)
    ensures !Truthy(data) ==> r == Success(Null)
    ensures data.List? && |data.items| > 0 && data.items[0].Dict? && "id" in data.items[0].fields ==>
              r == Success(data.items[0].fields["id"])
    ensures r.Success? && Truthy(data) ==> data.List? && data.items[0].Dict? && "id" in data.items[0].fields
  {
    if !Truthy(data) then Success(Null)
    else match data
      case List(items) =>
        if !items[0].Dict? then Failure(WrongType("data[0]"))
        else if "id" !in items[0].fields then Failure(MissingKey("id"))
        else Success(items[0].fields["id"])
      case Dict(_) => Failure(MissingKey("0"))
      case _ => Failure(WrongType("data"))
  }

  /** `get_game_id`. */
  function GameId(cfg: Config, c: TokenCache, env: TokenEnv, name: string, reply: HttpResult): (o: ApiOutcome)
    ensures var a := ApiGet(cfg, c, env, "/games", map["name" := Str(name)], reply);
      o.cache == a.cache && o.sent == a.sent &&
      (a.result.Failure? ==> o.result == a.result) &&
      (a.result.Success? ==> o.result == FirstId(a.result.value))
  {
    var a := ApiGet(cfg, c, env, "/games", map["name" := Str(name)], reply);
    if a.result.Failure? then a else ApiOutcome(a.cache, FirstId(a.result.value), a.sent)
  }

  /** An empty or missing `data` gives no game id. */
  lemma NoGameWithoutData(cfg: Config, c: TokenCache, env: TokenEnv, name: string, reply: HttpResult)
    requires AccessToken(cfg, c, env).result.Success?
    requires reply.Response? && !RaisesForStatus(reply.status) && reply.body.Some? && reply.body.value.Dict?
    requires "data" !in reply.body.value.fields || reply.body.value.fields["data"] == List([])
    ensures GameId(cfg, c, env, name, reply).result == Success(Null)
  {
  }

  /** `search_videos_by_game_name`: two token checks, and the video listing only for a
      truthy game id. */
  function SearchVideos(cfg: Config, c: TokenCache, name: string, env1: TokenEnv, gamesReply: HttpResult,
                        env2: TokenEnv, videosReply: HttpResult): (o: ApiOutcome)
    ensures var g := GameId(cfg, c, env1, name, gamesReply);
      (g.result.Failure? ==> o == g) &&
      (g.result.Success? && !Truthy(g.result.value) ==> o == ApiOutcome(g.cache, Success(List([])), g.sent))
  {
    var g := GameId(cfg, c, env1, name, gamesReply);
    if g.result.Failure? then g
    else if !Truthy(g.result.value) then ApiOutcome(g.cache, Success(List([])), g.sent)
    else
      var v := VideosByGameId(cfg, g.cache, env2, g.result.value, videosReply);
      ApiOutcome(v.cache, v.result, g.sent + v.sent)
  }

  /** A truthy game id is passed on: the search returns exactly the listing for it,
      and a falsy one sends no request for videos. */
  lemma SearchDelegates(cfg: Config, c: TokenCache, name: string, env1: TokenEnv, gamesReply: HttpResult,
                        env2: TokenEnv, videosReply: HttpResult)
    ensures var g := GameId(cfg, c, env1, name, gamesReply);
      var o := SearchVideos(cfg, c, name, env1, gamesReply, env2, videosReply);
      && (g.result.Success? && Truthy(g.result.value) ==>
            var v := VideosByGameId(cfg, g.cache, env2, g.result.value, videosReply);
            o.result == v.result && o.cache == v.cache && o.sent == g.sent + v.sent)
      && (g.result.Success? && !Truthy(g.result.value) ==>
            forall q | q in o.sent && q.Get? :: q.url == cfg.apiBaseUrl + "/games")
  {
    var g := GameId(cfg, c, env1, name, gamesReply);
    var a := ApiGet(cfg, c, env1, "/games", map["name" := Str(name)], gamesReply);
    ApiGetSendsToken(cfg, c, env1, "/games", map["name" := Str(name)], gamesReply);
    var t := AccessToken(cfg, c, env1);
    if g.result.Success? && !Truthy(g.result.value) {
      assert forall q | q in t.sent :: q.Post?;
      forall q | q in g.sent && q.Get?
        ensures q.url == cfg.apiBaseUrl + "/games"
      {
        if q !in t.sent {
          assert q == g.sent[|t.sent|];
        }
      }
    }
  }

  /** The service object: its settings, the two cached fields, and (ghost) the
      requests it has sent. */
  class TwitchService {
    const config: Config
    var accessToken: Option<string>
    var tokenExpiry: Option<int>
    ghost var sent: seq<HttpRequest>

    function Cache(): TokenCache
      reads this
    {
      TokenCache(accessToken, tokenExpiry)
    }

    constructor (cfg: Config)
      ensures config == cfg && Cache() == TokenCache(None, None) && sent == []
    {
      config := cfg;
      accessToken := None;
      tokenExpiry := None;
      sent := [];
    }

    method GetAccessToken(env: TokenEnv) returns (r: Result<Option<string>, Fault>)
      modifies this
      ensures var o := AccessToken(config, old(Cache()), env);
        Cache() == o.cache && r == o.result && sent == old(sent) + o.sent
    {
      if Given(accessToken) && tokenExpiry.Some? && env.now < tokenExpiry.value {
        return Success(accessToken);
      }
      sent := sent + [TokenRequest(config)];
      if env.reply.Unreachable? {
        return Failure(ConnectionFailed);
      }
      if RaisesForStatus(env.reply.status) {
        return Failure(HttpStatus(env.reply.status));
      }
      if env.reply.body.None? {
        return Failure(NotJson);
      }
      var body := env.reply.body.value;
      if !body.Dict? {
        return Failure(WrongType("token response"));
      }
      if "access_token" !in body.fields {
        return Failure(MissingKey("access_token"));
      }
      var tokenValue := body.fields["access_token"];
      if !(tokenValue.Str? || tokenValue.Null?) {
        return Failure(WrongType("access_token"));
      }
      accessToken := if tokenValue.Str? then Some(tokenValue.s) else None;
      var expiresIn := 0;
      if "expires_in" in body.fields {
        if !body.fields["expires_in"].Int? {
          return Failure(WrongType("expires_in"));
        }
        expiresIn := body.fields["expires_in"].n;
      }
      tokenExpiry := Some(env.later + expiresIn);
      return Success(accessToken);
    }

    /** The authorised GET shared by the three calls. */
    method AuthorisedGet(env: TokenEnv, path: string, params: map<string, Value>, reply: HttpResult) returns (r: Result<Value, Fault>)
      modifies this
      ensures var o := ApiGet(config, old(Cache()), env, path, params, reply);
        Cache() == o.cache && r == o.result && sent == old(sent) + o.sent
    {
      var token := GetAccessToken(env);
      if token.Failure? {
        return Failure(token.error);
      }
      sent := sent + [Get(config.apiBaseUrl + path, AuthHeaders(config, token.value), params)];
      r := DataOf(reply);
    }

    method AutocompleteGames(env: TokenEnv, query: string, reply: HttpResult) returns (r: Result<Value, Fault>)
      modifies this
      ensures var o := Autocomplete(config, old(Cache()), env, query, reply);
        Cache() == o.cache && r == o.result && sent == old(sent) + o.sent
    {
      r := AuthorisedGet(env, "/search/categories", map["query" := Str(query)], reply);
    }

    method GetGameId(env: TokenEnv, name: string, reply: HttpResult) returns (r: Result<Value, Fault>)
      modifies this
      ensures var o := GameId(config, old(Cache()), env, name, reply);
        Cache() == o.cache && r == o.result && sent == old(sent) + o.sent
    {
      var data := AuthorisedGet(env, "/games", map["name" := Str(name)], reply);
      if data.Failure? {
        return data;
      }
      r := FirstId(data.value);
    }

    method GetVideosByGameId(env: TokenEnv, gameId: Value, reply: HttpResult) returns (r: Result<Value, Fault>)
      modifies this
      ensures var o := VideosByGameId(config, old(Cache()), env, gameId, reply);
        Cache() == o.cache && r == o.result && sent == old(sent) + o.sent
    {
      r := AuthorisedGet(env, "/videos", map["game_id" := gameId, "first" := Int(10)], reply);
    }

    method SearchVideosByGameName(name: string, env1: TokenEnv, gamesReply: HttpResult,
                                  env2: TokenEnv, videosReply: HttpResult) returns (r: Result<Value, Fault>)
      modifies this
      ensures var o := SearchVideos(config, old(Cache()), name, env1, gamesReply, env2, videosReply);
        Cache() == o.cache && r == o.result && sent == old(sent) + o.sent
    {
      var gameId := GetGameId(env1, name, gamesReply);
      if gameId.Failure? {
        return gameId;
      }
      if !Truthy(gameId.value) {
        return Success(List([]));
      }
      r := GetVideosByGameId(env2, gameId.value, videosReply);
    }
  }
}
