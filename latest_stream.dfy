/**
 * The latest-stream GET handler: after the credential gate it fetches the
 * channel list and the platform list and renders every channel as a row of
 * an HTML table, with the name of its platform.
 *
 * The fetched replies and the clock are parameters; the KV binding is a
 * `KvStore`.  Unlike the stream-start handler, an `error` in either reply is
 * answered with 401 whatever status the upstream gave.
 */
module LatestStream {
  import opened Types
  import opened Credentials
  import opened Shaping

  /**
   * The handler after the gate: two fetches with error checks, then the
   * table.  A reply with an empty `error` is not caught: the platform list is
   * still requested, and the first `for...of` over the error object throws.
   */
  function Render(
    gateCalls: seq<Call>, bearer: string, channels: ApiReply<ListedChannel>, platforms: ApiReply<Platform>): (r: Run)
    // a page is served only when both lists arrived and every channel's platform is known
    ensures r.result.Responded? && r.result.response.body.Html? ==>
      channels.Items? && platforms.Items? && r.result.response.status == 200 &&
      PlatformsKnown(channels.items, IndexBy(platforms.items, PlatformKey))
    // every other response is a 401
    ensures r.result.Responded? && !r.result.response.body.Html? ==> r.result.response.status == 401
  {
    var afterChannels := gateCalls + [ChannelList(bearer)];
    if Errored(channels) then Run(Responded(TextResponse(401, channels.error)), afterChannels)
    else
      var afterPlatforms := afterChannels + [PlatformList];
      if Errored(platforms) then Run(Responded(TextResponse(401, platforms.error)), afterPlatforms)
      else if channels.Failure? || platforms.Failure? then Run(Thrown, afterPlatforms)
      else
        match Table(channels.items, IndexBy(platforms.items, PlatformKey))
        case None => Run(Thrown, afterPlatforms)
        case Some(html) => Run(Responded(Response(200, Html(html))), afterPlatforms)
  }

  /** The whole effect of one invocation of the handler. */
  function Handle(
    store: Store, now: int, token: TokenReply, channels: ApiReply<ListedChannel>, platforms: ApiReply<Platform>)
    : (r: Outcome)
    // no request is made before all six credentials are found
    ensures r.calls != [] ==> Credentialed(store)
    // the store is written only when the access token had expired and was refreshed
    ensures r.store != store ==> Credentialed(store) && Passed(now, store[AccessTokenExpKey]) && token.Granted?
  {
    match FirstMissing(RequiredParams(store))
    case Some(name) => Outcome(Responded(TextResponse(400, name + " Not Found")), store, [])
    case None =>
      MissingNoneIffCredentialed(store);
      var gate := Refresh(store, now, token);
      match gate.result
      case Halt(response) => Outcome(Responded(response), gate.store, gate.calls)
      case Proceed(bearer) =>
        var run := Render(gate.calls, bearer, channels, platforms);
        Outcome(run.result, gate.store, run.calls)
  }

  /** `onRequest`, step by step. */
  method OnRequest(
    kv: KvStore, now: int, token: TokenReply, channels: ApiReply<ListedChannel>, platforms: ApiReply<Platform>)
    returns (result: Result, calls: seq<Call>)
    modifies kv
    ensures Outcome(result, kv.entries, calls) == Handle(old(kv.entries), now, token, channels, platforms)
  {
    var missing := ReadRequired(kv);
    if missing.Some? {
      return Responded(TextResponse(400, missing.value + " Not Found")), [];
    }
    MissingNoneIffCredentialed(kv.entries);
    var gate;
    gate, calls := RefreshIfExpired(kv, now, token);
    if gate.Halt? {
      return Responded(gate.response), calls;
    }
    result, calls := FetchAndRender(calls, gate.accessToken, channels, platforms);
  }

  /** The two fetches, the loop that fills `platformMap` and the loop that builds `html`. */
  method FetchAndRender(
    gateCalls: seq<Call>, bearer: string, channels: ApiReply<ListedChannel>, platforms: ApiReply<Platform>)
    returns (result: Result, calls: seq<Call>)
    ensures Run(result, calls) == Render(gateCalls, bearer, channels, platforms)
  {
    calls := gateCalls + [ChannelList(bearer)];
    if Errored(channels) {
      return Responded(TextResponse(401, channels.error)), calls;
    }
    calls := calls + [PlatformList];
    if Errored(platforms) {
      return Responded(TextResponse(401, platforms.error)), calls;
    }
    if channels.Failure? || platforms.Failure? {
      return Thrown, calls;
    }
    var platformMap := BuildIndex(platforms.items, PlatformKey);
    var html := RenderTable(channels.items, platformMap);
    if html.None? {
      return Thrown, calls;
    }
    return Responded(Response(200, Html(html.value))), calls;
  }

  // ---------------------------------------------------------------------------
  // Properties of the handler
  // ---------------------------------------------------------------------------

  /** A missing or empty credential is a 400 naming the first one in list order, with no call and no write. */
  lemma MissingCredentialFailsFast(
    store: Store, now: int, token: TokenReply, channels: ApiReply<ListedChannel>, platforms: ApiReply<Platform>)
    requires !Credentialed(store)
    ensures var missing := FirstMissing(RequiredParams(store));
      missing.Some? &&
      Handle(store, now, token, channels, platforms) ==
        Outcome(Responded(TextResponse(400, missing.value + " Not Found")), store, [])
  {
    MissingNoneIffCredentialed(store);
  }

  /**
   * An unexpired access token: no token request and no write; the channel
   * list is requested with the stored token as Bearer.
   */
  lemma UnexpiredTokenIsUsedAsStored(
    store: Store, now: int, token: TokenReply, channels: ApiReply<ListedChannel>, platforms: ApiReply<Platform>)
    requires Credentialed(store) && !Passed(now, store[AccessTokenExpKey])
    ensures var out := Handle(store, now, token, channels, platforms);
      out.store == store && |out.calls| > 0 && out.calls[0] == ChannelList(store[AccessTokenKey]) &&
      forall i :: 0 <= i < |out.calls| ==> !out.calls[i].TokenRequest?
  {
    MissingNoneIffCredentialed(store);
    assert Refresh(store, now, token) == Step(Proceed(store[AccessTokenKey]), store, []);
    RenderCalls([], store[AccessTokenKey], channels, platforms);
  }

  /** Both tokens expired: 401 "Refresh Token Expired", with no call and no write. */
  lemma ExpiredRefreshTokenHalts(
    store: Store, now: int, token: TokenReply, channels: ApiReply<ListedChannel>, platforms: ApiReply<Platform>)
    requires Credentialed(store)
    requires Passed(now, store[AccessTokenExpKey]) && Passed(now, store[RefreshTokenExpKey])
    ensures Handle(store, now, token, channels, platforms) ==
      Outcome(Responded(TextResponse(401, "Refresh Token Expired")), store, [])
  {
    MissingNoneIffCredentialed(store);
  }

  /** A token reply with an error is a 401 with that message, and nothing is written. */
  lemma RefusedRefreshWritesNothing(
    store: Store, now: int, error: string, channels: ApiReply<ListedChannel>, platforms: ApiReply<Platform>)
    requires Credentialed(store)
    requires Passed(now, store[AccessTokenExpKey]) && !Passed(now, store[RefreshTokenExpKey])
    ensures Handle(store, now, Refused(error), channels, platforms) ==
      Outcome(Responded(TextResponse(401, error)), store,
              [TokenRequest(store[ClientIdKey], store[ClientSecretKey], store[RefreshTokenKey])])
  {
    MissingNoneIffCredentialed(store);
  }

  /**
   * A granted refresh writes the four rotating values from the reply, leaves
   * the client id and secret alone, and the channel list is requested with
   * the new access token.
   */
  lemma GrantedRefreshIsUsed(
    store: Store, now: int, token: TokenReply, channels: ApiReply<ListedChannel>, platforms: ApiReply<Platform>)
    requires Credentialed(store)
    requires Passed(now, store[AccessTokenExpKey]) && !Passed(now, store[RefreshTokenExpKey])
    requires token.Granted?
    ensures var out := Handle(store, now, token, channels, platforms);
      out.store == Rotate(store, token.accessToken, token.refreshToken, token.accessExpiresEpoch, token.refreshExpiresEpoch) &&
      out.store[ClientIdKey] == store[ClientIdKey] && out.store[ClientSecretKey] == store[ClientSecretKey] &&
      |out.calls| >= 2 &&
      out.calls[0] == TokenRequest(store[ClientIdKey], store[ClientSecretKey], store[RefreshTokenKey]) &&
      out.calls[1] == ChannelList(token.accessToken)
  {
    MissingNoneIffCredentialed(store);
    var call := TokenRequest(store[ClientIdKey], store[ClientSecretKey], store[RefreshTokenKey]);
    var rotated := Rotate(store, token.accessToken, token.refreshToken, token.accessExpiresEpoch, token.refreshExpiresEpoch);
    assert Refresh(store, now, token) == Step(Proceed(token.accessToken), rotated, [call]);
    RenderCalls([call], token.accessToken, channels, platforms);
  }

  /**
   * After the gate's calls, the channel list is requested first, with the
   * gate's token as Bearer, and no token request follows.
   */
  lemma RenderCalls(
    gateCalls: seq<Call>, bearer: string, channels: ApiReply<ListedChannel>, platforms: ApiReply<Platform>)
    ensures var out := Render(gateCalls, bearer, channels, platforms);
      |gateCalls| < |out.calls| <= |gateCalls| + 2 &&
      out.calls[..|gateCalls|] == gateCalls && out.calls[|gateCalls|] == ChannelList(bearer) &&
      (|out.calls| == |gateCalls| + 2 ==> out.calls[|gateCalls| + 1] == PlatformList) &&
      forall i :: |gateCalls| <= i < |out.calls| ==> !out.calls[i].TokenRequest?
  {
  }

  /**
   * A non-empty `error` in the channel reply is a 401 whatever the upstream
   * status, and the platform list is never requested; a non-empty `error` in
   * the platform reply is a 401 as well.
   */
  lemma UpstreamErrorIsUnauthorized(
    gateCalls: seq<Call>, bearer: string, channels: ApiReply<ListedChannel>, platforms: ApiReply<Platform>)
    ensures var out := Render(gateCalls, bearer, channels, platforms);
      (Errored(channels) ==>
        out == Run(Responded(TextResponse(401, channels.error)), gateCalls + [ChannelList(bearer)])) &&
      (!Errored(channels) && Errored(platforms) ==>
        out == Run(Responded(TextResponse(401, platforms.error)), gateCalls + [ChannelList(bearer), PlatformList]))
  {
  }

  /**
   * A reply with an empty `error` is not caught: both lists are requested and
   * the handler throws.
   */
  lemma EmptyErrorThrows(
    gateCalls: seq<Call>, bearer: string, channels: ApiReply<ListedChannel>, platforms: ApiReply<Platform>)
    requires !Errored(channels) && !Errored(platforms)
    requires channels.Failure? || platforms.Failure?
    ensures Render(gateCalls, bearer, channels, platforms) ==
      Run(Thrown, gateCalls + [ChannelList(bearer), PlatformList])
  {
  }

  /**
   * With both lists fetched and every `platformId` known, the page is the
   * header row, then one row per channel in input order, each with the name
   * of the platform its `platformId` maps to, then `</table>`.
   */
  lemma TableHasOneRowPerChannel(
    gateCalls: seq<Call>, bearer: string, cs: seq<ListedChannel>, ps: seq<Platform>)
    requires forall j :: 0 <= j < |cs| ==> exists k :: 0 <= k < |ps| && ps[k].id == cs[j].platformId
    ensures var platformMap := IndexBy(ps, PlatformKey);
      var rows := RowTexts(cs, platformMap);
      rows.Some? && |rows.value| == |cs| &&
      (forall i :: 0 <= i < |cs| ==> rows.value[i] == Row(cs[i], platformMap[cs[i].platformId].name)) &&
      Render(gateCalls, bearer, Items(cs), Items(ps)) ==
        Run(Responded(Response(200, Html(TableHeader + Concat(rows.value) + TableFooter))),
            gateCalls + [ChannelList(bearer), PlatformList])
  {
    assert PlatformsKnown(cs, IndexBy(ps, PlatformKey));
  }

  /** A channel whose `platformId` matches no platform makes the row lookup throw. */
  lemma UnknownPlatformThrows(
    gateCalls: seq<Call>, bearer: string, cs: seq<ListedChannel>, ps: seq<Platform>, i: nat)
    requires i < |cs|
    requires forall k :: 0 <= k < |ps| ==> ps[k].id != cs[i].platformId
    ensures Render(gateCalls, bearer, Items(cs), Items(ps)) ==
      Run(Thrown, gateCalls + [ChannelList(bearer), PlatformList])
  {
    assert !PlatformsKnown(cs, IndexBy(ps, PlatformKey));
  }
}
