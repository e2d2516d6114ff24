/**
 * The stream-start POST handler: it checks the cached credentials and the
 * admin key, refreshes the access token when needed, fetches the platform
 * list, the in-progress events and the channel list, and posts one
 * MessageCard per in-progress event to the Teams webhook.
 *
 * The fetched replies, the clock, the `key` query value and the `AdminKey`
 * binding are parameters; the KV binding is a `KvStore`.
 */
module OnStreamStart {
  import opened Types
  import opened Credentials
  import opened Shaping

  /**
   * `key !== AdminKey`, with `key` null when the query has none and `AdminKey`
   * undefined when it is not configured: only a present, equal key passes.
   */
  predicate Authorized(key: Option<string>, adminKey: Option<string>)
    // only the configured key itself passes
    ensures Authorized(key, adminKey) ==> adminKey.Some? && key == adminKey
    // with `AdminKey` unset every request is refused, one without `key` included (`null !== undefined`)
    ensures adminKey.None? ==> !Authorized(key, adminKey)
  {
    key.Some? && key == adminKey
  }

  /** A call the handler makes after the gate: a list fetch, with `bearer` where it needs one, or a webhook post. */
  predicate Fetch(c: Call, bearer: string) {
    c.PlatformList? || c.TeamsPost? || ((c.InProgressEvents? || c.ChannelList?) && c.bearer == bearer)
  }

  /**
   * The handler after the gate: three fetches with error short-circuits, then
   * the card posts.  A reply with an empty `error` is not caught: the handler
   * goes on and throws at the first `for...of` over it (the platform loop, the
   * channel loop, or the event loop, which runs after the channel fetch).
   */
  function Notify(
    gateCalls: seq<Call>, bearer: string,
    platforms: ApiReply<Platform>, events: ApiReply<Event>, channels: ApiReply<Channel>): (r: Run)
    // the events are returned only after every one of them got its post
    ensures r.result.Responded? && r.result.response.body.EventsJson? ==>
      events.Items? && |events.items| > 0 && r.result.response == Response(200, EventsJson(events.items)) &&
      |r.calls| == |gateCalls| + 3 + |events.items|
    // the gate's calls come first, then only the fetches, with `bearer`, and the webhook posts
    ensures |gateCalls| < |r.calls| && r.calls[..|gateCalls|] == gateCalls
    ensures forall i :: |gateCalls| <= i < |r.calls| ==> Fetch(r.calls[i], bearer)
    // a throw happens only after the three fetches, or after an uncaught empty error
    ensures r.result.Thrown? ==>
      |r.calls| >= |gateCalls| + 3 || (platforms.Failure? && !Errored(platforms))
  {
    var afterPlatforms := gateCalls + [PlatformList];
    if Errored(platforms) then Run(Responded(TextResponse(platforms.status, platforms.error)), afterPlatforms)
    else if platforms.Failure? then Run(Thrown, afterPlatforms)
    else
      var afterEvents := afterPlatforms + [InProgressEvents(bearer)];
      if Errored(events) then Run(Responded(TextResponse(events.status, events.error)), afterEvents)
      else
        var afterChannels := afterEvents + [ChannelList(bearer)];
        if Errored(channels) then Run(Responded(TextResponse(channels.status, channels.error)), afterChannels)
        else if channels.Failure? || events.Failure? then Run(Thrown, afterChannels)
        else
          var posting := PostCards(events.items, IndexBy(platforms.items, PlatformKey), IndexBy(channels.items, ChannelKey));
          var allCalls := afterChannels + posting.posts;
          // with no events `post` is never assigned, and `post["@type"] = ...` throws
          if posting.threw || |events.items| == 0 then Run(Thrown, allCalls)
          else Run(Responded(Response(200, EventsJson(events.items))), allCalls)
  }

  /** The whole effect of one invocation of the handler. */
  function Handle(
    store: Store, now: int, key: Option<string>, adminKey: Option<string>, token: TokenReply,
    platforms: ApiReply<Platform>, events: ApiReply<Event>, channels: ApiReply<Channel>): (r: Outcome)
    // no request is made before the credentials and the admin key have passed
    ensures r.calls != [] ==> Credentialed(store) && Authorized(key, adminKey)
    // the store is written only for an authorized request whose access token had expired and was refreshed
    ensures r.store != store ==>
      Credentialed(store) && Authorized(key, adminKey) && Passed(now, store[AccessTokenExpKey]) && token.Granted?
  {
    match FirstMissing(RequiredParams(store))
    case Some(name) => Outcome(Responded(TextResponse(400, name + " Not Found")), store, [])
    case None =>
      MissingNoneIffCredentialed(store);
      if !Authorized(key, adminKey) then Outcome(Responded(TextResponse(401, "Unauthorized")), store, [])
      else
        var gate := Refresh(store, now, token);
        match gate.result
        case Halt(response) => Outcome(Responded(response), gate.store, gate.calls)
        case Proceed(bearer) =>
          var run := Notify(gate.calls, bearer, platforms, events, channels);
          Outcome(run.result, gate.store, run.calls)
  }

  /** `onRequestPost`, step by step. */
  method OnRequestPost(
    kv: KvStore, now: int, key: Option<string>, adminKey: Option<string>, token: TokenReply,
    platforms: ApiReply<Platform>, events: ApiReply<Event>, channels: ApiReply<Channel>)
    returns (result: Result, calls: seq<Call>)
    modifies kv
    ensures Outcome(result, kv.entries, calls) == Handle(old(kv.entries), now, key, adminKey, token, platforms, events, channels)
  {
    var missing := ReadRequired(kv);
    if missing.Some? {
      return Responded(TextResponse(400, missing.value + " Not Found")), [];
    }
    if !Authorized(key, adminKey) {
      return Responded(TextResponse(401, "Unauthorized")), [];
    }
    MissingNoneIffCredentialed(kv.entries);
    var gate;
    gate, calls := RefreshIfExpired(kv, now, token);
    if gate.Halt? {
      return Responded(gate.response), calls;
    }
    result, calls := FetchAndPost(calls, gate.accessToken, platforms, events, channels);
  }

  /** The three fetches, the two map-building loops and the loop over in-progress events. */
  method FetchAndPost(
    gateCalls: seq<Call>, bearer: string,
    platforms: ApiReply<Platform>, events: ApiReply<Event>, channels: ApiReply<Channel>)
    returns (result: Result, calls: seq<Call>)
    ensures Run(result, calls) == Notify(gateCalls, bearer, platforms, events, channels)
  {
    calls := gateCalls + [PlatformList];
    if Errored(platforms) {
      return Responded(TextResponse(platforms.status, platforms.error)), calls;
    }
    if platforms.Failure? {
      return Thrown, calls;
    }
    var platformMap := BuildIndex(platforms.items, PlatformKey);

    calls := calls + [InProgressEvents(bearer)];
    if Errored(events) {
      return Responded(TextResponse(events.status, events.error)), calls;
    }

    calls := calls + [ChannelList(bearer)];
    if Errored(channels) {
      return Responded(TextResponse(channels.status, channels.error)), calls;
    }
    if channels.Failure? || events.Failure? {
      return Thrown, calls;
    }
    var channelMap := BuildIndex(channels.items, ChannelKey);
    var inProgress := events.items;

    var posting := PostAll(inProgress, platformMap, channelMap);
    calls := calls + posting.posts;
    if posting.threw {
      return Thrown, calls;
    }
    if |inProgress| == 0 {
      // the no-events alert writes into `post`, which the loop never assigned
      return Thrown, calls;
    }
    return Responded(Response(200, EventsJson(inProgress))), calls;
  }

  /** The loop over in-progress events: build each card's facts, then post the card. */
  method PostAll(inProgress: seq<Event>, platformMap: map<int, Platform>, channelMap: map<int, Channel>)
    returns (posting: Posting)
    ensures posting == PostCards(inProgress, platformMap, channelMap)
  {
    var posts: seq<Call> := [];
    for i := 0 to |inProgress|
      invariant PostCards(inProgress[..i], platformMap, channelMap) == Posting(posts, false)
    {
      var facts := BuildFacts(inProgress[i].destinations, platformMap, channelMap);
      if facts.None? {
        PostCardsStops(inProgress, i, platformMap, channelMap);
        return Posting(posts, true);
      }
      var post := Card(inProgress[i].title, facts.value);
      PostCardsSnoc(inProgress, i, platformMap, channelMap);
      posts := posts + [TeamsPost(post)];
    }
    assert inProgress[..|inProgress|] == inProgress;
    return Posting(posts, false);
  }

  // ---------------------------------------------------------------------------
  // Properties of the handler
  // ---------------------------------------------------------------------------

  /** Every bearer token the handler sends. */
  predicate BearersAre(calls: seq<Call>, token: string) {
    forall i :: 0 <= i < |calls| && (calls[i].InProgressEvents? || calls[i].ChannelList?) ==> calls[i].bearer == token
  }

  /**
   * A missing or empty credential is reported by the label of the first one in
   * list order, with status 400, before the admin key is looked at, with no
   * call and no write.
   */
  lemma MissingCredentialFailsFast(
    store: Store, now: int, key: Option<string>, adminKey: Option<string>, token: TokenReply,
    platforms: ApiReply<Platform>, events: ApiReply<Event>, channels: ApiReply<Channel>)
    requires !Credentialed(store)
    ensures var missing := FirstMissing(RequiredParams(store));
      missing.Some? &&
      Handle(store, now, key, adminKey, token, platforms, events, channels) ==
        Outcome(Responded(TextResponse(400, missing.value + " Not Found")), store, [])
  {
    MissingNoneIffCredentialed(store);
  }

  /** With all credentials present, a wrong or absent admin key is a 401 with no call and no write. */
  lemma WrongAdminKeyIsUnauthorized(
    store: Store, now: int, key: Option<string>, adminKey: Option<string>, token: TokenReply,
    platforms: ApiReply<Platform>, events: ApiReply<Event>, channels: ApiReply<Channel>)
    requires Credentialed(store) && !Authorized(key, adminKey)
    ensures Handle(store, now, key, adminKey, token, platforms, events, channels) ==
      Outcome(Responded(TextResponse(401, "Unauthorized")), store, [])
  {
    MissingNoneIffCredentialed(store);
  }

  /**
   * For every input: the store keeps its keys and changes only in the four
   * rotating values, the token endpoint is asked at most once and first, and
   * every Bearer header carries the access token the store holds afterwards.
   */
  lemma HandlerInvariants(
    store: Store, now: int, key: Option<string>, adminKey: Option<string>, token: TokenReply,
    platforms: ApiReply<Platform>, events: ApiReply<Event>, channels: ApiReply<Channel>)
    ensures var out := Handle(store, now, key, adminKey, token, platforms, events, channels);
      out.store.Keys == store.Keys &&
      (forall k :: k in store && !Rotating(k) ==> out.store[k] == store[k]) &&
      (forall i :: 0 < i < |out.calls| ==> !out.calls[i].TokenRequest?) &&
      (AccessTokenKey in out.store ==> BearersAre(out.calls, out.store[AccessTokenKey]))
  {
    MissingNoneIffCredentialed(store);
    if Credentialed(store) && Authorized(key, adminKey) {
      var gate := Refresh(store, now, token);
      if gate.result.Proceed? {
        NotifyCalls(gate.calls, gate.result.accessToken, platforms, events, channels);
      }
    }
  }

  /** The calls after the gate: the three fetches in order, then only webhook posts. */
  lemma NotifyCalls(
    gateCalls: seq<Call>, bearer: string,
    platforms: ApiReply<Platform>, events: ApiReply<Event>, channels: ApiReply<Channel>)
    ensures var out := Notify(gateCalls, bearer, platforms, events, channels);
      |gateCalls| < |out.calls| && out.calls[..|gateCalls|] == gateCalls &&
      (forall i :: |gateCalls| <= i < |out.calls| ==> !out.calls[i].TokenRequest?) &&
      (BearersAre(gateCalls, bearer) ==> BearersAre(out.calls, bearer))
  {
    var out := Notify(gateCalls, bearer, platforms, events, channels);
    AppendFetches(gateCalls, out.calls[|gateCalls|..], bearer);
    assert gateCalls + out.calls[|gateCalls|..] == out.calls;
  }

  /** Calls that are fetches with `bearer` or webhook posts keep the prefix, add no token request, and keep the Bearer. */
  lemma AppendFetches(calls: seq<Call>, extra: seq<Call>, bearer: string)
    requires forall i :: 0 <= i < |extra| ==> Fetch(extra[i], bearer)
    ensures (calls + extra)[..|calls|] == calls
    ensures forall i :: |calls| <= i < |calls + extra| ==> !(calls + extra)[i].TokenRequest?
    ensures BearersAre(calls, bearer) ==> BearersAre(calls + extra, bearer)
  {
  }

  /**
   * An unexpired access token is used as stored: no token request, no write,
   * and the stored token is the Bearer of the events and channel requests.
   */
  lemma UnexpiredTokenIsUsedAsStored(
    store: Store, now: int, key: Option<string>, adminKey: Option<string>, token: TokenReply,
    platforms: ApiReply<Platform>, events: ApiReply<Event>, channels: ApiReply<Channel>)
    requires Credentialed(store) && Authorized(key, adminKey)
    requires !Passed(now, store[AccessTokenExpKey])
    ensures var out := Handle(store, now, key, adminKey, token, platforms, events, channels);
      var run := Notify([], store[AccessTokenKey], platforms, events, channels);
      out == Outcome(run.result, store, run.calls) && BearersAre(out.calls, store[AccessTokenKey])
  {
    MissingNoneIffCredentialed(store);
    assert Refresh(store, now, token) == Step(Proceed(store[AccessTokenKey]), store, []);
    NotifyCalls([], store[AccessTokenKey], platforms, events, channels);
  }

  /** An expired access token with an expired refresh token is a 401 with no call and no write. */
  lemma ExpiredRefreshTokenHalts(
    store: Store, now: int, key: Option<string>, adminKey: Option<string>, token: TokenReply,
    platforms: ApiReply<Platform>, events: ApiReply<Event>, channels: ApiReply<Channel>)
    requires Credentialed(store) && Authorized(key, adminKey)
    requires Passed(now, store[AccessTokenExpKey]) && Passed(now, store[RefreshTokenExpKey])
    ensures Handle(store, now, key, adminKey, token, platforms, events, channels) ==
      Outcome(Responded(TextResponse(401, "Refresh Token Expired")), store, [])
  {
    MissingNoneIffCredentialed(store);
  }

  /** A token reply with an error is returned as a 401 after the one token request, and nothing is written. */
  lemma RefusedRefreshWritesNothing(
    store: Store, now: int, key: Option<string>, adminKey: Option<string>, error: string,
    platforms: ApiReply<Platform>, events: ApiReply<Event>, channels: ApiReply<Channel>)
    requires Credentialed(store) && Authorized(key, adminKey)
    requires Passed(now, store[AccessTokenExpKey]) && !Passed(now, store[RefreshTokenExpKey])
    ensures Handle(store, now, key, adminKey, Refused(error), platforms, events, channels) ==
      Outcome(Responded(TextResponse(401, error)), store,
              [TokenRequest(store[ClientIdKey], store[ClientSecretKey], store[RefreshTokenKey])])
  {
    MissingNoneIffCredentialed(store);
  }

  /**
   * A granted refresh overwrites the four rotating values with the reply's,
   * and the new access token is the Bearer of every later request.
   */
  lemma GrantedRefreshIsUsed(
    store: Store, now: int, key: Option<string>, adminKey: Option<string>, token: TokenReply,
    platforms: ApiReply<Platform>, events: ApiReply<Event>, channels: ApiReply<Channel>)
    requires Credentialed(store) && Authorized(key, adminKey)
    requires Passed(now, store[AccessTokenExpKey]) && !Passed(now, store[RefreshTokenExpKey])
    requires token.Granted?
    ensures var out := Handle(store, now, key, adminKey, token, platforms, events, channels);
      out.store == Rotate(store, token.accessToken, token.refreshToken, token.accessExpiresEpoch, token.refreshExpiresEpoch) &&
      |out.calls| > 0 &&
      out.calls[0] == TokenRequest(store[ClientIdKey], store[ClientSecretKey], store[RefreshTokenKey]) &&
      BearersAre(out.calls, token.accessToken)
  {
    MissingNoneIffCredentialed(store);
    var call := TokenRequest(store[ClientIdKey], store[ClientSecretKey], store[RefreshTokenKey]);
    var rotated := Rotate(store, token.accessToken, token.refreshToken, token.accessExpiresEpoch, token.refreshExpiresEpoch);
    assert Refresh(store, now, token) == Step(Proceed(token.accessToken), rotated, [call]);
    NotifyCalls([call], token.accessToken, platforms, events, channels);
  }

  /**
   * A non-empty `error` in the platform, in-progress or channel reply is
   * returned with the upstream status, and no later request is made.
   */
  lemma UpstreamErrorShortCircuits(
    gateCalls: seq<Call>, bearer: string,
    platforms: ApiReply<Platform>, events: ApiReply<Event>, channels: ApiReply<Channel>)
    ensures var out := Notify(gateCalls, bearer, platforms, events, channels);
      (Errored(platforms) ==>
        out == Run(Responded(TextResponse(platforms.status, platforms.error)), gateCalls + [PlatformList])) &&
      (platforms.Items? && Errored(events) ==>
        out == Run(Responded(TextResponse(events.status, events.error)),
                   gateCalls + [PlatformList, InProgressEvents(bearer)])) &&
      (platforms.Items? && !Errored(events) && Errored(channels) ==>
        out == Run(Responded(TextResponse(channels.status, channels.error)),
                   gateCalls + [PlatformList, InProgressEvents(bearer), ChannelList(bearer)]))
  {
  }

  /**
   * A reply with an empty `error` passes the truthiness test and is iterated:
   * an empty platform error throws right after the platform fetch, an empty
   * events or channel error throws after the channel fetch.
   */
  lemma EmptyErrorThrows(
    gateCalls: seq<Call>, bearer: string,
    platforms: ApiReply<Platform>, events: ApiReply<Event>, channels: ApiReply<Channel>)
    ensures var out := Notify(gateCalls, bearer, platforms, events, channels);
      (platforms.Failure? && !Errored(platforms) ==> out == Run(Thrown, gateCalls + [PlatformList])) &&
      (platforms.Items? && !Errored(events) && !Errored(channels) && (events.Failure? || channels.Failure?) ==>
        out == Run(Thrown, gateCalls + [PlatformList, InProgressEvents(bearer), ChannelList(bearer)]))
  {
  }

  /**
   * With all three lists fetched and every destination resolvable, one card is
   * posted per event, in event order, with the event's title and facts, and
   * the events are returned with status 200.
   */
  lemma PostsOneCardPerEvent(
    gateCalls: seq<Call>, bearer: string,
    ps: seq<Platform>, evs: seq<Event>, cs: seq<Channel>)
    requires |evs| > 0
    requires forall e :: 0 <= e < |evs| ==>
      forall d :: 0 <= d < |evs[e].destinations| ==>
        Resolves(evs[e].destinations[d], IndexBy(ps, PlatformKey), IndexBy(cs, ChannelKey))
    ensures var out := Notify(gateCalls, bearer, Items(ps), Items(evs), Items(cs));
      var fetches := gateCalls + [PlatformList] + [InProgressEvents(bearer)] + [ChannelList(bearer)];
      out.result == Responded(Response(200, EventsJson(evs))) &&
      |out.calls| == |fetches| + |evs| && out.calls[..|fetches|] == fetches &&
      forall e :: 0 <= e < |evs| ==>
        CardFacts(evs[e].destinations, IndexBy(ps, PlatformKey), IndexBy(cs, ChannelKey)).Some? &&
        out.calls[|fetches| + e] ==
          TeamsPost(Card(evs[e].title, CardFacts(evs[e].destinations, IndexBy(ps, PlatformKey), IndexBy(cs, ChannelKey)).value))
  {
    var platformMap := IndexBy(ps, PlatformKey);
    var channelMap := IndexBy(cs, ChannelKey);
    var posting := PostCards(evs, platformMap, channelMap);
    assert !posting.threw;
    NotifyOfLists(gateCalls, bearer, ps, evs, cs);
  }

  /** `Notify` once all three lists have arrived: the fetches, then the posts of the event loop. */
  lemma NotifyOfLists(gateCalls: seq<Call>, bearer: string, ps: seq<Platform>, evs: seq<Event>, cs: seq<Channel>)
    ensures var posting := PostCards(evs, IndexBy(ps, PlatformKey), IndexBy(cs, ChannelKey));
      var calls := gateCalls + [PlatformList] + [InProgressEvents(bearer)] + [ChannelList(bearer)] + posting.posts;
      Notify(gateCalls, bearer, Items(ps), Items(evs), Items(cs)) ==
        if posting.threw || |evs| == 0 then Run(Thrown, calls) else Run(Responded(Response(200, EventsJson(evs))), calls)
  {
  }

  /**
   * With no in-progress events the handler throws after the channel fetch,
   * since the alert card is written into a `post` that was never assigned.
   */
  lemma NoEventsThrows(gateCalls: seq<Call>, bearer: string, ps: seq<Platform>, cs: seq<Channel>)
    ensures Notify(gateCalls, bearer, Items(ps), Items([]), Items(cs)) ==
      Run(Thrown, gateCalls + [PlatformList, InProgressEvents(bearer), ChannelList(bearer)])
  {
  }
}
