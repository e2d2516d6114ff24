/**
 * Records exchanged with the streaming-aggregation API, the replies of its
 * endpoints, and what a handler invocation produces: the HTTP response it
 * returns, or the exception it raises, and the outbound calls it makes.
 */
module Types {

  datatype Option<+T> = None | Some(value: T)

  /** A streaming platform (`Platform` in functions/types.ts); `image` is not used. */
  datatype Platform = Platform(id: int, name: string, url: string)

  /** A channel as typed in functions/types.ts and read by the stream-start handler. */
  datatype Channel = Channel(
    id: int,
    streamingPlatformId: int,
    displayName: string,
    enabled: bool,
    url: string,
    embedUrl: string,
    identifier: string)

  /**
   * A channel as the latest-stream handler reads it from its untyped reply:
   * it uses `platformId` and `active`, fields the typed `Channel` does not declare.
   */
  datatype ListedChannel = ListedChannel(platformId: int, displayName: string, active: bool, url: string)

  datatype Destination = Destination(channelId: int, externalUrl: string, streamingPlatformId: int)

  datatype Event = Event(
    id: int,
    status: string,
    title: string,
    description: string,
    coverUrl: string,
    scheduledFor: int,
    startedAt: int,
    finishedAt: int,
    destinations: seq<Destination>)

  /**
   * A resource endpoint's reply: the expected array, or an `{error}` body with
   * the HTTP status.  An `{error}` body whose message is empty is not caught by
   * the handlers' truthiness test; it is an object, not an array, and iterating
   * it with `for...of` throws.
   */
  datatype ApiReply<T> = Items(items: seq<T>) | Failure(status: int, error: string)

  /** `reply.error` is truthy, so the handler answers with it. */
  predicate Errored<T>(reply: ApiReply<T>) {
    reply.Failure? && reply.error != ""
  }

  /** The OAuth token endpoint's reply to a refresh-token grant. */
  datatype TokenReply =
    | Granted(accessToken: string, refreshToken: string, accessExpiresEpoch: int, refreshExpiresEpoch: int)
    | Refused(error: string)

  /** One entry of a MessageCard section's `facts`. */
  datatype Fact = Fact(name: string, value: string)

  /** The parts of a MessageCard that depend on the event; the fixed cosmetic fields are left out. */
  datatype Card = Card(activitySubtitle: string, facts: seq<Fact>)

  /** Every network call a handler can make, with the data that identifies it. */
  datatype Call =
    | TokenRequest(clientId: string, clientSecret: string, refreshToken: string)
    | PlatformList
    | InProgressEvents(bearer: string)
    | ChannelList(bearer: string)
    | TeamsPost(card: Card)

  datatype Body = Text(text: string) | Html(html: string) | EventsJson(events: seq<Event>)

  datatype Response = Response(status: int, body: Body)

  /** A handler either returns a response or raises an uncaught exception. */
  datatype Result = Responded(response: Response) | Thrown

  /** The KV keys the handlers read; `KeyName` gives the string each is stored under. */
  datatype Key =
    | AccessTokenKey | RefreshTokenKey | AccessTokenExpKey | RefreshTokenExpKey | ClientIdKey | ClientSecretKey

  function KeyName(k: Key): string {
    match k
    case AccessTokenKey => "access_token"
    case RefreshTokenKey => "refresh_token"
    case AccessTokenExpKey => "access_token_exp"
    case RefreshTokenExpKey => "refresh_token_exp"
    case ClientIdKey => "client_id"
    case ClientSecretKey => "client_secret"
  }

  /** The credential store: the value held under each key that has one. */
  type Store = map<Key, string>

  /** The whole effect of one invocation: its result, the store afterwards, the calls in order. */
  datatype Outcome = Outcome(result: Result, store: Store, calls: seq<Call>)

  /** The result of a handler's part after the credential gate, and every call made up to then. */
  datatype Run = Run(result: Result, calls: seq<Call>)

  function TextResponse(status: int, text: string): Response {
    Response(status, Text(text))
  }
}
