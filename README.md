# Hope-Functions: the Restream credential gate and its two handlers

This project is a Dafny model of the two Cloudflare Pages functions that
connect a Restream account to the outside world:

- `onRequestPost` in `functions/OnStreamStart.ts` is called when a live stream
  starts. It reads six cached OAuth values from the KV binding and rejects the
  request if one is missing. It then checks the `key` query value against the
  `AdminKey` binding. If the access token has expired, it refreshes it and
  writes the four rotating values back. Next it fetches the platform list, the
  in-progress events and the channel list. Finally it posts one Teams
  MessageCard per in-progress event, with one fact per stream destination.
- `onRequest` in `functions/LatestStream.ts` runs the same credential gate
  without the admin check. It fetches the channel list and the platform list
  and answers with an HTML table that has one row per channel.

The model has six modules:

- `Types` holds the records, the endpoint replies and what an invocation
  produces. That is the `Result` (a response, or `Thrown` for an uncaught
  exception), the store afterwards and the outbound calls in order.
- `Numbers` holds `parseInt` and `toString` on decimal integers.
- `Credentials` holds the shared gate. The KV binding is a `KvStore` class,
  mutated by `Put`. `Refresh` is the function that specifies the gate, and
  `RefreshIfExpired` is the imperative form proved equal to it.
- `Shaping` holds the id-keyed maps, the card facts, the per-event posts and
  the HTML table. Each is a function paired with the loop that computes it.
- `OnStreamStart` and `LatestStream` each hold a `Handle` function for the
  whole invocation. Each also has the handler method, proved to produce
  exactly `Handle`'s result, store and call list, plus lemmas about `Handle`.

JavaScript semantics are written out explicitly:

- Null and the empty string are falsy.
- A comparison with `NaN` is false, so an expiry that does not parse never
  counts as passed.
- `key !== AdminKey` lets through only a present, equal key.
- A lookup by an id that is not in a map yields `undefined`. Reading `.name`
  from it throws. The model returns `Thrown` in that case; it is not a
  precondition.

## Model

| member | source | states |
|---|---|---|
| Credentials.FirstMissing | functions/OnStreamStart.ts:15-29 | no label exactly when every value is truthy; otherwise the label of a falsy value all of whose predecessors are truthy |
| Credentials.MissingNoneIffCredentialed | functions/OnStreamStart.ts:8-29 | the required-values check passes if and only if all six KV values are present and non-empty |
| Credentials.RequiredParams | functions/OnStreamStart.ts:15-22 | one entry per required key in the checked order, holding what the store has under that key; the six labels differ, so a `Not Found` message names exactly one credential |
| Credentials.KeyNamesDistinct | functions/OnStreamStart.ts:8-13 | the six KV names are pairwise different, so writing one key never changes another |
| Credentials.CheckRequired | functions/OnStreamStart.ts:25-29 | the validation loop with its early return yields exactly the first missing label |
| Credentials.ReadRequired | functions/LatestStream.ts:9-29 | the six `KV.get`s and the validation loop yield the first missing label of the store's required list |
| Credentials.KvStore.Put | functions/OnStreamStart.ts:84-87 | `KV.put` overwrites exactly one key |
| Credentials.UnparsableExpiryNeverPassed | functions/OnStreamStart.ts:48-57 | an expiry that `parseInt` reads as NaN never counts as passed, since a comparison with NaN is false |
| Credentials.WrittenExpiryPassed | functions/OnStreamStart.ts:51 | an expiry written with `toString` has passed exactly when the clock is strictly beyond it |
| Credentials.Rotate | functions/OnStreamStart.ts:84-87 | the four rotating keys are set, the new tokens are stored as given, and every other key keeps its value |
| Credentials.Refresh | functions/OnStreamStart.ts:47-88 | the token endpoint is asked exactly when the access token has expired and the refresh token has not, with the stored client id, secret and refresh token; an unexpired access token is used as stored, with no call and no write; every failure is a 401 and writes nothing; the store keeps its keys and never changes the client id or secret; the token handed on is the one the store holds |
| Credentials.RefreshWritesReply | functions/OnStreamStart.ts:79-87 | a granted refresh hands on the new access token and overwrites the four rotating values with the reply's, the expiries written via `toString` |
| Credentials.RotatedStoreTakesFastPath | functions/LatestStream.ts:36-73 | after a granted refresh the store is complete, and a later invocation up to the new access expiry takes the fast path with the new token, because the written expiry parses back to the granted number |
| Credentials.RefreshExample | functions/OnStreamStart.ts:47-88 | worked example: A1/R1 expiring at 100/200, the clock at 150 and a grant of A2/R2 give one token request with id/secret/R1 and a store holding A2, R2 and the new expiries |
| Credentials.RefreshIfExpired | functions/LatestStream.ts:36-73 | the imperative gate (expiry checks, token request, four `KV.put`s) leaves exactly the store, result and calls of `Refresh` |
| Numbers.DigitPrefix | functions/OnStreamStart.ts:48 | the longest prefix made of decimal digits: a prefix, all digits, and followed by a non-digit or the end |
| Numbers.ParseIntShape | functions/OnStreamStart.ts:48 | `parseInt` is NaN exactly when no digit follows the optional sign; a leading `-` gives a number at most 0, otherwise it is at least 0 |
| Numbers.IntToString | functions/OnStreamStart.ts:86-87 | the written text is non-empty: the decimal digits, after a minus sign for a negative number |
| Numbers.NatToStringValue | functions/OnStreamStart.ts:86-87 | the decimal digits written for a number have that number as their value |
| Numbers.ParseIntOfToString | functions/OnStreamStart.ts:48 | `parseInt(n.toString()) == n` for every integer the model writes, so a written expiry reads back unchanged (see `Numbers.IntToString` under Left out for JavaScript's exponent notation) |
| Shaping.IndexBy | functions/OnStreamStart.ts:105-108 | the id-keyed map holds exactly the ids that occur in the list |
| Shaping.IndexByKeepsLast | functions/OnStreamStart.ts:156-159 | each id holds the last item with that id, since later assignments overwrite earlier ones |
| Shaping.BuildIndex | functions/LatestStream.ts:100-103 | the map-filling loop produces `IndexBy` |
| Shaping.FactFor | functions/OnStreamStart.ts:184-187 | the fact's value is the destination's URL; its name starts with the platform's name and ends with the channel's display name |
| Shaping.DestinationFacts | functions/OnStreamStart.ts:181-188 | the facts exist exactly when both lookups of every destination succeed, one `platform.name - channel.displayName` / `externalUrl` fact per destination in order |
| Shaping.CardFacts | functions/OnStreamStart.ts:177-196 | the card's facts: the Restream fact alone for an event without destinations, otherwise one fact per destination; none when a lookup misses |
| Shaping.BuildFacts | functions/OnStreamStart.ts:181-196 | the destination loop and the empty-destinations fallback produce `CardFacts` |
| Shaping.CardFor | functions/OnStreamStart.ts:166-196 | a card exists exactly when every destination resolves; it carries the event's title and one fact per destination, or the single Restream fact |
| Shaping.PostCards | functions/OnStreamStart.ts:165-206 | one post per event in event order, each carrying that event's card; the loop throws exactly when it stops early, at an event whose card cannot be built |
| Shaping.PostCardsAfterThrow | functions/OnStreamStart.ts:165-206 | once the loop has thrown on a prefix of the events, the later events change nothing |
| Shaping.PostCardsStops | functions/OnStreamStart.ts:182-185 | the first event whose card cannot be built ends the loop with the posts made so far |
| Shaping.RowTexts | functions/LatestStream.ts:110-112 | the rows exist exactly when every `platformId` is known, one row per channel in order, naming the platform the id maps to |
| Shaping.Row | functions/LatestStream.ts:111 | a table row whose first cell is the platform's name and whose last cell is the channel's URL |
| Shaping.Table | functions/LatestStream.ts:109-113 | a page exists exactly when every `platformId` is known; it opens with the header row and closes with `</table>` |
| Shaping.RowTextsMiss | functions/LatestStream.ts:111 | a channel with an unknown `platformId` leaves no table |
| Shaping.RenderTable | functions/LatestStream.ts:109-113 | the `html +=` loop produces `Table`: the header row, the rows, then `</table>`, or nothing when a lookup misses |
| OnStreamStart.OnRequestPost | functions/OnStreamStart.ts:3-241 | the handler leaves exactly the result, store and calls of `OnStreamStart.Handle` |
| OnStreamStart.Authorized | functions/OnStreamStart.ts:38-42 | only the configured key itself passes; with `AdminKey` unset every request is refused, one without `key` included |
| OnStreamStart.Handle | functions/OnStreamStart.ts:3-241 | no request is made before the credentials and the admin key have passed; the store is written only for an authorized request whose access token had expired and was refreshed |
| OnStreamStart.Notify | functions/OnStreamStart.ts:93-240 | the gate's calls come first, followed only by list fetches carrying the gate's token and webhook posts; the events are returned, with status 200, only when there is at least one and every one got its post; a throw comes only after the three fetches or from an uncaught empty platform error |
| OnStreamStart.FetchAndPost | functions/OnStreamStart.ts:93-240 | the three fetches, the two map loops and the event loop produce `Notify` |
| OnStreamStart.PostAll | functions/OnStreamStart.ts:165-206 | the loop over in-progress events produces `PostCards` |
| OnStreamStart.MissingCredentialFailsFast | functions/OnStreamStart.ts:25-29 | a missing credential is a 400 `<label> Not Found` for the first one in list order, before the admin key is checked, with no call and no write |
| OnStreamStart.WrongAdminKeyIsUnauthorized | functions/OnStreamStart.ts:38-42 | with all credentials present, a wrong or absent key is a 401 `Unauthorized` with no call and no write |
| OnStreamStart.HandlerInvariants | functions/OnStreamStart.ts:47-159 | for every input the store keeps its keys and changes only in the rotating values; a token request can only be the first call; every Bearer header carries the access token the store holds afterwards |
| OnStreamStart.NotifyCalls | functions/OnStreamStart.ts:93-205 | the calls after the gate extend the gate's calls, include no token request, and carry the gate's token as Bearer |
| OnStreamStart.UnexpiredTokenIsUsedAsStored | functions/OnStreamStart.ts:51 | an unexpired access token is used as stored: no write, and the stored token is every Bearer |
| OnStreamStart.ExpiredRefreshTokenHalts | functions/OnStreamStart.ts:56-59 | both tokens expired is a 401 `Refresh Token Expired` with no call and no write |
| OnStreamStart.RefusedRefreshWritesNothing | functions/OnStreamStart.ts:72-75 | a token reply with `error` is a 401 with that text after the single token request, and nothing is written |
| OnStreamStart.GrantedRefreshIsUsed | functions/OnStreamStart.ts:79-87 | a granted refresh writes the reply's values, the token request comes first, and the new token is every Bearer |
| OnStreamStart.UpstreamErrorShortCircuits | functions/OnStreamStart.ts:97-154 | a non-empty `error` in the platform, events or channel reply is returned with the upstream status, and no later request is made |
| OnStreamStart.EmptyErrorThrows | functions/OnStreamStart.ts:97-165 | an `{error}` body with an empty message passes the truthiness test and is iterated: an empty platform error throws at once, an empty events or channel error throws after the channel fetch |
| OnStreamStart.PostsOneCardPerEvent | functions/OnStreamStart.ts:165-240 | with every destination resolvable and at least one event: status 200 with the events, the three fetches, then one post per event in order with the event's title and facts |
| OnStreamStart.NoEventsThrows | functions/OnStreamStart.ts:211-213 | with no in-progress events the handler throws after the channel fetch, since `post` was never assigned |
| LatestStream.OnRequest | functions/LatestStream.ts:5-124 | the handler leaves exactly the result, store and calls of `LatestStream.Handle` |
| LatestStream.Handle | functions/LatestStream.ts:5-124 | no request is made before all six credentials are found; the store is written only when the access token had expired and was refreshed |
| LatestStream.Render | functions/LatestStream.ts:78-119 | a page is served, with status 200, only when both lists arrived and every channel's platform is known; every other response is a 401 |
| LatestStream.FetchAndRender | functions/LatestStream.ts:78-119 | the two fetches, the map loop and the table loop produce `Render` |
| LatestStream.MissingCredentialFailsFast | functions/LatestStream.ts:25-29 | a missing credential is a 400 `<label> Not Found` for the first one in list order, with no call and no write |
| LatestStream.UnexpiredTokenIsUsedAsStored | functions/LatestStream.ts:39 | an unexpired access token: no write, no token request, and the channel list is requested first with the stored token |
| LatestStream.ExpiredRefreshTokenHalts | functions/LatestStream.ts:41-44 | both tokens expired is a 401 `Refresh Token Expired` with no call and no write |
| LatestStream.RefusedRefreshWritesNothing | functions/LatestStream.ts:56-59 | a token reply with `error` is a 401 with that text after the single token request, and nothing is written |
| LatestStream.GrantedRefreshIsUsed | functions/LatestStream.ts:62-80 | a granted refresh writes the reply's values and leaves the client id and secret alone; the token request is followed by the channel request with the new token |
| LatestStream.RenderCalls | functions/LatestStream.ts:78-98 | after the gate the channel list is requested first with the gate's token, then at most the platform list, and no token request |
| LatestStream.UpstreamErrorIsUnauthorized | functions/LatestStream.ts:84-98 | a non-empty `error` in the channel reply is a 401 and the platform list is never requested; a non-empty `error` in the platform reply is a 401 too |
| LatestStream.EmptyErrorThrows | functions/LatestStream.ts:86-110 | an `{error}` body with an empty message is not caught: both lists are requested and the handler throws |
| LatestStream.TableHasOneRowPerChannel | functions/LatestStream.ts:100-119 | with every `platformId` known, the page is the header, one row per channel in order with its platform's name, then `</table>`, with status 200 |
| LatestStream.UnknownPlatformThrows | functions/LatestStream.ts:111 | a channel whose `platformId` matches no platform makes the handler throw |

## Left out

- Network and KV I/O are parameters of the model. Each endpoint's reply and the token endpoint's reply are inputs. The outbound requests are recorded as `Call` values. Request headers, URLs, the `btoa` Basic header and the form body are left out beyond the values they carry.
- `Date.now()` is a parameter, `now`, already in whole seconds.
- Both handlers put `access_token`, `refresh_token`, `access_token_exp` and `refresh_token_exp` in that order. Each put is modelled as an update of the store; a failure between two puts, which would leave the store half rotated, is not modelled.
- Concurrency between invocations, and `await` interleaving, are not modelled.
- `console.log` is not modelled.
- The webhook's reply is ignored by the source. The model records each post and does not model its response.
- The no-events alert card is built on a `post` that was never assigned, so the handler throws there. Only the throw is modelled, not the card's contents or a webhook post.
- Numbers.ParseInt: models an optional sign followed by decimal digits. Leading whitespace, a `0x` prefix, and the float rounding of very long digit runs are not modelled.
- Numbers.IntToString: models exact decimal `toString` on unbounded integers. JavaScript numbers are doubles, and `toString` switches to exponent notation from 10^21, so `ParseIntOfToString` holds for the source only when the absolute value is below 10^21.
- Credentials.Refresh: a token reply whose `error` is the empty string is falsy in JavaScript and would be taken as a grant. Here a reply is either `Refused` or `Granted`, and a grant with missing fields is not modelled.
- The JSON body of the 200 response is the event list itself (`EventsJson`), not its `JSON.stringify` text. Content-type headers are not modelled.
- The MessageCard's fixed fields are constants that do not depend on the input, so only the subtitle and facts are modelled. These fields are `@type`, `@context`, `themeColor`, `summary`, `activityTitle`, `activityImage` and `markdown`.
- The store is modelled only over the six keys the handlers use (`Key`, with `KeyName` giving each key's string).
- LatestStream reads `platformId` and `active` from each channel. The `Channel` type in `functions/types.ts` does not declare these fields. The model gives that handler its own `ListedChannel` record with those fields.
- An `error` returned by the webhook call is not surfaced as a 400 response. The source overwrites the response variable and never inspects it, and the model follows the source.
- `public/js/streams.js` and the rest of the repository are not part of this model.
