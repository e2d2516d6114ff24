/**
 * The credential refresh gate both handlers run before calling the API:
 * the six cached OAuth values are read from the KV store and checked in a
 * fixed order, then the access token is refreshed when it has expired and the
 * four rotating values are written back.
 */
module Credentials {
  import opened Types
  import opened Numbers

  /** The keys a successful refresh overwrites; the client id and secret are not among them. */
  predicate Rotating(k: Key) {
    k != ClientIdKey && k != ClientSecretKey
  }

  /** `KV.get`: the stored string, or `None` for null. */
  function Lookup(store: Store, key: Key): Option<string> {
    if key in store then Some(store[key]) else None
  }

  /** JavaScript truthiness of a KV read: null and the empty string are falsy. */
  predicate Truthy(v: Option<string>) {
    v.Some? && v.value != ""
  }

  predicate Present(store: Store, key: Key) {
    Truthy(Lookup(store, key))
  }

  /** All six values the gate needs are stored and non-empty. */
  predicate Credentialed(store: Store) {
    Present(store, AccessTokenKey) && Present(store, RefreshTokenKey) &&
    Present(store, AccessTokenExpKey) && Present(store, RefreshTokenExpKey) &&
    Present(store, ClientIdKey) && Present(store, ClientSecretKey)
  }

  /** An entry of the handlers' `requiredParams` list: a value read from the store and its label. */
  datatype Param = Param(value: Option<string>, message: string)

  /** The keys behind `requiredParams`, in the order they are checked. */
  const RequiredKeys: seq<Key> :=
    [AccessTokenKey, RefreshTokenKey, AccessTokenExpKey, RefreshTokenExpKey, ClientIdKey, ClientSecretKey]

  /**
   * The six keys are stored under six different names, so writing one of
   * them never changes another.
   */
  lemma KeyNamesDistinct(a: Key, b: Key)
    requires a != b
    ensures KeyName(a) != KeyName(b)
  {
  }

  /** The `requiredParams` list, in the order it is checked. */
  function RequiredParams(store: Store): (ps: seq<Param>)
    // one entry per required key, in order, holding what the store has under it
    ensures |ps| == |RequiredKeys| && forall i :: 0 <= i < |ps| ==> ps[i].value == Lookup(store, RequiredKeys[i])
    // the labels differ, so a "Not Found" message names exactly one credential
    ensures forall i, j :: 0 <= i < j < |ps| ==> ps[i].message != ps[j].message
  {
    [ Param(Lookup(store, AccessTokenKey), "Access Token"),
      Param(Lookup(store, RefreshTokenKey), "Refresh Token"),
      Param(Lookup(store, AccessTokenExpKey), "Access Token Expires At"),
      Param(Lookup(store, RefreshTokenExpKey), "Refresh Token Expires At"),
      Param(Lookup(store, ClientIdKey), "Client ID"),
      Param(Lookup(store, ClientSecretKey), "Client Secret") ]
  }

  /** The label of the first entry whose value is falsy, or `None` when every value is truthy. */
  function FirstMissing(params: seq<Param>): (r: Option<string>)
    ensures r.None? <==> forall i :: 0 <= i < |params| ==> Truthy(params[i].value)
    ensures r.Some? ==>
      exists i :: 0 <= i < |params| && !Truthy(params[i].value) && r.value == params[i].message &&
        forall j :: 0 <= j < i ==> Truthy(params[j].value)
  {
    if |params| == 0 then None
    else if !Truthy(params[0].value) then Some(params[0].message)
    else
      var r := FirstMissing(params[1..]);
      assert forall i :: 1 <= i < |params| ==> params[i] == params[1..][i - 1];
      r
  }

  /** The check passes exactly when all six credentials are present. */
  lemma MissingNoneIffCredentialed(store: Store)
    ensures FirstMissing(RequiredParams(store)).None? <==> Credentialed(store)
  {
    var ps := RequiredParams(store);
    assert (forall i :: 0 <= i < |ps| ==> Truthy(ps[i].value)) <==>
      Truthy(ps[0].value) && Truthy(ps[1].value) && Truthy(ps[2].value) &&
      Truthy(ps[3].value) && Truthy(ps[4].value) && Truthy(ps[5].value);
  }

  /** The store held by the KV binding; `Get` and `Put` stand for `KV.get` and `KV.put`. */
  class KvStore {
    var entries: Store

    constructor (initial: Store)
      ensures entries == initial
    {
      entries := initial;
    }

    function Get(key: Key): Option<string>
      reads this
    {
      Lookup(entries, key)
    }

    method Put(key: Key, value: string)
      modifies this
      ensures entries == old(entries)[key := value]
    {
      entries := entries[key := value];
    }
  }

  /** The validation loop: returns the label of the first missing value, early. */
  method CheckRequired(params: seq<Param>) returns (missing: Option<string>)
    ensures missing == FirstMissing(params)
  {
    for i := 0 to |params|
      invariant FirstMissing(params[i..]) == FirstMissing(params)
    {
      if !Truthy(params[i].value) {
        return Some(params[i].message);
      }
      assert params[i..][1..] == params[i + 1..];
    }
    assert params[|params|..] == [];
    return None;
  }

  /** The six `KV.get`s and the validation loop over `requiredParams`. */
  method ReadRequired(kv: KvStore) returns (missing: Option<string>)
    ensures missing == FirstMissing(RequiredParams(kv.entries))
  {
    var accessToken := kv.Get(AccessTokenKey);
    var refreshToken := kv.Get(RefreshTokenKey);
    var accessTokenExpires := kv.Get(AccessTokenExpKey);
    var refreshTokenExpires := kv.Get(RefreshTokenExpKey);
    var clientId := kv.Get(ClientIdKey);
    var clientSecret := kv.Get(ClientSecretKey);
    var requiredParams := [
      Param(accessToken, "Access Token"),
      Param(refreshToken, "Refresh Token"),
      Param(accessTokenExpires, "Access Token Expires At"),
      Param(refreshTokenExpires, "Refresh Token Expires At"),
      Param(clientId, "Client ID"),
      Param(clientSecret, "Client Secret")];
    missing := CheckRequired(requiredParams);
  }

  /**
   * `current_time > parseInt(stored)`.  A comparison with NaN is false, so an
   * expiry that does not parse never counts as passed.
   */
  predicate Passed(now: int, stored: string) {
    match ParseInt(stored)
    case None => false
    case Some(exp) => now > exp
  }

  /** An expiry that `parseInt` reads as NaN never counts as passed, whatever the clock says. */
  lemma UnparsableExpiryNeverPassed(now: int, stored: string)
    requires |Unsigned(stored)| == 0 || !IsDigit(Unsigned(stored)[0])
    ensures !Passed(now, stored)
  {
    ParseIntShape(stored);
  }

  /** An expiry written with `toString` has passed exactly when the clock is beyond it. */
  lemma WrittenExpiryPassed(now: int, exp: int)
    ensures Passed(now, IntToString(exp)) <==> now > exp
  {
    ParseIntOfToString(exp);
  }

  /** What the gate hands on: a response to return at once, or the access token to use. */
  datatype GateResult = Halt(response: Response) | Proceed(accessToken: string)

  datatype Step = Step(result: GateResult, store: Store, calls: seq<Call>)

  /** The four `KV.put`s after a successful refresh; the expiries are written with `toString`. */
  function Rotate(store: Store, accessToken: string, refreshToken: string, accessExp: int, refreshExp: int): (r: Store)
    // the four rotating keys are set, and every other key is left as it was
    ensures r.Keys == store.Keys + {AccessTokenKey, RefreshTokenKey, AccessTokenExpKey, RefreshTokenExpKey}
    ensures forall k :: k in store && !Rotating(k) ==> r[k] == store[k]
    ensures r[AccessTokenKey] == accessToken && r[RefreshTokenKey] == refreshToken
  {
    store[AccessTokenKey := accessToken][RefreshTokenKey := refreshToken]
         [AccessTokenExpKey := IntToString(accessExp)][RefreshTokenExpKey := IntToString(refreshExp)]
  }

  /**
   * The expiry check and refresh exchange, run once the six values are known
   * to be present.  `reply` is what the token endpoint answers if it is asked.
   */
  function Refresh(store: Store, now: int, reply: TokenReply): (s: Step)
    requires Credentialed(store)
    // the token endpoint is asked exactly when the access token has expired and the refresh token has not
    ensures s.calls != [] <==> Passed(now, store[AccessTokenExpKey]) && !Passed(now, store[RefreshTokenExpKey])
    ensures s.calls == [] || s.calls == [TokenRequest(store[ClientIdKey], store[ClientSecretKey], store[RefreshTokenKey])]
    // the fast path: an unexpired token is used as stored, without a call or a write
    ensures !Passed(now, store[AccessTokenExpKey]) <==> s == Step(Proceed(store[AccessTokenKey]), store, [])
    // every failure is a 401 and writes nothing
    ensures s.result.Halt? ==> s.result.response.status == 401 && s.store == store
    // the store changes only after a call, only in the rotating keys, and never loses a key
    ensures s.calls == [] ==> s.store == store
    ensures s.store.Keys == store.Keys
    ensures forall k :: k in store && !Rotating(k) ==> s.store[k] == store[k]
    // the token handed on is the one the store now holds
    ensures s.result.Proceed? ==> s.result.accessToken == s.store[AccessTokenKey]
  {
    if !Passed(now, store[AccessTokenExpKey]) then
      Step(Proceed(store[AccessTokenKey]), store, [])
    else if Passed(now, store[RefreshTokenExpKey]) then
      Step(Halt(TextResponse(401, "Refresh Token Expired")), store, [])
    else
      var call := TokenRequest(store[ClientIdKey], store[ClientSecretKey], store[RefreshTokenKey]);
      match reply
      case Refused(error) => Step(Halt(TextResponse(401, error)), store, [call])
      case Granted(at, rt, ae, re) => Step(Proceed(at), Rotate(store, at, rt, ae, re), [call])
  }

  /** A successful refresh overwrites exactly the four rotating values with the reply's values. */
  lemma RefreshWritesReply(store: Store, now: int, reply: TokenReply)
    requires Credentialed(store)
    requires Passed(now, store[AccessTokenExpKey]) && !Passed(now, store[RefreshTokenExpKey])
    requires reply.Granted?
    ensures var s := Refresh(store, now, reply);
      s.result == Proceed(reply.accessToken) &&
      s.store == store[AccessTokenKey := reply.accessToken][RefreshTokenKey := reply.refreshToken]
                      [AccessTokenExpKey := IntToString(reply.accessExpiresEpoch)]
                      [RefreshTokenExpKey := IntToString(reply.refreshExpiresEpoch)]
  {
  }

  /**
   * After a successful refresh the next invocation, at any time up to the new
   * access expiry, finds all six values, takes the fast path and uses the new
   * access token: the written expiry reads back as the number the reply gave.
   */
  lemma RotatedStoreTakesFastPath(store: Store, now: int, reply: TokenReply, later: int, nextReply: TokenReply)
    requires Credentialed(store)
    requires Passed(now, store[AccessTokenExpKey]) && !Passed(now, store[RefreshTokenExpKey])
    requires reply.Granted? && reply.accessToken != "" && reply.refreshToken != ""
    requires later <= reply.accessExpiresEpoch
    ensures Credentialed(Refresh(store, now, reply).store)
    ensures var s := Refresh(store, now, reply).store;
      Refresh(s, later, nextReply) == Step(Proceed(reply.accessToken), s, [])
  {
    var s := Refresh(store, now, reply).store;
    ParseIntOfToString(reply.accessExpiresEpoch);
    assert s[AccessTokenExpKey] == IntToString(reply.accessExpiresEpoch);
    assert !Passed(later, s[AccessTokenExpKey]);
  }

  /**
   * The worked example: tokens A1/R1 stored as expiring at 100/200, clock at
   * 150, and a reply granting A2/R2 until 9999.  One token request with the
   * stored client credentials and refresh token; the store ends with the new
   * values and A2 is handed on.
   */
  lemma RefreshExample()
    ensures
      var store := map[AccessTokenKey := "A1", AccessTokenExpKey := "100", RefreshTokenKey := "R1",
                       RefreshTokenExpKey := "200", ClientIdKey := "id", ClientSecretKey := "secret"];
      var s := Refresh(store, 150, Granted("A2", "R2", 9999, 9999));
      Credentialed(store) &&
      s.result == Proceed("A2") && s.calls == [TokenRequest("id", "secret", "R1")] &&
      s.store.Keys == store.Keys &&
      s.store[AccessTokenKey] == "A2" && s.store[RefreshTokenKey] == "R2" &&
      s.store[AccessTokenExpKey] == IntToString(9999) && s.store[RefreshTokenExpKey] == IntToString(9999) &&
      s.store[ClientIdKey] == "id" && s.store[ClientSecretKey] == "secret"
  {
    var store := map[AccessTokenKey := "A1", AccessTokenExpKey := "100", RefreshTokenKey := "R1",
                     RefreshTokenExpKey := "200", ClientIdKey := "id", ClientSecretKey := "secret"];
    assert Credentialed(store);
    ExampleExpiries();
    assert Passed(150, store[AccessTokenExpKey]) && !Passed(150, store[RefreshTokenExpKey]);
    RefreshWritesReply(store, 150, Granted("A2", "R2", 9999, 9999));
  }

  /** The example's stored expiries, written as `String(exp)` would write them: 100 has passed at 150, 200 has not. */
  lemma ExampleExpiries()
    ensures Passed(150, "100") && !Passed(150, "200")
  {
    assert IntToString(100) == "100" && IntToString(200) == "200";
    ParseIntOfToString(100);
    ParseIntOfToString(200);
  }

  /** The gate's imperative form: the expiry checks, the token request and the four `KV.put`s. */
  method RefreshIfExpired(kv: KvStore, now: int, reply: TokenReply) returns (result: GateResult, calls: seq<Call>)
    requires Credentialed(kv.entries)
    modifies kv
    ensures Step(result, kv.entries, calls) == Refresh(old(kv.entries), now, reply)
  {
    var accessToken := kv.Get(AccessTokenKey).value;
    var refreshToken := kv.Get(RefreshTokenKey).value;
    var accessTokenExpires := kv.Get(AccessTokenExpKey).value;
    var refreshTokenExpires := kv.Get(RefreshTokenExpKey).value;
    var clientId := kv.Get(ClientIdKey).value;
    var clientSecret := kv.Get(ClientSecretKey).value;
    calls := [];
    if Passed(now, accessTokenExpires) {
      if Passed(now, refreshTokenExpires) {
        return Halt(TextResponse(401, "Refresh Token Expired")), calls;
      }
      calls := calls + [TokenRequest(clientId, clientSecret, refreshToken)];
      match reply
      case Refused(error) =>
        return Halt(TextResponse(401, error)), calls;
      case Granted(at, rt, ae, re) =>
        accessToken := at;
        refreshToken := rt;
        kv.Put(AccessTokenKey, accessToken);
        kv.Put(RefreshTokenKey, refreshToken);
        kv.Put(AccessTokenExpKey, IntToString(ae));
        kv.Put(RefreshTokenExpKey, IntToString(re));
    }
    result := Proceed(accessToken);
  }
}
