/**
 * The credential store (`tokenManager`): a stateless wrapper over browser
 * storage that keeps the bearer token under `auth_token` and the serialized
 * user record under `user_data`. Reads are functions of the storage map;
 * writes are methods that update it in place.
 */
module Credentials {
  import opened Wrappers
  import opened Json
  import opened BrowserStorage

  /** The storage key of the bearer token. */
  const AUTH_TOKEN: string := "auth_token"
  /** The storage key of the serialized user record. */
  const USER_DATA: string := "user_data"

  /** What reading malformed user data throws (`JSON.parse`'s `SyntaxError`). */
  datatype ReadError = SyntaxError

  /** A stored token counts only when it is a non-empty string. */
  predicate TokenTruthy(t: Option<string>) {
    t.Some? && t.value != ""
  }

  /** `getItem('auth_token')` on the storage map `items`. */
  function TokenIn(items: map<string, string>): (r: Option<string>)
    ensures r.Some? <==> AUTH_TOKEN in items
    ensures r.Some? ==> r.value == items[AUTH_TOKEN]
  {
    if AUTH_TOKEN in items then Some(items[AUTH_TOKEN]) else None
  }

  /**
   * `data ? JSON.parse(data) : null` for `data = getItem('user_data')`: absent
   * or empty data reads as `null`, anything else is parsed and may throw.
   */
  function UserDataIn(json: Codec, items: map<string, string>): (r: Result<Value, ReadError>)
    ensures USER_DATA !in items || items[USER_DATA] == "" ==> r == Success(Null)
    ensures USER_DATA in items && items[USER_DATA] != "" ==>
      (r.Failure? <==> json.parse(items[USER_DATA]) == None)
    ensures USER_DATA in items && items[USER_DATA] != "" && json.parse(items[USER_DATA]).Some? ==>
      r == Success(json.parse(items[USER_DATA]).value)
  {
    if USER_DATA !in items || items[USER_DATA] == "" then Success(Null)
    else match json.parse(items[USER_DATA])
      case Some(v) => Success(v)
      case None => Failure(SyntaxError)
  }

  /** The storage map after a successful `setToken(token)`. */
  function StoreToken(items: map<string, string>, token: string): (r: map<string, string>)
    ensures token == "" ==> r == items
    ensures token != "" ==> TokenIn(r) == Some(token)
    ensures forall k | k != AUTH_TOKEN :: (k in r <==> k in items) && (k in r ==> r[k] == items[k])
  {
    if token != "" then items[AUTH_TOKEN := token] else items
  }

  /** The storage map after a successful `setUserData(userData)`. */
  function StoreUserData(json: Codec, items: map<string, string>, userData: Value): (r: map<string, string>)
    ensures !Truthy(userData) ==> r == items
    ensures Truthy(userData) ==> USER_DATA in r && r[USER_DATA] == json.serialize(userData)
    ensures forall k | k != USER_DATA :: (k in r <==> k in items) && (k in r ==> r[k] == items[k])
  {
    if Truthy(userData) then items[USER_DATA := json.serialize(userData)] else items
  }

  /** The storage map after a successful `clearAll()`. */
  function Cleared(items: map<string, string>): (r: map<string, string>)
    ensures TokenIn(r) == None && AUTH_TOKEN !in r && USER_DATA !in r
    ensures forall k | k != AUTH_TOKEN && k != USER_DATA :: (k in r <==> k in items) && (k in r ==> r[k] == items[k])
  {
    items - {AUTH_TOKEN, USER_DATA}
  }

  /** With a lawful JSON codec, stored user data reads back as the value stored. */
  lemma UserDataRoundTrip(json: Codec, items: map<string, string>, userData: Value)
    requires Lawful(json) && Truthy(userData)
    ensures UserDataIn(json, StoreUserData(json, items, userData)) == Success(userData)
  {
  }

  /** Storing a token does not disturb what the user data reads as. */
  lemma StoreTokenKeepsUserData(json: Codec, items: map<string, string>, token: string)
    ensures UserDataIn(json, StoreToken(items, token)) == UserDataIn(json, items)
  {
  }

  /** Clearing is idempotent. */
  lemma ClearedIdempotent(items: map<string, string>)
    ensures Cleared(Cleared(items)) == Cleared(items)
  {
  }

  /** After clearing, neither credential reads back. */
  lemma ClearedReadsNothing(json: Codec, items: map<string, string>)
    ensures TokenIn(Cleared(items)) == None && UserDataIn(json, Cleared(items)) == Success(Null)
  {
  }

  /** `tokenManager`, bound to one storage object and one JSON codec. */
  class TokenManager {
    const storage: LocalStorage
    const json: Codec

    constructor (storage: LocalStorage, json: Codec)
      ensures this.storage == storage && this.json == json
    {
      this.storage := storage;
      this.json := json;
    }

    /** `getToken()`. */
    function GetToken(): (r: Option<string>)
      reads storage
      ensures r.Some? <==> AUTH_TOKEN in storage.items
      ensures r.Some? ==> r.value == storage.items[AUTH_TOKEN]
    {
      TokenIn(storage.items)
    }

    /** `hasToken()`: `!!getToken()`. */
    function HasToken(): (b: bool)
      reads storage
      ensures b <==> AUTH_TOKEN in storage.items && storage.items[AUTH_TOKEN] != ""
    {
      TokenTruthy(GetToken())
    }

    /** `getUserData()`; a `Failure` is the `SyntaxError` it throws, not caught here. */
    function GetUserData(): (r: Result<Value, ReadError>)
      reads storage
      ensures var items := storage.items;
        && (USER_DATA !in items || items[USER_DATA] == "" ==> r == Success(Null))
        && (USER_DATA in items && items[USER_DATA] != "" ==>
              r == match json.parse(items[USER_DATA])
                   case Some(v) => Success(v)
                   case None => Failure(SyntaxError))
    {
      UserDataIn(json, storage.items)
    }

    /** `setToken(token)`: an empty token writes nothing. */
    method SetToken(token: string, throws: bool) returns (outcome: Outcome<StorageError>)
      modifies storage
      ensures token == "" ==> outcome == Pass && storage.items == old(storage.items)
      ensures token != "" ==> outcome == if throws then Fail(StorageError) else Pass
      ensures storage.items == if outcome.Fail? then old(storage.items) else StoreToken(old(storage.items), token)
      ensures token != "" && !throws ==> GetToken() == Some(token)
    {
      outcome := Pass;
      if token != "" {
        outcome := storage.SetItem(AUTH_TOKEN, token, throws);
      }
    }

    /** `clearToken()`: only `auth_token` goes. */
    method ClearToken(throws: bool) returns (outcome: Outcome<StorageError>)
      modifies storage
      ensures outcome == if throws then Fail(StorageError) else Pass
      ensures storage.items == if throws then old(storage.items) else old(storage.items) - {AUTH_TOKEN}
      ensures !throws ==> GetToken() == None && GetUserData() == old(GetUserData())
    {
      outcome := storage.RemoveItem(AUTH_TOKEN, throws);
    }

    /** `setUserData(userData)`: a falsy value writes nothing. */
    method SetUserData(userData: Value, throws: bool) returns (outcome: Outcome<StorageError>)
      modifies storage
      ensures !Truthy(userData) ==> outcome == Pass && storage.items == old(storage.items)
      ensures Truthy(userData) ==> outcome == if throws then Fail(StorageError) else Pass
      ensures storage.items == if outcome.Fail? then old(storage.items) else StoreUserData(json, old(storage.items), userData)
      ensures GetToken() == old(GetToken())
      ensures Lawful(json) && Truthy(userData) && !throws ==> GetUserData() == Success(userData)
    {
      outcome := Pass;
      if Truthy(userData) {
        outcome := storage.SetItem(USER_DATA, json.serialize(userData), throws);
        if Lawful(json) && !throws {
          UserDataRoundTrip(json, old(storage.items), userData);
        }
      }
    }

    /**
     * `clearAll()`: two removals in sequence. A throwing first removal leaves
     * both keys; a throwing second one leaves the user data.
     */
    method ClearAll(firstThrows: bool, secondThrows: bool) returns (outcome: Outcome<StorageError>)
      modifies storage
      ensures outcome == if firstThrows || secondThrows then Fail(StorageError) else Pass
      ensures storage.items ==
        if firstThrows then old(storage.items)
        else if secondThrows then old(storage.items) - {AUTH_TOKEN}
        else Cleared(old(storage.items))
      ensures outcome.Pass? ==> GetToken() == None && GetUserData() == Success(Null)
    {
      outcome := storage.RemoveItem(AUTH_TOKEN, firstThrows);
      if outcome.Fail? {
        return;
      }
      outcome := storage.RemoveItem(USER_DATA, secondThrows);
    }
  }
}
