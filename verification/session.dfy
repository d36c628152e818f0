/**
 * What the sign-up pages do with the tokens of a successful reply: store
 * them in local storage and mirror them into cookies, then choose where to
 * go. The cookie string format is the `Set-Cookie`-like text assigned to
 * `document.cookie` (section 4.1 of RFC 6265 for the attribute syntax).
 */
module Session {
  import opened Js
  import opened Text
  import opened Wrappers

  const AccessTokenKey := "accessToken"
  const RefreshTokenKey := "refreshToken"

  /** The attributes every token cookie is written with. */
  const CookieAttributes := "; path=/; SameSite=Strict"

  /** One side effect on the browser's storage: `setItem`, `removeItem`, or an assignment to `document.cookie`. */
  datatype Write = StoreItem(key: string, value: string) | RemoveItem(key: string) | SetCookie(cookie: string)

  /** Local storage: the items it holds, by key. */
  type Storage = map<string, string>

  /** `localStorage.getItem(key)`: the stored string, or `null` (here `None`). */
  function GetItem(storage: Storage, key: string): Option<string> {
    if key in storage then Some(storage[key]) else None
  }

  /** The storage after one write; cookies live elsewhere and leave it as it was. */
  function ApplyWrite(storage: Storage, w: Write): (r: Storage)
    ensures w.StoreItem? ==> GetItem(r, w.key) == Some(w.value)
    ensures w.RemoveItem? ==> GetItem(r, w.key) == None
    ensures forall k | !(w.StoreItem? || w.RemoveItem?) || k != w.key :: GetItem(r, k) == GetItem(storage, k)
  {
    match w
    case StoreItem(key, value) => storage[key := value]
    case RemoveItem(key) => storage - {key}
    case SetCookie(_) => storage
  }

  /** The storage after a sequence of writes, applied in order. */
  function ApplyWrites(storage: Storage, writes: seq<Write>): Storage
    decreases |writes|
  {
    if writes == [] then storage else ApplyWrites(ApplyWrite(storage, writes[0]), writes[1..])
  }

  /** `${name}=${value}; path=/; SameSite=Strict`. */
  function TokenCookie(name: string, value: string): (c: string)
    ensures StartsWith(c, name + "=")
    ensures c[|name| + 1..] == value + CookieAttributes
  {
    assert (name + "=" + value + CookieAttributes)[..|name| + 1] == name + "=";
    name + "=" + value + CookieAttributes
  }

  /**
   * The writes after a successful sign-up reply with body `data`, and the
   * page navigated to. `toText` is JavaScript's conversion of a value to a
   * string, used by `setItem` and by the template literal.
   */
  function SaveTokens(data: JsValue, toText: JsValue -> string): (r: (seq<Write>, string))
    ensures r.1 == "/main" <==> Truthy(Get(data, AccessTokenKey))
    ensures r.1 != "/main" ==> r == ([], "/login")
    ensures Truthy(Get(data, AccessTokenKey)) ==>
      var access := toText(Get(data, AccessTokenKey));
      var refresh := toText(Get(data, RefreshTokenKey));
      && |r.0| == (if Truthy(Get(data, RefreshTokenKey)) then 4 else 2)
      && r.0[0] == StoreItem(AccessTokenKey, access)
      && SetCookie(TokenCookie(AccessTokenKey, access)) in r.0
      && (StoreItem(RefreshTokenKey, refresh) in r.0 <==> Truthy(Get(data, RefreshTokenKey)))
      && (SetCookie(TokenCookie(RefreshTokenKey, refresh)) in r.0 <==> Truthy(Get(data, RefreshTokenKey)))
    ensures Truthy(Get(data, AccessTokenKey)) && Truthy(Get(data, RefreshTokenKey)) ==>
      var access := toText(Get(data, AccessTokenKey));
      var refresh := toText(Get(data, RefreshTokenKey));
      r.0 == [StoreItem(AccessTokenKey, access), StoreItem(RefreshTokenKey, refresh),
              SetCookie(TokenCookie(AccessTokenKey, access)), SetCookie(TokenCookie(RefreshTokenKey, refresh))]
    ensures Truthy(Get(data, AccessTokenKey)) && !Truthy(Get(data, RefreshTokenKey)) ==>
      var access := toText(Get(data, AccessTokenKey));
      r.0 == [StoreItem(AccessTokenKey, access), SetCookie(TokenCookie(AccessTokenKey, access))]
  {
    var access := Get(data, AccessTokenKey);
    var refresh := Get(data, RefreshTokenKey);
    if !Truthy(access) then ([], "/login")
    else
      var a := toText(access);
      var t := toText(refresh);
      assert TokenCookie(AccessTokenKey, a)[0] == 'a' && TokenCookie(RefreshTokenKey, t)[0] == 'r';
      var stored := [StoreItem(AccessTokenKey, a)] + (if Truthy(refresh) then [StoreItem(RefreshTokenKey, t)] else []);
      var cookies := [SetCookie(TokenCookie(AccessTokenKey, a))] + (if Truthy(refresh) then [SetCookie(TokenCookie(RefreshTokenKey, t))] else []);
      (stored + cookies, "/main")
  }

  /** Applying two runs of writes one after the other is applying their concatenation. */
  lemma {:induction false} ApplyWritesAppend(storage: Storage, first: seq<Write>, second: seq<Write>)
    ensures ApplyWrites(storage, first + second) == ApplyWrites(ApplyWrites(storage, first), second)
    decreases |first|
  {
    if first != [] {
      assert (first + second)[0] == first[0];
      assert (first + second)[1..] == first[1..] + second;
      ApplyWritesAppend(ApplyWrite(storage, first[0]), first[1..], second);
    } else {
      assert first + second == second;
    }
  }

  /** Cookie assignments leave local storage as it was. */
  lemma {:induction false} CookiesLeaveStorage(storage: Storage, writes: seq<Write>)
    requires forall i | 0 <= i < |writes| :: writes[i].SetCookie?
    ensures ApplyWrites(storage, writes) == storage
    decreases |writes|
  {
    if writes != [] {
      CookiesLeaveStorage(ApplyWrite(storage, writes[0]), writes[1..]);
    }
  }

  /**
   * Reading local storage back after the writes of a successful sign-up: the
   * access token is there; the refresh token is there exactly when it was
   * truthy, and otherwise whatever an earlier session stored under its key
   * survives; every other key is untouched. Without an access token nothing
   * changes.
   */
  lemma SaveTokensReadBack(storage: Storage, data: JsValue, toText: JsValue -> string)
    ensures var after := ApplyWrites(storage, SaveTokens(data, toText).0);
      && (!Truthy(Get(data, AccessTokenKey)) ==> after == storage)
      && (Truthy(Get(data, AccessTokenKey)) ==>
            && GetItem(after, AccessTokenKey) == Some(toText(Get(data, AccessTokenKey)))
            && GetItem(after, RefreshTokenKey) ==
                 (if Truthy(Get(data, RefreshTokenKey)) then Some(toText(Get(data, RefreshTokenKey))) else GetItem(storage, RefreshTokenKey)))
      && forall k | k != AccessTokenKey && k != RefreshTokenKey :: GetItem(after, k) == GetItem(storage, k)
  {
    var writes := SaveTokens(data, toText).0;
    if Truthy(Get(data, AccessTokenKey)) {
      var access := toText(Get(data, AccessTokenKey));
      var refresh := toText(Get(data, RefreshTokenKey));
      var n := if Truthy(Get(data, RefreshTokenKey)) then 2 else 1;
      var stored := writes[..n];
      var cookies := writes[n..];
      assert writes == stored + cookies;
      ApplyWritesAppend(storage, stored, cookies);
      CookiesLeaveStorage(ApplyWrites(storage, stored), cookies);
      var s1 := ApplyWrite(storage, stored[0]);
      if n == 2 {
        var s2 := ApplyWrite(s1, stored[1]);
        assert ApplyWrites(storage, stored) == s2 by {
          assert stored[1..][1..] == [];
          assert ApplyWrites(s1, stored[1..]) == ApplyWrites(s2, []);
        }
      } else {
        assert ApplyWrites(storage, stored) == s1 by {
          assert stored[1..] == [];
        }
      }
    } else {
      assert writes == [];
    }
  }
}
