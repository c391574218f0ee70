/**
 * AuthStorage: the credential store (access token, refresh token, login, device id)
 * kept in the app's private preferences, modelled as an in-memory string map.
 */
module AuthStore {
  import opened Wrappers

  const KeyAccessToken: string := "access_token"
  const KeyRefreshToken: string := "refresh_token"
  const KeyLogin: string := "login"
  const KeyDeviceId: string := "device_id"

  /** `prefs.getString(key, null)`. */
  function Lookup(m: map<string, string>, key: string): (r: Option<string>)
    ensures r.Some? <==> key in m
    ensures r.Some? ==> m[key] == r.value
  {
    if key in m then Some(m[key]) else None
  }

  /** `editor.putString(key, value)`; a null value removes the key. */
  function Put(m: map<string, string>, key: string, value: Option<string>): (r: map<string, string>)
    ensures Lookup(r, key) == value
    ensures forall k :: k != key ==> Lookup(r, k) == Lookup(m, k)
  {
    match value
    case Some(v) => m[key := v]
    case None => m - {key}
  }

  /** The map left by `clearAll`: the three session keys gone, everything else kept. */
  function ClearSession(m: map<string, string>): (r: map<string, string>)
    ensures Lookup(r, KeyAccessToken) == None
    ensures Lookup(r, KeyRefreshToken) == None
    ensures Lookup(r, KeyLogin) == None
    ensures forall k :: k != KeyAccessToken && k != KeyRefreshToken && k != KeyLogin ==>
      Lookup(r, k) == Lookup(m, k)
  {
    m - {KeyAccessToken, KeyRefreshToken, KeyLogin}
  }

  /** The map left by `saveTokens(access, refresh)`. */
  function StoreTokens(m: map<string, string>, access: Option<string>, refresh: Option<string>): (r: map<string, string>)
    ensures Lookup(r, KeyAccessToken) == access
    ensures Lookup(r, KeyRefreshToken) == refresh
    ensures forall k :: k != KeyAccessToken && k != KeyRefreshToken ==> Lookup(r, k) == Lookup(m, k)
  {
    Put(Put(m, KeyAccessToken, access), KeyRefreshToken, refresh)
  }

  /** The device id survives any sequence of token saves and session clears. */
  lemma DeviceIdSurvivesSession(m: map<string, string>, access: Option<string>, refresh: Option<string>, login: Option<string>)
    ensures Lookup(ClearSession(Put(StoreTokens(m, access, refresh), KeyLogin, login)), KeyDeviceId)
         == Lookup(m, KeyDeviceId)
  {
  }

  /** Clearing twice is clearing once. */
  lemma ClearSessionIdempotent(m: map<string, string>)
    ensures ClearSession(ClearSession(m)) == ClearSession(m)
  {
  }

  class AuthStorage {
    /** The preference file: key to stored string. */
    var prefs: map<string, string>

    constructor (initial: map<string, string>)
      ensures prefs == initial
    {
      prefs := initial;
    }

    function AccessToken(): Option<string>
      reads this
    {
      Lookup(prefs, KeyAccessToken)
    }

    function RefreshToken(): Option<string>
      reads this
    {
      Lookup(prefs, KeyRefreshToken)
    }

    function Login(): Option<string>
      reads this
    {
      Lookup(prefs, KeyLogin)
    }

    function DeviceId(): Option<string>
      reads this
    {
      Lookup(prefs, KeyDeviceId)
    }

    method SaveTokens(access: Option<string>, refresh: Option<string>)
      modifies this
      ensures prefs == StoreTokens(old(prefs), access, refresh)
      ensures AccessToken() == access && RefreshToken() == refresh
      ensures Login() == old(Login()) && DeviceId() == old(DeviceId())
    {
      prefs := Put(prefs, KeyAccessToken, access);
      prefs := Put(prefs, KeyRefreshToken, refresh);
    }


    method SaveLogin(login: Option<string>)
      modifies this
      ensures prefs == Put(old(prefs), KeyLogin, login)
      ensures Login() == login
      ensures AccessToken() == old(AccessToken()) && RefreshToken() == old(RefreshToken())
      ensures DeviceId() == old(DeviceId())
    {
      prefs := Put(prefs, KeyLogin, login);
    }

    method ClearAll()
      modifies this
      ensures prefs == ClearSession(old(prefs))
      ensures AccessToken() == None && RefreshToken() == None && Login() == None
      ensures DeviceId() == old(DeviceId())
    {
      prefs := prefs - {KeyAccessToken, KeyRefreshToken, KeyLogin};
    }

    /**
     * Returns the stored device id when it is non-empty; otherwise stores and returns
     * `generated`, the fresh random UUID string (never empty).
     */
    method GetOrCreateDeviceId(generated: string) returns (id: string)
      requires generated != []
      modifies this
      ensures id != [] && DeviceId() == Some(id)
      ensures old(DeviceId()).Some? && old(DeviceId()).value != [] ==>
        id == old(DeviceId()).value && prefs == old(prefs)
      ensures !(old(DeviceId()).Some? && old(DeviceId()).value != []) ==>
        id == generated && prefs == old(prefs)[KeyDeviceId := generated]
    {
      var existing := Lookup(prefs, KeyDeviceId);
      if existing.Some? && existing.value != [] {
        return existing.value;
      }
      prefs := prefs[KeyDeviceId := generated];
      id := generated;
    }
  }
}
