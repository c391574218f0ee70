/**
 * ApiClient: the process-wide HTTP client. Its interceptors stamp every request with
 * the device headers and with the stored bearer token, and the client exists once,
 * created by `init` and handed out by `getInstance`.
 */
module ApiClientModel {
  import opened Wrappers
  import opened Http
  import opened AuthStore
  import TokenAuth
  import Text

  const ApiBaseUrl: string := "https://api.belqax.xyz/"
  const AppVersion: string := "0.1.0-dev"
  const Platform: string := "android"
  const InitMissingMessage: string := "ApiClient.init() must be called in Application.onCreate()"

  /** The five device headers set on `original`; `manufacturer`, `model`, `osVersion` come from `Build`. */
  function WithDeviceHeaders(original: Request, deviceId: string, manufacturer: string, model: string, osVersion: string): (r: Request)
    ensures r.path == original.path
    ensures Header(r, "X-Device-Id") == Some(deviceId)
    ensures Header(r, "X-Platform") == Some(Platform)
    ensures Header(r, "X-Device-Model") == Some(manufacturer + " " + model)
    ensures Header(r, "X-OS-Version") == Some(osVersion)
    ensures Header(r, "X-App-Version") == Some(AppVersion)
    ensures forall h :: h !in {"X-Device-Id", "X-Platform", "X-Device-Model", "X-OS-Version", "X-App-Version"} ==>
      Header(r, h) == Header(original, h)
  {
    var r1 := WithHeader(original, "X-Device-Id", deviceId);
    var r2 := WithHeader(r1, "X-Platform", Platform);
    var r3 := WithHeader(r2, "X-Device-Model", manufacturer + " " + model);
    var r4 := WithHeader(r3, "X-OS-Version", osVersion);
    WithHeader(r4, "X-App-Version", AppVersion)
  }

  /**
   * The auth-header interceptor: with no stored token, or an empty one, the request
   * goes out unchanged; otherwise "Authorization: Bearer <token>" is set.
   */
  function WithStoredBearer(accessToken: Option<string>, original: Request): (r: Request)
    ensures accessToken.None? || accessToken.value == [] ==> r == original
    ensures accessToken.Some? && accessToken.value != [] ==>
      Header(r, TokenAuth.AuthHeader) == Some(TokenAuth.BearerPrefix + accessToken.value) &&
      r.path == original.path &&
      forall h :: h != TokenAuth.AuthHeader ==> Header(r, h) == Header(original, h)
  {
    if accessToken.None? || accessToken.value == [] then original
    else WithHeader(original, TokenAuth.AuthHeader, TokenAuth.BearerPrefix + accessToken.value)
  }

  /**
   * What the interceptor attaches is what the authenticator reads back: the trimmed
   * stored token.
   */
  lemma AttachedTokenIsExtracted(accessToken: string, original: Request)
    requires accessToken != []
    ensures TokenAuth.ExtractBearerToken(WithStoredBearer(Some(accessToken), original)) == Some(Text.Trim(accessToken))
  {
    TokenAuth.ExtractWithBearer(original, accessToken);
  }

  /** One built client; it reads and writes the given credential store. */
  class ApiClient {
    const storage: AuthStorage

    constructor (storage: AuthStorage)
      ensures this.storage == storage
    {
      this.storage := storage;
    }

    /** The device-header interceptor; `generatedId` is the UUID used if no device id is stored yet. */
    method DeviceHeadersInterceptor(original: Request, manufacturer: string, model: string, osVersion: string, generatedId: string)
      returns (r: Request)
      requires generatedId != []
      modifies storage
      ensures storage.DeviceId().Some?
      ensures r == WithDeviceHeaders(original, storage.DeviceId().value, manufacturer, model, osVersion)
      ensures old(storage.DeviceId()).Some? && old(storage.DeviceId()).value != [] ==>
        storage.prefs == old(storage.prefs) && storage.DeviceId() == old(storage.DeviceId())
      ensures !(old(storage.DeviceId()).Some? && old(storage.DeviceId()).value != []) ==>
        storage.prefs == old(storage.prefs)[KeyDeviceId := generatedId] && storage.DeviceId() == Some(generatedId)
    {
      var deviceId := storage.GetOrCreateDeviceId(generatedId);
      r := WithDeviceHeaders(original, deviceId, manufacturer, model, osVersion);
    }

    /** The auth-header interceptor, reading the token stored at the time of the call. */
    method AuthHeaderInterceptor(original: Request) returns (r: Request)
      ensures r == WithStoredBearer(storage.AccessToken(), original)
    {
      var accessToken := storage.AccessToken();
      if accessToken.None? || accessToken.value == [] {
        return original;
      }
      r := WithHeader(original, TokenAuth.AuthHeader, TokenAuth.BearerPrefix + accessToken.value);
    }
  }

  datatype Instance = Instance(client: ApiClient) | IllegalState(message: string)

  /** The static `instance` field and the two static methods around it. */
  class ApiClientHolder {
    var instance: ApiClient?

    constructor ()
      ensures instance == null
    {
      instance := null;
    }

    /** `init`: builds the client on the first call only. */
    method Init(storage: AuthStorage)
      modifies this
      ensures old(instance) != null ==> instance == old(instance)
      ensures old(instance) == null ==> instance != null && fresh(instance) && instance.storage == storage
    {
      if instance == null {
        instance := new ApiClient(storage);
      }
    }

    /** `getInstance`: the client, or IllegalStateException before `init`. */
    method GetInstance() returns (r: Instance)
      ensures instance == null ==> r == IllegalState(InitMissingMessage)
      ensures instance != null ==> r == Instance(instance)
    {
      if instance == null {
        return IllegalState(InitMissingMessage);
      }
      r := Instance(instance);
    }
  }
}
