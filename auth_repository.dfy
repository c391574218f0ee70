/**
 * AuthRepository: the calls of the /auth API that change the local session, and the
 * two helpers that turn failures into user-facing messages.
 */
module AuthRepo {
  import opened Wrappers
  import opened Text
  import opened Http
  import opened AuthStore
  import opened TokenAuth

  /** A parsed JSON value; a primitive keeps the text `getAsString` returns. */
  datatype Json =
    | JNull
    | JPrimitive(text: string)
    | JArray(items: seq<Json>)
    | JObject(members: map<string, Json>)

  /**
   * `response.errorBody()` when present: either reading it fails, or it yields the raw
   * text together with the outcome of parsing it (None: the parser threw).
   */
  datatype ErrorBody = Unreadable | Body(raw: string, parsed: Option<Json>)

  /** A reply that reached the app: status code, decoded body, error body. */
  datatype Reply<T> = Reply(code: int, body: Option<T>, errorBody: Option<ErrorBody>)

  /** How an enqueued call ends: `onResponse`, or `onFailure` with the throwable's message. */
  datatype CallOutcome<T> = Responded(reply: Reply<T>) | Failed(message: Option<string>)

  /** What the repository reports to its callback. */
  datatype Callback = Success | Error(message: string)

  const UnknownError: string := "неизвестная ошибка"
  const NoSessionData: string := "Нет сохранённых данных для обновления сессии"

  /** `isLoggedIn`: both tokens are stored and non-empty (not trimmed). */
  predicate IsLoggedIn(store: map<string, string>)
    ensures IsLoggedIn(store) <==>
      KeyAccessToken in store && |store[KeyAccessToken]| > 0 && KeyRefreshToken in store && |store[KeyRefreshToken]| > 0
  {
    Lookup(store, KeyAccessToken).Some? && Lookup(store, KeyAccessToken).value != [] &&
    Lookup(store, KeyRefreshToken).Some? && Lookup(store, KeyRefreshToken).value != []
  }

  /** No session survives `clearAll`. */
  lemma ClearedIsLoggedOut(store: map<string, string>)
    ensures !IsLoggedIn(ClearSession(store))
  {
  }

  /** Storing two non-empty tokens logs in, whatever was stored before. */
  lemma StoredTokensLogIn(store: map<string, string>, access: string, refresh: string)
    requires access != [] && refresh != []
    ensures IsLoggedIn(StoreTokens(store, Some(access), Some(refresh)))
  {
  }

  /** `safeMessage`: a throwable's message, or a stock text when it is missing or blank. */
  function SafeMessage(message: Option<string>): (r: string)
    ensures message.None? || IsBlank(message.value) ==> r == UnknownError
    ensures message.Some? && !IsBlank(message.value) ==> r == message.value
    ensures !IsBlank(r)
  {
    if message.None? || IsBlank(message.value) then UnknownError else message.value
  }

  /** The message FastAPI puts under "detail": a primitive, or an object's "message", else its "code". */
  function DetailMessage(root: Json): (r: Option<string>)
  {
    match root
    case JObject(members) =>
      if "detail" !in members then None
      else
        (match members["detail"]
         case JPrimitive(text) => Some(text)
         case JObject(detail) =>
           if "message" in detail && detail["message"].JPrimitive? then Some(detail["message"].text)
           else if "code" in detail && detail["code"].JPrimitive? then Some(detail["code"].text)
           else None
         case _ => None)
    case _ => None
  }

  /** `extractErrorMessage`: the server's detail message, or `fallback` for any other shape or failure. */
  function ExtractErrorMessage(errorBody: Option<ErrorBody>, fallback: string): (r: string)
    ensures errorBody.None? || errorBody.value.Unreadable? ==> r == fallback
    ensures errorBody.Some? && errorBody.value.Body? && errorBody.value.raw == [] ==> r == fallback
    ensures errorBody.Some? && errorBody.value.Body? && errorBody.value.parsed.None? ==> r == fallback
    ensures r != fallback ==>
      errorBody.Some? && errorBody.value.Body? && errorBody.value.parsed.Some? &&
      DetailMessage(errorBody.value.parsed.value) == Some(r)
    ensures (errorBody.Some? && errorBody.value.Body? && errorBody.value.raw != [] &&
      errorBody.value.parsed.Some? && DetailMessage(errorBody.value.parsed.value).Some?) ==>
      r == DetailMessage(errorBody.value.parsed.value).value
  {
    match errorBody
    case None => fallback
    case Some(Unreadable) => fallback
    case Some(Body(raw, parsed)) =>
      if raw == [] then fallback
      else match parsed
        case None => fallback
        case Some(root) =>
          match DetailMessage(root)
          case Some(m) => m
          case None => fallback
  }

  /** A primitive "detail" yields its text, whatever other members the object has. */
  lemma DetailStringIsMessage(raw: string, members: map<string, Json>, fallback: string)
    requires raw != []
    requires "detail" in members && members["detail"].JPrimitive?
    ensures ExtractErrorMessage(Some(Body(raw, Some(JObject(members)))), fallback) == members["detail"].text
  {
  }

  /**
   * An object "detail" yields its primitive "message", else its primitive "code", else
   * the fallback, whatever other members the root object has.
   */
  lemma DetailObjectPrefersMessage(raw: string, members: map<string, Json>, fallback: string)
    requires raw != []
    requires "detail" in members && members["detail"].JObject?
    ensures var detail := members["detail"].members;
      var r := ExtractErrorMessage(Some(Body(raw, Some(JObject(members)))), fallback);
      ("message" in detail && detail["message"].JPrimitive? ==> r == detail["message"].text) &&
      (!("message" in detail && detail["message"].JPrimitive?) && "code" in detail && detail["code"].JPrimitive? ==>
         r == detail["code"].text) &&
      (!("message" in detail && detail["message"].JPrimitive?) && !("code" in detail && detail["code"].JPrimitive?) ==>
         r == fallback)
  {
  }

  /** A JSON null, array or missing "detail" falls back. */
  lemma DetailNullFallsBack(raw: string, members: map<string, Json>, fallback: string)
    requires "detail" !in members || members["detail"].JNull? || members["detail"].JArray?
    ensures ExtractErrorMessage(Some(Body(raw, Some(JObject(members)))), fallback) == fallback
  {
  }

  class AuthRepository {
    const storage: AuthStorage

    constructor (storage: AuthStorage)
      ensures this.storage == storage
    {
      this.storage := storage;
    }

    function LoggedIn(): bool
      reads storage
    {
      IsLoggedIn(storage.prefs)
    }

    /** `login`: on a successful reply with a body, stores both tokens and the login. */
    method Login(login: string, password: string, outcome: CallOutcome<TokenPair>) returns (result: Callback)
      modifies storage
      ensures outcome.Responded? && IsSuccessful(outcome.reply.code) && outcome.reply.body.Some? ==>
        result == Success &&
        storage.prefs == Put(StoreTokens(old(storage.prefs), outcome.reply.body.value.accessToken,
                                         outcome.reply.body.value.refreshToken), KeyLogin, Some(login))
      ensures outcome.Responded? && !(IsSuccessful(outcome.reply.code) && outcome.reply.body.Some?) ==>
        result == Error(ExtractErrorMessage(outcome.reply.errorBody, "Ошибка авторизации: " + IntToString(outcome.reply.code))) &&
        storage.prefs == old(storage.prefs)
      ensures outcome.Failed? ==>
        result == Error("Сетевая ошибка при авторизации: " + SafeMessage(outcome.message)) &&
        storage.prefs == old(storage.prefs)
    {
      match outcome {
        case Failed(message) =>
          return Error("Сетевая ошибка при авторизации: " + SafeMessage(message));
        case Responded(reply) =>
          if !IsSuccessful(reply.code) || reply.body.None? {
            var message := ExtractErrorMessage(reply.errorBody, "Ошибка авторизации: " + IntToString(reply.code));
            return Error(message);
          }
          var tokens := reply.body.value;
          storage.SaveTokens(tokens.accessToken, tokens.refreshToken);
          storage.SaveLogin(Some(login));
          return Success;
      }
    }

    /** `resetPassword`: a successful reply clears the session; anything else leaves it. */
    method ResetPassword(email: string, code: string, newPassword: string, outcome: CallOutcome<()>) returns (result: Callback)
      modifies storage
      ensures outcome.Responded? && IsSuccessful(outcome.reply.code) ==>
        result == Success && storage.prefs == ClearSession(old(storage.prefs))
      ensures outcome.Responded? && !IsSuccessful(outcome.reply.code) ==>
        result == Error(ExtractErrorMessage(outcome.reply.errorBody, "Ошибка при смене пароля: " + IntToString(outcome.reply.code))) &&
        storage.prefs == old(storage.prefs)
      ensures outcome.Failed? ==>
        result == Error("Сетевая ошибка при смене пароля: " + SafeMessage(outcome.message)) &&
        storage.prefs == old(storage.prefs)
    {
      match outcome {
        case Failed(message) =>
          return Error("Сетевая ошибка при смене пароля: " + SafeMessage(message));
        case Responded(reply) =>
          if !IsSuccessful(reply.code) {
            var message := ExtractErrorMessage(reply.errorBody, "Ошибка при смене пароля: " + IntToString(reply.code));
            return Error(message);
          }
          storage.ClearAll();
          return Success;
      }
    }

    /**
     * `logout`: always ends with the session cleared. Without a stored refresh token no
     * request is made (`sent` is None); otherwise the token is sent and any reply or
     * failure clears the session.
     */
    method Logout(outcome: CallOutcome<()>) returns (result: Callback, ghost sent: Option<string>)
      modifies storage
      ensures storage.prefs == ClearSession(old(storage.prefs))
      ensures !LoggedIn()
      ensures sent.None? <==> old(storage.RefreshToken()).None? || old(storage.RefreshToken()).value == []
      ensures sent.Some? ==> sent == old(storage.RefreshToken())
      ensures sent.None? || outcome.Responded? ==> result == Success
      ensures sent.Some? && outcome.Failed? ==> result == Error("Ошибка при выходе: " + SafeMessage(outcome.message))
    {
      var refresh := storage.RefreshToken();
      if refresh.None? || refresh.value == [] {
        storage.ClearAll();
        return Success, None;
      }
      sent := refresh;
      match outcome {
        case Responded(_) =>
          storage.ClearAll();
          result := Success;
        case Failed(message) =>
          storage.ClearAll();
          result := Error("Ошибка при выходе: " + SafeMessage(message));
      }
    }

    /**
     * `refreshTokens`: needs a stored refresh token and login; then a good reply stores
     * the new pair and every other ending clears the session.
     */
    method RefreshTokens(outcome: CallOutcome<TokenPair>) returns (result: Callback, ghost sent: Option<RefreshRequest>)
      modifies storage
      ensures var refresh, login := old(storage.RefreshToken()), old(storage.Login());
        (refresh.None? || refresh.value == [] || login.None? || login.value == []) ==>
          result == Error(NoSessionData) && sent.None? && storage.prefs == old(storage.prefs)
      ensures var refresh, login := old(storage.RefreshToken()), old(storage.Login());
        sent.Some? <==> !(refresh.None? || refresh.value == [] || login.None? || login.value == [])
      ensures sent.Some? ==> sent == Some(RefreshRequest(old(storage.RefreshToken()).value, old(storage.Login()).value))
      ensures sent.Some? && outcome.Responded? && IsSuccessful(outcome.reply.code) && outcome.reply.body.Some? ==>
        result == Success &&
        storage.prefs == StoreTokens(old(storage.prefs), outcome.reply.body.value.accessToken, outcome.reply.body.value.refreshToken)
      ensures sent.Some? && outcome.Responded? && !(IsSuccessful(outcome.reply.code) && outcome.reply.body.Some?) ==>
        result == Error(ExtractErrorMessage(outcome.reply.errorBody, "Не удалось обновить сессию: " + IntToString(outcome.reply.code))) &&
        storage.prefs == ClearSession(old(storage.prefs))
      ensures sent.Some? && outcome.Failed? ==>
        result == Error("Сетевая ошибка при обновлении сессии: " + SafeMessage(outcome.message)) &&
        storage.prefs == ClearSession(old(storage.prefs))
    {
      var refreshToken := storage.RefreshToken();
      var login := storage.Login();
      if refreshToken.None? || refreshToken.value == [] || login.None? || login.value == [] {
        return Error(NoSessionData), None;
      }
      sent := Some(RefreshRequest(refreshToken.value, login.value));
      match outcome {
        case Failed(message) =>
          storage.ClearAll();
          result := Error("Сетевая ошибка при обновлении сессии: " + SafeMessage(message));
        case Responded(reply) =>
          if !IsSuccessful(reply.code) || reply.body.None? {
            var message := ExtractErrorMessage(reply.errorBody, "Не удалось обновить сессию: " + IntToString(reply.code));
            storage.ClearAll();
            return Error(message), sent;
          }
          var tokens := reply.body.value;
          storage.SaveTokens(tokens.accessToken, tokens.refreshToken);
          result := Success;
      }
    }
  }
}
