/**
 * Admin sign-in and session (src/utils/adminAuth.ts): the mapping of the
 * credential-check call's answer to `{ user, error }`, and the session kept
 * under one key of the browser's key-value store.
 */
module AdminAuth {

  import opened Nullable

  datatype AdminUser = AdminUser(id: string, username: string, createdAt: string, updatedAt: string)

  /**
   * What the `verify_admin_login` call did: returned an error, returned rows
   * (possibly null), or threw. The credentials themselves are only seen by it.
   */
  datatype RpcOutcome = RpcFailed | RpcAnswered(data: Option<seq<AdminUser>>) | RpcThrew

  datatype LoginResult = LoginResult(user: Option<AdminUser>, error: Option<string>)

  const ServerError: string := "Erro interno do servidor"
  const InvalidCredentials: string := "Credenciais inválidas"

  /** `loginAdmin`. */
  function LoginAdmin(rpc: RpcOutcome): (r: LoginResult)
    ensures r.user.Some? != r.error.Some?
    ensures r.user.Some? <==> rpc.RpcAnswered? && rpc.data.Some? && |rpc.data.value| > 0
    ensures r.user.Some? ==> r.user.value == rpc.data.value[0]
    ensures r.error == Some(InvalidCredentials) <==> rpc.RpcAnswered? && (rpc.data.None? || rpc.data.value == [])
    ensures r.error == Some(ServerError) <==> !rpc.RpcAnswered?
  {
    match rpc
    case RpcFailed => LoginResult(None, Some(ServerError))
    case RpcThrew => LoginResult(None, Some(ServerError))
    case RpcAnswered(data) =>
      if data.None? || |data.value| == 0 then LoginResult(None, Some(InvalidCredentials))
      else LoginResult(Some(data.value[0]), None)
  }

  /** The two error texts are the only ones, and neither says which credential was wrong. */
  lemma LoginErrorsAreGeneric(rpc: RpcOutcome)
    ensures LoginAdmin(rpc).error.Some? ==>
      LoginAdmin(rpc).error.value == ServerError || LoginAdmin(rpc).error.value == InvalidCredentials
  {
  }

  const SessionKey: string := "admin_user"

  /** `getAdminSession` read off a store's contents. */
  function StoredSession(items: map<string, AdminUser>): (u: Option<AdminUser>)
    ensures u.Some? <==> SessionKey in items
    ensures u.Some? ==> u.value == items[SessionKey]
  {
    if SessionKey in items then Some(items[SessionKey]) else None
  }

  /** Storing a user makes it the session; clearing leaves none. */
  lemma SessionRoundTrip(items: map<string, AdminUser>, u: AdminUser)
    ensures StoredSession(items[SessionKey := u]) == Some(u)
    ensures StoredSession(items - {SessionKey}) == None
    ensures StoredSession((items - {SessionKey})[SessionKey := u]) == Some(u)
  {
  }

  /**
   * The browser's key-value store. Values are kept as the user records that
   * `JSON.stringify`/`JSON.parse` carry across.
   */
  class SessionStore {
    var items: map<string, AdminUser>

    constructor (initial: map<string, AdminUser>)
      ensures items == initial
    {
      items := initial;
    }

    /** `setAdminSession`: write the session key, touch no other. */
    method SetAdminSession(u: AdminUser)
      modifies this
      ensures items == old(items)[SessionKey := u]
      ensures StoredSession(items) == Some(u)
      ensures forall k :: k != SessionKey ==> (k in items <==> k in old(items))
    {
      items := items[SessionKey := u];
    }

    /** `getAdminSession`. */
    method GetAdminSession() returns (u: Option<AdminUser>)
      ensures u == StoredSession(items)
    {
      if SessionKey in items {
        u := Some(items[SessionKey]);
      } else {
        u := None;
      }
    }

    /** `clearAdminSession`: remove the session key, touch no other. */
    method ClearAdminSession()
      modifies this
      ensures items == old(items) - {SessionKey}
      ensures StoredSession(items).None?
      ensures forall k :: k != SessionKey ==> (k in items <==> k in old(items))
    {
      items := items - {SessionKey};
    }
  }
}
