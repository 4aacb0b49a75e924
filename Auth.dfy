/** `AuthContext`: the session flag, the display name decoded from the token,
    and the secure-storage slot the token is persisted in. */
module AuthContext {
  import opened Common

  /** The claims of a decoded token that the client reads: `nome`, which the
      token may lack. */
  datatype Claims = Claims(nome: Option<string>)

  /** `jwtDecode`, as a partial function: None when decoding throws. */
  type Decoder = string -> Option<Claims>

  /** `userName` after decoding `token`: the `nome` claim, or null when the
      token cannot be decoded; decoding never fails the caller. */
  function NameFrom(decode: Decoder, token: string): (n: Option<string>)
    ensures decode(token).None? ==> n == None
    ensures decode(token).Some? ==> n == decode(token).value.nome
  {
    match decode(token)
    case Some(claims) => claims.nome
    case None => None
  }

  class AuthProvider {
    var isAuthenticated: bool
    var userName: Option<string>
    /** The secure store, key by key. */
    var store: map<string, string>

    /** The token kept under `userToken`, if any. */
    function StoredToken(): Option<string>
      reads this
    {
      if TokenKey in store then Some(store[TokenKey]) else None
    }

    /** The session agrees with the stored token. */
    predicate Consistent()
      reads this
    {
      isAuthenticated == HasToken(StoredToken())
    }

    /** Process start: the provider is unauthenticated, whatever is persisted. */
    constructor (persisted: map<string, string>)
      ensures !isAuthenticated && userName == None && store == persisted
    {
      isAuthenticated, userName, store := false, None, persisted;
    }

    /** The mount effect `checkAuthentication`. */
    method Hydrate(decode: Decoder)
      modifies this
      ensures store == old(store) && Consistent()
      ensures HasToken(StoredToken()) ==> userName == NameFrom(decode, StoredToken().value)
      ensures !HasToken(StoredToken()) ==> userName == None
    {
      var token := StoredToken();
      if HasToken(token) {
        isAuthenticated := true;
        userName := NameFrom(decode, token.value);
      } else {
        isAuthenticated := false;
        userName := None;
      }
    }

    /** `login(token)`: persist, authenticate, then try to read the name. */
    method Login(token: string, decode: Decoder)
      modifies this
      ensures store == old(store)[TokenKey := token]
      ensures isAuthenticated
      ensures userName == NameFrom(decode, token)
      ensures token != "" ==> Consistent()
    {
      store := store[TokenKey := token];
      isAuthenticated := true;
      userName := NameFrom(decode, token);
    }

    /** `logout()`: erase the token and reset the session. */
    method Logout()
      modifies this
      ensures store == old(store) - {TokenKey}
      ensures !isAuthenticated && userName == None
      ensures StoredToken() == None && Consistent()
    {
      store := store - {TokenKey};
      isAuthenticated := false;
      userName := None;
    }
  }

  /** Logging in and then out leaves no token behind and the session closed,
      whatever the token and whether it decodes. */
  method LoginThenLogout(auth: AuthProvider, token: string, decode: Decoder)
    modifies auth
    ensures auth.StoredToken() == None && !auth.isAuthenticated && auth.userName == None
    ensures auth.store == old(auth.store) - {TokenKey}
  {
    auth.Login(token, decode);
    auth.Logout();
  }
}
