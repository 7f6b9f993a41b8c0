/** The session (`AuthContext`/`AuthProvider`): the current user, the raw
    Google ID token, the browser storage slot that persists the token, and
    the flag that holds the application back until the stored token has
    been checked. Decoding a token and the clock are parameters. */
module AuthContext {
  import opened Optional

  /** The claims of a decoded ID token the application reads; `exp` is the
      expiry time in seconds. */
  datatype User = User(
    email: Option<string>,
    name: Option<string>,
    picture: Option<string>,
    sub: Option<string>,
    exp: Option<int>)

  /** `jwtDecode`: the claims of a token, or `None` where decoding throws. */
  type Decoder = string -> Option<User>

  /** The storage key that holds the token. */
  const StorageKey: string := "googleIdToken"

  /** What the session offers its consumers (`AuthContextType`). */
  datatype Session = Session(user: Option<User>, idToken: Option<string>, isLoading: bool)

  /** A side effect a handler asks of the outside world. */
  datatype Effect =
    | Navigate(to: string)   // `navigate(to)`
    | ProviderLogout         // `googleLogout()`

  /** How the restore effect classifies the stored token. */
  datatype RestoreCase =
    | NoToken                          // nothing stored (or an empty string)
    | Restored(user: User, token: string)
    | Expired                          // decoded, but `exp` is missing, zero or past
    | Undecodable                      // `jwtDecode` threw

  /** `decodedUser.exp && decodedUser.exp * 1000 > Date.now()`, with `now`
      in milliseconds. */
  predicate Unexpired(u: User, now: int)
  {
    u.exp.Some? && u.exp.value != 0 && u.exp.value * 1000 > now
  }

  /** The four outcomes of the restore effect, from the stored value, the
      decoder and the time. */
  function Classify(stored: Option<string>, decode: Decoder, now: int): (c: RestoreCase)
    ensures c.Restored? <==>
              stored.Some? && stored.value != "" && decode(stored.value).Some?
              && Unexpired(decode(stored.value).value, now)
    ensures c.Restored? ==> c.token == stored.value && decode(c.token) == Some(c.user)
    ensures c == NoToken <==> stored.None? || stored.value == ""
    ensures c == Undecodable <==> stored.Some? && stored.value != "" && decode(stored.value).None?
  {
    if stored.None? || stored.value == "" then NoToken
    else match decode(stored.value)
      case None => Undecodable
      case Some(u) => if Unexpired(u, now) then Restored(u, stored.value) else Expired
  }

  /** A token whose expiry is not after `now` is never restored. */
  lemma ExpiredNeverRestored(token: string, decode: Decoder, now: int)
    requires decode(token).Some? && decode(token).value.exp.Some?
    requires decode(token).value.exp.value * 1000 <= now
    ensures !Classify(Some(token), decode, now).Restored?
  {
  }

  class AuthProvider {
    var user: Option<User>
    var idToken: Option<string>
    var isLoading: bool
    /** `localStorage.getItem('googleIdToken')`. */
    var stored: Option<string>

    /** The provider as first rendered: loading, nobody signed in, and
        whatever the browser had stored. */
    constructor (stored: Option<string>)
      ensures user == None && idToken == None && isLoading
      ensures this.stored == stored
    {
      user := None;
      idToken := None;
      isLoading := true;
      this.stored := stored;
    }

    /** The mount effect: restore a stored, decodable, unexpired token;
        discard a stored token that is expired, lacks an expiry or does
        not decode; then stop loading. */
    method RestoreSession(decode: Decoder, now: int)
      modifies this
      ensures !isLoading
      ensures match Classify(old(stored), decode, now)
                case NoToken =>
                  user == old(user) && idToken == old(idToken) && stored == old(stored)
                case Restored(u, t) =>
                  user == Some(u) && idToken == Some(t) && stored == old(stored)
                case Expired =>
                  user == old(user) && idToken == old(idToken) && stored == None
                case Undecodable =>
                  user == old(user) && idToken == old(idToken) && stored == None
    {
      var storedToken := stored;
      if storedToken.Some? && storedToken.value != "" {
        var decoded := decode(storedToken.value);
        if decoded.Some? {
          var decodedUser := decoded.value;
          if decodedUser.exp.Some? && decodedUser.exp.value != 0 && decodedUser.exp.value * 1000 > now {
            user := Some(decodedUser);
            idToken := storedToken;
          } else {
            stored := None;
          }
        } else {
          stored := None;
        }
      }
      isLoading := false;
    }

    /** `login`: with a credential, sign in as its decoded claims, keep and
        persist the token and go home; no expiry is checked. Without a
        credential nothing happens. A credential that does not decode
        makes `jwtDecode` throw before anything is set. */
    method Login(credential: Option<string>, decode: Decoder) returns (effects: seq<Effect>, threw: bool)
      modifies this
      ensures isLoading == old(isLoading)
      ensures threw <==> credential.Some? && credential.value != "" && decode(credential.value).None?
      ensures if credential.Some? && credential.value != "" && !threw then
                && user == decode(credential.value)
                && idToken == credential && stored == credential
                && effects == [Navigate("/")]
              else
                && user == old(user) && idToken == old(idToken) && stored == old(stored)
                && effects == []
    {
      effects, threw := [], false;
      if credential.Some? && credential.value != "" {
        var decoded := decode(credential.value);
        if decoded.None? {
          threw := true;
          return;
        }
        user := decoded;
        idToken := credential;
        stored := credential;
        effects := [Navigate("/")];
      }
    }

    /** `logout`: end the provider's session, forget the user and the
        token, remove the stored token and go to the sign-in page. */
    method Logout() returns (effects: seq<Effect>)
      modifies this
      ensures user == None && idToken == None && stored == None
      ensures isLoading == old(isLoading)
      ensures effects == [ProviderLogout, Navigate("/signin")]
    {
      effects := [ProviderLogout];
      user := None;
      idToken := None;
      stored := None;
      effects := effects + [Navigate("/signin")];
    }

    /** What the provider renders: the loading placeholder, or its
        children with the session in context. */
    function Provided(): (s: Option<Session>)
      reads this
      ensures isLoading <==> s.None?
      ensures s.Some? ==> s.value.user == user && s.value.idToken == idToken && !s.value.isLoading
    {
      if isLoading then None else Some(Session(user, idToken, isLoading))
    }
  }

  /** `useAuth`: the session of the enclosing provider, or the error it
      throws outside any provider. */
  datatype UseAuthResult = Context(session: Session) | OutsideProvider

  function UseAuth(context: Option<Session>): (r: UseAuthResult)
    ensures context.None? <==> r == OutsideProvider
    ensures context.Some? ==> r == Context(context.value)
  {
    match context
    case None => OutsideProvider
    case Some(s) => Context(s)
  }
}
