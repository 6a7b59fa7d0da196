/** Session cookies of the auth service (services/auth/cookie.go): a signed
    cookie store configured once, a cookie record carrying the user name and
    an expiry time, the validation chain applied to every request, and the
    writer that stores a cookie in the session with fixed options. The cookie
    codec and signing belong to the session library and are not part of this
    model: a session read is an input, either the decoded values or a read
    error. */
module Cookie {
  import opened Basics

  /** The session name and the value key the cookie lives under. */
  const SessionName := "apparat"
  const AuthValueKey := "auth"

  /** Cookie lifetime, in seconds: one week. */
  const SecondsPerWeek := 3600 * 24 * 7
  const NanosPerSecond := 1_000_000_000

  datatype AuthCookie = AuthCookie(username: string, token: string, expiredAt: Time)

  /** What a session may hold under a key: an auth cookie, or a value of some
      other type. */
  datatype SessionValue = AuthValue(cookie: AuthCookie) | OtherValue(text: string)

  datatype SessionOptions = SessionOptions(path: string, maxAge: int, httpOnly: bool)

  datatype CookieError =
    | ReadFailed(reason: string)
    | NotAuthCookie
    | Expired
    | EmptyUsername
    | SaveFailed(reason: string)

  /** The text each failure carries. */
  function ErrorText(e: CookieError): (r: string)
    ensures e.ReadFailed? ==> HasPrefix(r, "could not read cookie: ")
    ensures e.NotAuthCookie? || e.EmptyUsername? ==> HasPrefix(r, "invalid cookie format")
  {
    match e
    case ReadFailed(reason) => "could not read cookie: " + reason
    case NotAuthCookie => "invalid cookie format, could not transform"
    case Expired => "expired cookie"
    case EmptyUsername => "invalid cookie format"
    case SaveFailed(reason) => reason
  }

  /** The package globals set by InitCookieStore. */
  class CookieStore {
    var keys: seq<seq<Byte>>
    var duration: int
    var path: string

    /** InitCookieStore: the signing keys and path come from the caller, the
        lifetime is always one week. */
    constructor InitCookieStore(cookieKeys: seq<seq<Byte>>, cookiePath: string)
      ensures keys == cookieKeys && path == cookiePath
      ensures duration == SecondsPerWeek && duration == 604800
    {
      keys := cookieKeys;
      duration := SecondsPerWeek;
      path := cookiePath;
    }
  }

  /** NewAuthCookie, with the clock reading `now` and the configured
      lifetime passed in. */
  function NewAuthCookie(username: string, now: Time, duration: int): (c: AuthCookie)
    ensures c.username == username && c.token == ""
    ensures c.expiredAt - now == duration * NanosPerSecond
  {
    AuthCookie(username, "", now + duration * NanosPerSecond)
  }

  /** CheckAuthCookie on the outcome of reading the session at time `now`:
      a read error, a missing or foreign value, an expired cookie and an
      empty user name are rejected, in that order. */
  function CheckAuthCookie(read: Result<map<string, SessionValue>, string>, now: Time): (r: Result<AuthCookie, CookieError>)
    ensures read.Err? ==> r == Err(ReadFailed(read.error))
    ensures read.Ok? && !(AuthValueKey in read.value && read.value[AuthValueKey].AuthValue?) ==> r == Err(NotAuthCookie)
    ensures r.Ok? <==>
      read.Ok? && AuthValueKey in read.value && read.value[AuthValueKey].AuthValue?
      && now <= read.value[AuthValueKey].cookie.expiredAt
      && |read.value[AuthValueKey].cookie.username| > 0
    ensures r.Ok? ==> r.value == read.value[AuthValueKey].cookie
    ensures r == Err(Expired) <==>
      read.Ok? && AuthValueKey in read.value && read.value[AuthValueKey].AuthValue?
      && now > read.value[AuthValueKey].cookie.expiredAt
  {
    if read.Err? then Err(ReadFailed(read.error))
    else if AuthValueKey !in read.value || !read.value[AuthValueKey].AuthValue? then Err(NotAuthCookie)
    else
      var ac := read.value[AuthValueKey].cookie;
      if now > ac.expiredAt then Err(Expired)
      else if |ac.username| == 0 then Err(EmptyUsername)
      else Ok(ac)
  }

  /** A freshly issued cookie for a non-empty user is accepted from the
      moment it is issued until the end of its lifetime inclusive, and
      rejected as expired one nanosecond later. */
  lemma FreshCookieLifetime(username: string, issued: Time, duration: nat, values: map<string, SessionValue>, now: Time)
    requires |username| > 0
    requires issued <= now
    ensures var c := NewAuthCookie(username, issued, duration);
      var read := Ok(values[AuthValueKey := AuthValue(c)]);
      (now <= issued + duration * NanosPerSecond ==> CheckAuthCookie(read, now) == Ok(c))
      && (now > issued + duration * NanosPerSecond ==> CheckAuthCookie(read, now) == Err(Expired))
  {
  }

  /** An expired cookie is reported as expired even when its user name is
      empty: the expiry check comes first. */
  lemma ExpiryBeforeUsername(ac: AuthCookie, now: Time)
    requires now > ac.expiredAt && ac.username == ""
    ensures CheckAuthCookie(Ok(map[AuthValueKey := AuthValue(ac)]), now) == Err(Expired)
  {
  }

  /** A gorilla session: its values and options. */
  class Session {
    var values: map<string, SessionValue>
    var options: Option<SessionOptions>

    constructor (values0: map<string, SessionValue>)
      ensures values == values0 && options == None
    {
      values := values0;
      options := None;
    }

    /** SetAuthCookie, applied to the session that reading the request
        produced (`readFailure` when reading failed). The options come from
        the store; the save outcome is an input. */
    method SetAuthCookie(store: CookieStore, ac: AuthCookie, readFailure: Option<string>, saveFailure: Option<string>)
      returns (err: Option<CookieError>)
      modifies this
      ensures readFailure.Some? ==> err == Some(ReadFailed(readFailure.value)) && values == old(values) && options == old(options)
      ensures readFailure.None? ==> options == Some(SessionOptions(store.path, store.duration, true))
      ensures readFailure.None? ==> values == old(values)[AuthValueKey := AuthValue(ac)]
      ensures readFailure.None? ==> err == if saveFailure.Some? then Some(SaveFailed(saveFailure.value)) else None
    {
      if readFailure.Some? {
        return Some(ReadFailed(readFailure.value));
      }
      options := Some(SessionOptions(store.path, store.duration, true));
      values := values[AuthValueKey := AuthValue(ac)];
      if saveFailure.Some? {
        return Some(SaveFailed(saveFailure.value));
      }
      return None;
    }
  }

  /** Storing a cookie and reading it back: the check returns exactly the
      stored cookie while it is unexpired and names a user. */
  lemma SetThenCheck(values: map<string, SessionValue>, ac: AuthCookie, now: Time)
    ensures CheckAuthCookie(Ok(values[AuthValueKey := AuthValue(ac)]), now) ==
      if now > ac.expiredAt then Err(Expired)
      else if ac.username == "" then Err(EmptyUsername)
      else Ok(ac)
  {
  }
}
