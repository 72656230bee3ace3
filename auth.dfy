/** Session handling: the session record lives under one key in
    localStorage ("remember me") or sessionStorage, and is accepted for 24
    hours unless it asks to be remembered. JSON.parse and the clock are
    parameters. */
module Auth {
  import opened Seqs
  import opened Storage

  datatype User = User(id: string, firstName: string, lastName: string, email: string)

  /** The parsed session record. user is None when the field is missing;
      loginTime is in milliseconds since the epoch, None when it makes an
      invalid date; rememberMe is the field's truthiness. */
  datatype Session = Session(user: Option<User>, loginTime: Option<int>, rememberMe: bool)

  /** Malformed: JSON.parse throws, or yields null so that reading .user throws. */
  datatype ParsedSession = Malformed | Parsed(session: Session)

  /** What checkAuthStatus found. */
  datatype AuthResult = NoSession | Unreadable | ExpiredSession(user: Option<User>) | ActiveSession(user: Option<User>)

  const SessionKey := "freelanceSession"

  /** 24 hours in milliseconds. */
  const SessionLifetime := 24 * 3600 * 1000

  /** localStorage's entry, falling back to sessionStorage's when the first is
      missing or empty; None when neither is truthy. */
  function StoredSession(local: Option<string>, session: Option<string>): (r: Option<string>)
    ensures r.Some? <==> Present(local) || Present(session)
    ensures r.Some? ==> Present(r)
    ensures Present(local) ==> r == local
    ensures !Present(local) && Present(session) ==> r == session
  {
    if Present(local) then local
    else if Present(session) then session
    else None
  }

  /** More than 24 hours old and not remembered. An invalid login time
      compares false, so such a session never expires. */
  predicate Expired(s: Session, now: int)
  {
    s.loginTime.Some? && now - s.loginTime.value > SessionLifetime && !s.rememberMe
  }

  function CheckSession(stored: Option<string>, now: int, parse: string -> ParsedSession): AuthResult
  {
    match stored
    case None => NoSession
    case Some(data) =>
      match parse(data)
      case Malformed => Unreadable
      case Parsed(s) => if Expired(s, now) then ExpiredSession(s.user) else ActiveSession(s.user)
  }

  /** A stored session that is not remembered is accepted exactly while it is
      at most 24 hours old. */
  lemma SessionAge(data: string, s: Session, t: int, now: int, parse: string -> ParsedSession)
    requires parse(data) == Parsed(s) && s.loginTime == Some(t) && !s.rememberMe
    ensures CheckSession(Some(data), now, parse).ActiveSession? <==> now - t <= SessionLifetime
    ensures CheckSession(Some(data), now, parse).ExpiredSession? <==> now - t > SessionLifetime
  {
  }

  /** A remembered session, or one whose login time is not a date, is accepted
      at every moment. */
  lemma RememberedNeverExpires(data: string, s: Session, now: int, parse: string -> ParsedSession)
    requires parse(data) == Parsed(s) && (s.rememberMe || s.loginTime.None?)
    ensures CheckSession(Some(data), now, parse) == ActiveSession(s.user)
  {
  }

  /** Once expired, a session stays expired. */
  lemma ExpiryIsFinal(s: Session, now: int, later: int)
    requires Expired(s, now) && now <= later
    ensures Expired(s, later)
  {
  }

  class AuthManager {
    var currentUser: Option<User>
    const local: WebStorage
    const session: WebStorage

    constructor (local: WebStorage, session: WebStorage)
      ensures currentUser == None && this.local == local && this.session == session
    {
      currentUser := None;
      this.local := local;
      this.session := session;
    }

    /** Forgets the session in both stores; currentUser is left as it is. */
    method Logout()
      modifies local, session
      ensures local.items == old(local.items) - {SessionKey}
      ensures session.items == old(session.items) - {SessionKey}
    {
      local.RemoveItem(SessionKey);
      session.RemoveItem(SessionKey);
    }

    /** True for an accepted session. currentUser takes the record's user as
        soon as it is parsed, before the age test; an unreadable or expired
        session is logged out, a missing one is not. */
    method CheckAuthStatus(now: int, parse: string -> ParsedSession) returns (valid: bool)
      modifies this, local, session
      ensures var r := CheckSession(StoredSession(old(local.GetItem(SessionKey)), old(session.GetItem(SessionKey))), now, parse);
        && (valid <==> r.ActiveSession?)
        && currentUser == (if r.ActiveSession? || r.ExpiredSession? then r.user else old(currentUser))
        && (if r.Unreadable? || r.ExpiredSession?
            then local.items == old(local.items) - {SessionKey} && session.items == old(session.items) - {SessionKey}
            else local.items == old(local.items) && session.items == old(session.items))
    {
      var sessionData := StoredSession(local.GetItem(SessionKey), session.GetItem(SessionKey));
      if sessionData.None? {
        return false;
      }
      var parsed := parse(sessionData.value);
      if parsed.Malformed? {
        Logout();
        return false;
      }
      var s := parsed.session;
      currentUser := s.user;
      if Expired(s, now) {
        Logout();
        return false;
      }
      valid := true;
    }
  }
}
