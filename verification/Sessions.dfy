/** Personnel accounts and browser sessions: the statements of the session manager and of the account handlers. */
module Sessions {
  import opened Text
  import opened Models

  /** A password hash is represented by the password it was made from; nothing else is known about it. */
  datatype User = User(active: bool, role: Role, password: string, version: nat)

  datatype Session = Session(userId: nat, version: nat, expiresAt: int)

  /** The users table by id, the sessions table by token. */
  datatype Accounts = Accounts(users: map<nat, User>, sessions: map<string, Session>)

  /** Tokens are 32 random bytes in hexadecimal. */
  const TOKEN_LENGTH: nat := 64

  predicate ValidPassword(s: string) {
    && 12 <= ByteLen(s) <= 72
    && (exists i :: 0 <= i < |s| && 'A' <= s[i] <= 'Z')
    && (exists i :: 0 <= i < |s| && 'a' <= s[i] <= 'z')
    && (exists i :: 0 <= i < |s| && '0' <= s[i] <= '9')
  }

  /** Twelve to 72 bytes with a capital, a small letter and a digit. */
  ghost predicate StrongEnough(s: string) {
    && 12 <= ByteLen(s) <= 72
    && (exists c :: c in s && 'A' <= c <= 'Z') && (exists c :: c in s && 'a' <= c <= 'z')
    && (exists c :: c in s && '0' <= c <= '9')
  }

  lemma ValidIffStrong(s: string)
    ensures ValidPassword(s) <==> StrongEnough(s)
  {
    if ValidPassword(s) {
      var i :| 0 <= i < |s| && 'A' <= s[i] <= 'Z';
      var j :| 0 <= j < |s| && 'a' <= s[j] <= 'z';
      var k :| 0 <= k < |s| && '0' <= s[k] <= '9';
      assert s[i] in s && s[j] in s && s[k] in s;
    }
  }

  // ----- what the statements do -----

  function Without(sessions: map<string, Session>, cookie: Option<string>): (rest: map<string, Session>) {
    if cookie.Some? then sessions - {cookie.value} else sessions
  }

  function Unexpired(sessions: map<string, Session>, now: int): (rest: map<string, Session>) {
    map token | token in sessions && now < sessions[token].expiresAt :: sessions[token]
  }

  function WithoutUser(sessions: map<string, Session>, id: nat): (rest: map<string, Session>) {
    map token | token in sessions && sessions[token].userId != id :: sessions[token]
  }

  /** A session start drops the browser's old session and every expired one; a token that exists already is refused. */
  function Started(a: Accounts, cookie: Option<string>, token: string, s: Session, now: int): (a': Accounts) {
    var rest := Unexpired(Without(a.sessions, cookie), now);
    a.(sessions := if token in rest then rest else rest[token := s])
  }

  /** The user behind a valid session: unexpired, of an active user, at the user's security version. */
  function Authenticated(a: Accounts, token: string, now: int): (id: Option<nat>)
    ensures id.Some? ==> id.value in a.users && token in a.sessions && a.sessions[token].userId == id.value
  {
    if token in a.sessions && now < a.sessions[token].expiresAt && a.sessions[token].userId in a.users
       && a.users[a.sessions[token].userId].active
       && a.users[a.sessions[token].userId].version == a.sessions[token].version
    then Some(a.sessions[token].userId)
    else None
  }

  /** A password write: the version is set to one more than the request read, and all sessions of the user go. */
  function Repassworded(a: Accounts, id: nat, password: string, held: nat): (a': Accounts) {
    if id in a.users
    then Accounts(a.users[id := a.users[id].(password := password, version := held + 1)], WithoutUser(a.sessions, id))
    else a.(sessions := WithoutUser(a.sessions, id))
  }

  /** Enabling keeps the rows of the user's sessions, disabling deletes them; both raise the version. */
  function Switched(a: Accounts, id: nat, active: bool): (a': Accounts)
    requires id in a.users
  {
    Accounts(a.users[id := a.users[id].(active := active, version := a.users[id].version + 1)],
             if active then a.sessions else WithoutUser(a.sessions, id))
  }

  function Reassigned(a: Accounts, id: nat, role: Role): (a': Accounts)
    requires id in a.users
  {
    Accounts(a.users[id := a.users[id].(role := role, version := a.users[id].version + 1)], WithoutUser(a.sessions, id))
  }

  // ----- the handlers, each run by itself -----

  class Portal {
    var users: map<nat, User>
    var sessions: map<string, Session>
    const ttl: int

    function Contents(): (a: Accounts)
      reads this
    {
      Accounts(users, sessions)
    }

    constructor (ttl: int)
      ensures Contents() == Accounts(map[], map[]) && this.ttl == ttl
    {
      users, sessions := map[], map[];
      this.ttl := ttl;
    }

    method Destroy(cookie: Option<string>)
      modifies this`sessions
      ensures sessions == Without(old(sessions), cookie)
    {
      if cookie.Some? {
        sessions := sessions - {cookie.value};
      }
    }

    method Start(cookie: Option<string>, id: nat, version: nat, token: string, now: int) returns (ok: bool)
      modifies this`sessions
      ensures Contents() == Started(old(Contents()), cookie, token, Session(id, version, now + ttl), now)
      ensures ok ==> token in sessions && sessions[token] == Session(id, version, now + ttl)
      ensures users == old(users)
      ensures forall t :: t in sessions && !(ok && t == token) <==>
                t in old(sessions) && now < old(sessions)[t].expiresAt && cookie != Some(t)
      ensures forall t :: t in sessions && !(ok && t == token) ==> sessions[t] == old(sessions)[t]
    {
      Destroy(cookie);
      sessions := map t | t in sessions && now < sessions[t].expiresAt :: sessions[t];
      ok := token !in sessions;
      if ok {
        sessions := sessions[token := Session(id, version, now + ttl)];
      }
    }

    /** A missing or malformed cookie is turned away without touching the sessions table. */
    method RequireAuth(cookie: Option<string>, now: int) returns (user: Option<nat>)
      modifies this`sessions
      ensures if cookie.None? || ByteLen(cookie.value) != TOKEN_LENGTH
              then user == None && sessions == old(sessions)
              else
                && user == Authenticated(old(Contents()), cookie.value, now)
                && sessions == if user.Some? then old(sessions) else Without(old(sessions), cookie)
      ensures user.Some? ==>
                && cookie.Some? && ByteLen(cookie.value) == 64 && cookie.value in old(sessions) && user.value in users
                && var session := old(sessions)[cookie.value];
                   && session.userId == user.value && now < session.expiresAt
                   && users[user.value].active && users[user.value].version == session.version
      ensures cookie.Some? && ByteLen(cookie.value) == 64 && user == None && cookie.value in old(sessions) ==>
                var session := old(sessions)[cookie.value];
                session.expiresAt <= now || session.userId !in users
                || !users[session.userId].active || users[session.userId].version != session.version
      ensures forall t :: t in sessions <==>
                t in old(sessions) && (cookie == Some(t) && ByteLen(t) == 64 ==> user.Some?)
      ensures forall t :: t in sessions ==> sessions[t] == old(sessions)[t]
    {
      if cookie.None? || ByteLen(cookie.value) != TOKEN_LENGTH {
        return None;
      }
      var token := cookie.value;
      if token !in sessions || sessions[token].expiresAt <= now {
        Destroy(cookie);
        return None;
      }
      var session := sessions[token];
      if session.userId !in users || !users[session.userId].active || users[session.userId].version != session.version {
        Destroy(cookie);
        return None;
      }
      return Some(session.userId);
    }

    method Login(cookie: Option<string>, id: Option<nat>, password: string, token: string, now: int) returns (ok: bool)
      modifies this`sessions
      ensures var a := old(Contents());
              if id.Some? && id.value in a.users && a.users[id.value].active && a.users[id.value].password == password
              then Contents() == Started(a, cookie, token, Session(id.value, a.users[id.value].version, now + ttl), now)
              else !ok && Contents() == a
      ensures users == old(users)
      ensures ok ==>
                && id.Some? && id.value in users && users[id.value].active && users[id.value].password == password
                && token in sessions && sessions[token] == Session(id.value, users[id.value].version, now + ttl)
    {
      if id.None? || id.value !in users || !users[id.value].active || users[id.value].password != password {
        return false;
      }
      ok := Start(cookie, id.value, users[id.value].version, token, now);
    }

    /** `user` is the copy that authentication read. */
    method ChangePassword(cookie: Option<string>, id: nat, user: User, current: string, next: string, confirm: string,
                          token: string, now: int) returns (ok: bool)
      modifies this
      ensures var a := old(Contents());
              if next == confirm && user.password == current && ValidPassword(next)
              then Contents()
                == Started(Repassworded(a, id, next, user.version), cookie, token,
                           Session(id, user.version + 1, now + ttl), now)
              else !ok && Contents() == a
      ensures ok ==> next == confirm && user.password == current && StrongEnough(next)
      ensures next == confirm && user.password == current && StrongEnough(next) && id in old(users) ==>
                && users == old(users)[id := User(old(users)[id].active, old(users)[id].role, next, user.version + 1)]
                && forall t :: t in sessions && sessions[t].userId == id ==>
                     ok && t == token && sessions[t] == Session(id, user.version + 1, now + ttl)
      ensures !(next == confirm && user.password == current && StrongEnough(next)) ==> users == old(users)
    {
      ValidIffStrong(next);
      if next != confirm || user.password != current || !ValidPassword(next) {
        return false;
      }
      var version := user.version + 1;
      if id in users {
        users := users[id := users[id].(password := next, version := version)];
      }
      sessions := map t | t in sessions && sessions[t].userId != id :: sessions[t];
      ok := Start(cookie, id, version, token, now);
    }

    method ChangeUserStatus(id: nat, active: bool) returns (found: bool)
      modifies this
      ensures found == (id in old(users))
      ensures Contents() == if found then Switched(old(Contents()), id, active) else old(Contents())
      ensures found ==>
                && id in users && users == old(users)[id := users[id]]
                && users[id].active == active && users[id].version == old(users)[id].version + 1
                && users[id].role == old(users)[id].role && users[id].password == old(users)[id].password
                && (forall t :: t in sessions <==> t in old(sessions) && (active || old(sessions)[t].userId != id))
                && forall t :: t in sessions ==> sessions[t] == old(sessions)[t]
    {
      found := id in users;
      if !found {
        return;
      }
      users := users[id := users[id].(active := active, version := users[id].version + 1)];
      if !active {
        sessions := map t | t in sessions && sessions[t].userId != id :: sessions[t];
      }
    }

    method ChangeUserRole(id: nat, role: Role) returns (found: bool)
      modifies this
      ensures found == (id in old(users))
      ensures Contents() == if found then Reassigned(old(Contents()), id, role) else old(Contents())
      ensures found ==>
                && id in users && users == old(users)[id := users[id]]
                && users[id].role == role && users[id].version == old(users)[id].version + 1
                && users[id].active == old(users)[id].active && users[id].password == old(users)[id].password
                && (forall t :: t in sessions <==> t in old(sessions) && old(sessions)[t].userId != id)
                && forall t :: t in sessions ==> sessions[t] == old(sessions)[t]
    {
      found := id in users;
      if !found {
        return;
      }
      users := users[id := users[id].(role := role, version := users[id].version + 1)];
      sessions := map t | t in sessions && sessions[t].userId != id :: sessions[t];
    }
  }
}
