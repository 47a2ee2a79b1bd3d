/** The authentication service over its tables; every method is proved to do what AuthSessions says. */
module AuthService {
  import opened AuthSessions
  import opened Seqs

  class Service {
    var users: seq<User>
    var sessions: seq<Session>
    var resets: seq<Reset>
    var businesses: seq<Business>
    ghost var issued: set<Token>

    constructor ()
      ensures Rows() == NoTables()
    {
      users, sessions, resets, businesses, issued := [], [], [], [], {};
    }

    ghost function Rows(): Tables
      reads this
    {
      Tables(users, sessions, resets, issued, businesses)
    }

    /** A new session is added only after the password and the account were checked. */
    method Login(email: nat, password: Password, drawn: Token, now: Instant) returns (session: Option<nat>)
      modifies `sessions, `issued
      ensures Rows() == LoggedIn(old(Rows()), email, password, drawn, now)
      ensures session.Some? ==>
                && session.value == |old(sessions)| == |sessions| - 1
                && Authenticates(Rows(), sessions[session.value].user, session.value, now)
      ensures session.None? <==> LoginUser(old(Rows()), email, password).None?
    {
      var found := FirstAt(users, WithEmail(email));
      if found.None? || users[found.value].password != password || !users[found.value].active {
        return None;
      }
      session := OpenSession(found.value, drawn, now);
    }

    /** A keyed retry of an earlier sign-up opens a session for its owner; otherwise a new address joins. */
    method SignUp(q: SignUpRequest, drawn: Token, now: Instant) returns (session: Option<nat>)
      modifies this
      ensures Rows() == SignedUp(old(Rows()), q, drawn, now)
      ensures session.Some? <==> |sessions| == |old(sessions)| + 1
      ensures session.None? ==> Rows() == old(Rows())
      ensures session.Some? ==>
                && session.value == |old(sessions)| && sessions[session.value].user < |users|
                && users[sessions[session.value].user].email == q.email
                && users[sessions[session.value].user].password == q.password
    {
      if q.keyed {
        var replay := FirstAt(businesses, WithId(q.id));
        if replay.Some? {
          var owner := businesses[replay.value].owner;
          if owner >= |users| || businesses[replay.value].name != q.name
             || users[owner].email != q.email || users[owner].password != q.password
          {
            return None;
          }
          session := OpenSession(owner, drawn, now);
          return;
        }
      }
      if FirstAt(users, WithEmail(q.email)).Some? {
        return None;
      }
      businesses := businesses + [Business(q.id, q.name, |users|)];
      users := users + [User(q.email, q.password, true)];
      session := OpenSession(|users| - 1, drawn, now);
    }

    method OpenSession(user: nat, drawn: Token, now: Instant) returns (session: Option<nat>)
      modifies `sessions, `issued
      ensures sessions == old(sessions) + [NewSession(user, drawn, now)] && issued == old(issued) + {drawn}
      ensures session == Some(|old(sessions)|)
    {
      session := Some(|sessions|);
      sessions := sessions + [Session(user, drawn, now + REFRESH_TTL, None)];
      issued := issued + {drawn};
    }

    method Refresh(token: Token, drawn: Token, now: Instant) returns (session: Option<nat>)
      modifies `sessions, `issued
      ensures Rows() == Refreshed(old(Rows()), token, drawn, now)
      ensures session == RefreshSession(old(Rows()), token, now)
    {
      session := FirstAt(sessions, WithToken(token));
      if session.None? {
        return;
      }
      var x := sessions[session.value];
      if x.revokedAt.Some? || x.expiresAt <= now || x.user >= |users| || !users[x.user].active {
        return None;
      }
      x := x.(token := drawn);
      sessions := sessions[session.value := x];
      issued := issued + {drawn};
    }

    method Authenticate(user: nat, session: nat, now: Instant) returns (ok: bool)
      ensures ok == Authenticates(Rows(), user, session, now)
    {
      if session >= |sessions| || sessions[session].user != user {
        return false;
      }
      var x := sessions[session];
      if x.revokedAt.Some? || x.expiresAt <= now {
        return false;
      }
      return user < |users| && users[user].active;
    }

    method Logout(token: Token, now: Instant)
      modifies `sessions
      ensures Rows() == LoggedOut(old(Rows()), token, now)
      ensures forall later :: RefreshSession(Rows(), token, later).None?
    {
      var found := FirstAt(sessions, WithToken(token));
      if found.Some? {
        RevokedTokenIsRefused(sessions, found.value, token, now);
        sessions := sessions[found.value := sessions[found.value].(revokedAt := Some(now))];
      }
    }

    method RevokeSessions(user: nat, keep: Option<nat>, now: Instant)
      modifies `sessions
      ensures sessions == SessionsRevoked(old(sessions), user, keep, now)
    {
      for i := 0 to |sessions|
        invariant |sessions| == |old(sessions)|
        invariant forall j | 0 <= j < i :: sessions[j] == SessionsRevoked(old(sessions), user, keep, now)[j]
        invariant forall j | i <= j < |sessions| :: sessions[j] == old(sessions)[j]
      {
        var x := sessions[i];
        if x.user != user || x.revokedAt.Some? || keep == Some(i) {
          continue;
        }
        sessions := sessions[i := x.(revokedAt := Some(now))];
      }
    }

    method RevokePasswordResetTokens(user: nat, keep: Option<nat>, now: Instant)
      modifies `resets
      ensures resets == ResetsRevoked(old(resets), user, keep, now)
    {
      for i := 0 to |resets|
        invariant |resets| == |old(resets)|
        invariant forall j | 0 <= j < i :: resets[j] == ResetsRevoked(old(resets), user, keep, now)[j]
        invariant forall j | i <= j < |resets| :: resets[j] == old(resets)[j]
      {
        var x := resets[i];
        if x.user == user && x.usedAt.None? && x.revokedAt.None? && keep != Some(i) {
          resets := resets[i := x.(revokedAt := Some(now))];
        }
      }
    }

    method IssuePasswordReset(email: nat, drawn: Token, now: Instant) returns (reset: Option<nat>)
      modifies `resets, `issued
      ensures Rows() == ResetIssued(old(Rows()), email, drawn, now)
      ensures reset == if ActiveUser(old(Rows()), email).Some? then Some(|old(resets)|) else None
    {
      var user := FirstAt(users, ActiveWithEmail(email));
      if user.None? {
        return None;
      }
      RevokePasswordResetTokens(user.value, None, now);
      reset := Some(|resets|);
      resets := resets + [Reset(user.value, drawn, now + RESET_TTL, None, None)];
      issued := issued + {drawn};
    }

    method RevokePasswordReset(reset: nat, now: Instant)
      modifies `resets
      ensures Rows() == ResetWithdrawn(old(Rows()), reset, now)
      ensures |resets| == |old(resets)| && (reset < |resets| ==> !Live(resets[reset]))
    {
      if reset < |resets| && resets[reset].usedAt.None? && resets[reset].revokedAt.None? {
        resets := resets[reset := resets[reset].(revokedAt := Some(now))];
      }
    }

    method ResetPassword(token: Token, password: Password, now: Instant) returns (ok: bool)
      modifies `users, `sessions, `resets
      ensures Rows() == PasswordReset(old(Rows()), token, password, now)
      ensures ok <==> AcceptedReset(old(Rows()), token, password, now).Some?
    {
      var found := FirstAt(resets, WithResetToken(token));
      if found.None? {
        return false;
      }
      var x := resets[found.value];
      var user := x.user;
      if user >= |users| || !users[user].active {
        return false;
      }
      if x.usedAt.Some? || x.revokedAt.Some? || x.expiresAt <= now || users[user].password == password {
        return false;
      }
      users := users[user := users[user].(password := password)];
      resets := resets[found.value := x.(usedAt := Some(now))];
      RevokePasswordResetTokens(user, Some(found.value), now);
      RevokeSessions(user, None, now);
      return true;
    }

    method ChangePassword(user: nat, session: nat, current: Password, password: Password, now: Instant)
        returns (ok: bool)
      modifies `users, `sessions, `resets
      ensures Rows() == PasswordChanged(old(Rows()), user, session, current, password, now)
      ensures ok <==> ChangeAllowed(old(Rows()), user, session, current, password, now)
    {
      ok := Authenticate(user, session, now);
      if !ok || users[user].password != current || password == current {
        return false;
      }
      users := users[user := users[user].(password := password)];
      RevokePasswordResetTokens(user, None, now);
      RevokeSessions(user, Some(session), now);
    }
  }

  lemma RevokedTokenIsRefused(a: seq<Session>, i: nat, token: Token, now: Instant)
    requires FirstAt(a, WithToken(token)) == Some(i)
    ensures FirstAt(a[i := a[i].(revokedAt := Some(now))], WithToken(token)) == Some(i)
  {
    var b := a[i := a[i].(revokedAt := Some(now))];
    assert WithToken(token)(a[i]);
    forall j | 0 <= j < i ensures !WithToken(token)(b[j]) {
      FirstAtIsFirst(a, token, j, i);
    }
    FirstAtIs(b, WithToken(token), i);
  }

  lemma {:induction false} FirstAtIsFirst(a: seq<Session>, token: Token, j: nat, i: nat)
    requires FirstAt(a, WithToken(token)) == Some(i) && j < i
    ensures a[j].token != token
  {
    if j > 0 {
      FirstAtIsFirst(a[1..], token, j - 1, i - 1);
    }
  }
}
