/**
 Sessions and password-reset tokens.  The first half says what each call does to the three
 tables; the second proves what every run of calls keeps; the class carries the calls out.
 */
module AuthSessions {
  import opened Seqs

  type Instant = nat

  // A raw token stands for its hash, a password for its hash: equal exactly when they verify.
  type Token = nat
  type Password = nat

  const REFRESH_TTL := 30 * 24 * 60 * 60 * 1_000_000
  const RESET_TTL := 30 * 60 * 1_000_000

  datatype User = User(email: nat, password: Password, active: bool)

  datatype Session = Session(user: nat, token: Token, expiresAt: Instant, revokedAt: Option<Instant>)

  datatype Reset = Reset(user: nat, token: Token, expiresAt: Instant, usedAt: Option<Instant>,
      revokedAt: Option<Instant>)

  // A business opened by a sign-up; its id is the idempotency key of the request, if there was one.
  datatype Business = Business(id: nat, name: nat, owner: nat)

  // Rows are named by their position; issued holds every token handed out so far.
  datatype Tables = Tables(
    users: seq<User>, sessions: seq<Session>, resets: seq<Reset>, issued: set<Token>, businesses: seq<Business>)

  function NoTables(): Tables { Tables([], [], [], {}, []) }

  // ---- Lookups ----

  function WithEmail(email: nat): User -> bool { (u: User) => u.email == email }

  function ActiveWithEmail(email: nat): User -> bool { (u: User) => u.email == email && u.active }

  function WithToken(token: Token): Session -> bool { (x: Session) => x.token == token }

  function WithResetToken(token: Token): Reset -> bool { (x: Reset) => x.token == token }

  predicate Usable(x: Session, now: Instant) { x.revokedAt.None? && now < x.expiresAt }

  predicate Live(x: Reset) { x.usedAt.None? && x.revokedAt.None? }

  predicate IsActive(s: Tables, user: nat) { user < |s.users| && s.users[user].active }

  // ---- Sessions ----

  function NewSession(user: nat, token: Token, now: Instant): Session {
    Session(user, token, now + REFRESH_TTL, None)
  }

  function SessionAdded(s: Tables, user: nat, drawn: Token, now: Instant): Tables {
    s.(sessions := s.sessions + [NewSession(user, drawn, now)], issued := s.issued + {drawn})
  }

  /** The user a login lets in. */
  function LoginUser(s: Tables, email: nat, password: Password): (user: Option<nat>)
    ensures user.Some? ==> IsActive(s, user.value) && s.users[user.value].password == password
  {
    match FirstAt(s.users, WithEmail(email))
    case None => None
    case Some(u) => if s.users[u].password == password && s.users[u].active then Some(u) else None
  }

  function LoggedIn(s: Tables, email: nat, password: Password, drawn: Token, now: Instant): Tables {
    match LoginUser(s, email, password)
    case None => s
    case Some(u) => SessionAdded(s, u, drawn, now)
  }

  // What a sign-up asks for; an unkeyed one opens its business under an id drawn for it.
  datatype SignUpRequest = SignUpRequest(email: nat, password: Password, name: nat, keyed: bool, id: nat)

  function WithId(id: nat): Business -> bool { (b: Business) => b.id == id }

  /** The business an earlier request with the same key opened. */
  function Replayed(s: Tables, q: SignUpRequest): (found: Option<nat>)
    ensures found.Some? ==> found.value < |s.businesses| && s.businesses[found.value].id == q.id
  {
    if q.keyed then FirstAt(s.businesses, WithId(q.id)) else None
  }

  /** A retry must repeat the name, the address and the password of the sign-up it repeats. */
  predicate Repeats(s: Tables, b: Business, q: SignUpRequest) {
    && b.owner < |s.users| && b.name == q.name
    && s.users[b.owner].email == q.email && s.users[b.owner].password == q.password
  }

  function SignedUp(s: Tables, q: SignUpRequest, drawn: Token, now: Instant): Tables {
    match Replayed(s, q)
    case Some(k) =>
      if !Repeats(s, s.businesses[k], q) then s
      else SessionAdded(s, s.businesses[k].owner, drawn, now)
    case None =>
      if FirstAt(s.users, WithEmail(q.email)).Some? then s
      else
        s.(users := s.users + [User(q.email, q.password, true)],
        businesses := s.businesses + [Business(q.id, q.name, |s.users|)],
        sessions := s.sessions + [NewSession(|s.users|, drawn, now)], issued := s.issued + {drawn})
  }

  /** The session a refresh token is accepted for. */
  function RefreshSession(s: Tables, token: Token, now: Instant): (found: Option<nat>)
    ensures found.Some? ==> found.value < |s.sessions|
  {
    match FirstAt(s.sessions, WithToken(token))
    case None => None
    case Some(i) => if Usable(s.sessions[i], now) && IsActive(s, s.sessions[i].user) then Some(i) else None
  }

  /** Rotation: an accepted token is replaced in its row by a new one. */
  function Refreshed(s: Tables, token: Token, drawn: Token, now: Instant): Tables {
    match RefreshSession(s, token, now)
    case None => s
    case Some(i) =>
      s.(sessions := s.sessions[i := s.sessions[i].(token := drawn)], issued := s.issued + {drawn})
  }

  predicate Authenticates(s: Tables, user: nat, i: nat, now: Instant) {
    i < |s.sessions| && s.sessions[i].user == user && Usable(s.sessions[i], now) && IsActive(s, user)
  }

  function LoggedOut(s: Tables, token: Token, now: Instant): Tables {
    match FirstAt(s.sessions, WithToken(token))
    case None => s
    case Some(i) => s.(sessions := s.sessions[i := s.sessions[i].(revokedAt := Some(now))])
  }

  predicate ToRevoke(x: Session, i: nat, user: nat, keep: Option<nat>) {
    x.user == user && x.revokedAt.None? && keep != Some(i)
  }

  /** _revoke_sessions: every open session of a user, perhaps but one. */
  function SessionsRevoked(a: seq<Session>, user: nat, keep: Option<nat>, now: Instant): (b: seq<Session>)
    ensures |b| == |a|
  {
    seq(|a|, i requires 0 <= i < |a| => if ToRevoke(a[i], i, user, keep) then a[i].(revokedAt := Some(now)) else a[i])
  }

  // ---- Password resets ----

  predicate ToWithdraw(x: Reset, i: nat, user: nat, keep: Option<nat>) {
    x.user == user && Live(x) && keep != Some(i)
  }

  /** _revoke_password_reset_tokens. */
  function ResetsRevoked(a: seq<Reset>, user: nat, keep: Option<nat>, now: Instant): (b: seq<Reset>)
    ensures |b| == |a|
  {
    seq(|a|, i requires 0 <= i < |a| => if ToWithdraw(a[i], i, user, keep) then a[i].(revokedAt := Some(now)) else a[i])
  }

  function ActiveUser(s: Tables, email: nat): (user: Option<nat>)
    ensures user.Some? ==> IsActive(s, user.value)
  {
    FirstAt(s.users, ActiveWithEmail(email))
  }

  function ResetIssued(s: Tables, email: nat, drawn: Token, now: Instant): Tables {
    match ActiveUser(s, email)
    case None => s
    case Some(u) =>
      s.(resets := ResetsRevoked(s.resets, u, None, now) + [Reset(u, drawn, now + RESET_TTL, None, None)],
      issued := s.issued + {drawn})
  }

  function ResetWithdrawn(s: Tables, i: nat, now: Instant): Tables {
    if i < |s.resets| && Live(s.resets[i]) then s.(resets := s.resets[i := s.resets[i].(revokedAt := Some(now))]) else s
  }

  /** The reset row a token is accepted for. */
  function AcceptedReset(s: Tables, token: Token, password: Password, now: Instant): (found: Option<nat>)
    ensures found.Some? ==> found.value < |s.resets| && IsActive(s, s.resets[found.value].user)
  {
    match FirstAt(s.resets, WithResetToken(token))
    case None => None
    case Some(i) =>
      var x := s.resets[i];
      if IsActive(s, x.user) && Live(x) && now < x.expiresAt && s.users[x.user].password != password then Some(i)
          else None
  }

  function PasswordReset(s: Tables, token: Token, password: Password, now: Instant): Tables {
    match AcceptedReset(s, token, password, now)
    case None => s
    case Some(i) =>
      var u := s.resets[i].user;
      Tables(s.users[u := s.users[u].(password := password)],
             SessionsRevoked(s.sessions, u, None, now),
             ResetsRevoked(s.resets[i := s.resets[i].(usedAt := Some(now))], u, Some(i), now),
             s.issued, s.businesses)
  }

  predicate ChangeAllowed(s: Tables, user: nat, i: nat, current: Password, password: Password, now: Instant) {
    Authenticates(s, user, i, now) && s.users[user].password == current && password != current
  }

  function PasswordChanged(s: Tables, user: nat, i: nat, current: Password, password: Password, now: Instant): Tables {
    if !ChangeAllowed(s, user, i, current, password, now) then s
    else
      Tables(s.users[user := s.users[user].(password := password)],
             SessionsRevoked(s.sessions, user, Some(i), now),
             ResetsRevoked(s.resets, user, None, now),
             s.issued, s.businesses)
  }

  // ---- Runs ----

  datatype Call =
    | Login(email: nat, password: Password, token: Token)
    | SignUp(request: SignUpRequest, token: Token)
    | Refresh(presented: Token, token: Token)
    | Logout(presented: Token)
    | IssueReset(email: nat, token: Token)
    | WithdrawReset(reset: nat)
    | ResetPassword(presented: Token, password: Password)
    | ChangePassword(user: nat, session: nat, current: Password, password: Password)
    | Deactivate(user: nat)

  datatype Step = Step(call: Call, now: Instant)

  function Apply(s: Tables, step: Step): Tables {
    match step.call
    case Login(email, password, token) => LoggedIn(s, email, password, token, step.now)
    case SignUp(request, token) => SignedUp(s, request, token, step.now)
    case Refresh(presented, token) => Refreshed(s, presented, token, step.now)
    case Logout(presented) => LoggedOut(s, presented, step.now)
    case IssueReset(email, token) => ResetIssued(s, email, token, step.now)
    case WithdrawReset(i) => ResetWithdrawn(s, i, step.now)
    case ResetPassword(presented, password) => PasswordReset(s, presented, password, step.now)
    case ChangePassword(user, i, current, password) => PasswordChanged(s, user, i, current, password, step.now)
    case Deactivate(user) => if user < |s.users| then s.(users := s.users[user := s.users[user].(active := false)])
        else s
  }

  /** A newly drawn token is one that was never handed out. */
  predicate DrawsFresh(s: Tables, c: Call) {
    match c
    case Login(_, _, token) => token !in s.issued
    case SignUp(_, token) => token !in s.issued
    case Refresh(_, token) => token !in s.issued
    case IssueReset(_, token) => token !in s.issued
    case Logout(_) => true
    case WithdrawReset(_) => true
    case ResetPassword(_, _) => true
    case ChangePassword(_, _, _, _) => true
    case Deactivate(_) => true
  }

  function Run(s: Tables, steps: seq<Step>): Tables
    decreases |steps|
  {
    if steps == [] then s else Run(Apply(s, steps[0]), steps[1..])
  }

  ghost predicate Fresh(s: Tables, steps: seq<Step>)
    decreases |steps|
  {
    steps != [] ==> DrawsFresh(s, steps[0].call) && Fresh(Apply(s, steps[0]), steps[1..])
  }

  // ---- The invariant ----

  ghost predicate SessionIssued(s: Tables, i: nat)
    requires i < |s.sessions|
  {
    s.sessions[i].token in s.issued
  }

  ghost predicate ResetKnown(s: Tables, i: nat)
    requires i < |s.resets|
  {
    s.resets[i].token in s.issued
  }

  ghost predicate TokensApart(a: seq<Session>, i: nat, j: nat)
    requires i < |a| && j < |a|
  {
    a[i].token != a[j].token
  }

  ghost predicate ResetsApart(a: seq<Reset>, i: nat, j: nat)
    requires i < |a| && j < |a|
  {
    a[i].token != a[j].token && !(Live(a[i]) && Live(a[j]) && a[i].user == a[j].user)
  }

  ghost predicate RevokedBy(a: seq<Session>, i: nat, clock: Instant)
    requires i < |a|
  {
    a[i].revokedAt.Some? ==> a[i].revokedAt.value <= clock
  }

  /** Tokens are told apart, no user has two live reset tokens, and nothing was revoked in the future. */
  ghost predicate Inv(s: Tables, clock: Instant) {
    && (forall i | 0 <= i < |s.sessions| :: RevokedBy(s.sessions, i, clock))
    && (forall i | 0 <= i < |s.sessions| :: SessionIssued(s, i))
    && (forall i | 0 <= i < |s.resets| :: ResetKnown(s, i))
    && (forall i, j | 0 <= i < j < |s.sessions| :: TokensApart(s.sessions, i, j))
    && (forall i, j | 0 <= i < j < |s.resets| :: ResetsApart(s.resets, i, j))
  }

  /**
   What lasts: owner and expiry of a session are fixed, a revocation never moves back and ends
   rotation; so with reset tokens.
   */
  ghost predicate SessionLasts(a: seq<Session>, b: seq<Session>, i: nat)
    requires i < |a| <= |b|
  {
    && b[i].user == a[i].user && b[i].expiresAt == a[i].expiresAt
    && (a[i].revokedAt.Some? ==>
          b[i].token == a[i].token && b[i].revokedAt.Some? && a[i].revokedAt.value <= b[i].revokedAt.value)
  }

  ghost predicate ResetLasts(a: seq<Reset>, b: seq<Reset>, i: nat)
    requires i < |a| <= |b|
  {
    && b[i].user == a[i].user && b[i].token == a[i].token && b[i].expiresAt == a[i].expiresAt
    && (a[i].usedAt.Some? ==> b[i].usedAt == a[i].usedAt) && (a[i].revokedAt.Some? ==> b[i].revokedAt == a[i].revokedAt)
  }

  ghost predicate Lasts(s: Tables, t: Tables) {
    && s.issued <= t.issued && |s.sessions| <= |t.sessions| && |s.resets| <= |t.resets|
    && (forall i | 0 <= i < |s.sessions| :: SessionLasts(s.sessions, t.sessions, i))
    && (forall i | 0 <= i < |s.resets| :: ResetLasts(s.resets, t.resets, i))
  }

  /** A token that was handed out and is no session's any more stays so. */
  ghost predicate Retired(s: Tables, token: Token) {
    token in s.issued && forall i | 0 <= i < |s.sessions| :: NotTokenOf(s.sessions, i, token)
  }

  ghost predicate NotTokenOf(a: seq<Session>, i: nat, token: Token)
    requires i < |a|
  {
    a[i].token != token
  }

  ghost predicate GoodStep(s: Tables, t: Tables, now: Instant) {
    Inv(t, now) && Lasts(s, t) && forall token :: Retired(s, token) ==> Retired(t, token)
  }

  lemma Same(s: Tables, clock: Instant, now: Instant)
    requires Inv(s, clock) && clock <= now
    ensures GoodStep(s, s, now)
  {
    forall i | 0 <= i < |s.sessions| ensures RevokedBy(s.sessions, i, now) {
      assert RevokedBy(s.sessions, i, clock);
    }
    forall i | 0 <= i < |s.sessions| ensures SessionLasts(s.sessions, s.sessions, i) {
    }
    forall i | 0 <= i < |s.resets| ensures ResetLasts(s.resets, s.resets, i) {
    }
  }

  /** The users and businesses matter to none of this. */
  lemma UsersAreFree(s: Tables, t: Tables, users: seq<User>, businesses: seq<Business>, now: Instant)
    requires GoodStep(s, t, now)
    ensures GoodStep(s, t.(users := users, businesses := businesses), now)
  {
    var u := t.(users := users, businesses := businesses);
    forall i | 0 <= i < |u.sessions| ensures SessionIssued(u, i) {
      assert SessionIssued(t, i);
    }
    forall i | 0 <= i < |u.resets| ensures ResetKnown(u, i) {
      assert ResetKnown(t, i);
    }
    forall token | Retired(t, token) ensures Retired(u, token) {
      forall i | 0 <= i < |u.sessions| ensures NotTokenOf(u.sessions, i, token) {
        assert NotTokenOf(t.sessions, i, token);
      }
    }
  }

  // ---- Changes of the session table ----

  lemma SessionOpened(s: Tables, x: Session, clock: Instant, now: Instant)
    requires Inv(s, clock) && clock <= now && x.token !in s.issued && x.revokedAt.None?
    ensures GoodStep(s, s.(sessions := s.sessions + [x], issued := s.issued + {x.token}), now)
  {
    Same(s, clock, now);
    var t := s.(sessions := s.sessions + [x], issued := s.issued + {x.token});
    forall i | 0 <= i < |t.sessions| ensures SessionIssued(t, i) && RevokedBy(t.sessions, i, now) {
      assert i < |s.sessions| ==> SessionIssued(s, i) && RevokedBy(s.sessions, i, now);
    }
    forall i | 0 <= i < |t.resets| ensures ResetKnown(t, i) {
      assert ResetKnown(s, i);
    }
    forall i, j | 0 <= i < j < |t.sessions| ensures TokensApart(t.sessions, i, j) {
      assert j < |s.sessions| ==> TokensApart(s.sessions, i, j);
      assert SessionIssued(s, i);
    }
    forall i | 0 <= i < |s.sessions| ensures SessionLasts(s.sessions, t.sessions, i) {
    }
    forall i | 0 <= i < |s.resets| ensures ResetLasts(s.resets, t.resets, i) {
    }
    forall token | Retired(s, token) ensures Retired(t, token) {
      forall i | 0 <= i < |t.sessions| ensures NotTokenOf(t.sessions, i, token) {
        assert i < |s.sessions| ==> NotTokenOf(s.sessions, i, token);
      }
    }
  }

  lemma Rotated(s: Tables, k: nat, token: Token, clock: Instant, now: Instant)
    requires Inv(s, clock) && clock <= now && token !in s.issued && k < |s.sessions| && s.sessions[k].revokedAt.None?
    ensures var t := s.(sessions := s.sessions[k := s.sessions[k].(token := token)], issued := s.issued + {token});
            GoodStep(s, t, now) && Retired(t, s.sessions[k].token)
  {
    var t := s.(sessions := s.sessions[k := s.sessions[k].(token := token)], issued := s.issued + {token});
    Same(s, clock, now);
    assert SessionIssued(s, k);
    forall i | 0 <= i < |t.sessions| ensures SessionIssued(t, i) && RevokedBy(t.sessions, i, now) {
      assert SessionIssued(s, i) && RevokedBy(s.sessions, i, now);
    }
    forall i | 0 <= i < |t.resets| ensures ResetKnown(t, i) {
      assert ResetKnown(s, i);
    }
    forall i, j | 0 <= i < j < |t.sessions| ensures TokensApart(t.sessions, i, j) {
      assert TokensApart(s.sessions, i, j) && SessionIssued(s, i) && SessionIssued(s, j);
    }
    forall i | 0 <= i < |s.sessions| ensures SessionLasts(s.sessions, t.sessions, i) {
    }
    forall i | 0 <= i < |s.resets| ensures ResetLasts(s.resets, t.resets, i) {
    }
    forall retired | Retired(s, retired) ensures Retired(t, retired) {
      forall i | 0 <= i < |t.sessions| ensures NotTokenOf(t.sessions, i, retired) {
        assert NotTokenOf(s.sessions, i, retired);
      }
    }
    forall i | 0 <= i < |t.sessions| ensures NotTokenOf(t.sessions, i, s.sessions[k].token) {
      assert i < k ==> TokensApart(s.sessions, i, k);
      assert k < i ==> TokensApart(s.sessions, k, i);
    }
  }

  ghost predicate OnlyRevokes(a: seq<Session>, b: seq<Session>, i: nat, now: Instant)
    requires i < |a| == |b|
  {
    b[i].token == a[i].token && SessionLasts(a, b, i) && RevokedBy(b, i, now)
  }

  ghost predicate OnlyWithdraws(a: seq<Reset>, b: seq<Reset>, i: nat)
    requires i < |a| == |b|
  {
    ResetLasts(a, b, i) && (Live(b[i]) ==> Live(a[i]))
  }

  /** Revoking sessions and spending reset tokens, in any number, is good. */
  lemma Revoked(s: Tables, t: Tables, clock: Instant, now: Instant)
    requires Inv(s, clock) && clock <= now && |t.sessions| == |s.sessions| && |t.resets| == |s.resets|
    requires t.issued == s.issued
    requires forall i | 0 <= i < |s.sessions| :: OnlyRevokes(s.sessions, t.sessions, i, now)
    requires forall i | 0 <= i < |s.resets| :: OnlyWithdraws(s.resets, t.resets, i)
    ensures GoodStep(s, t, now)
  {
    forall i | 0 <= i < |t.sessions|
      ensures SessionIssued(t, i) && SessionLasts(s.sessions, t.sessions, i) && RevokedBy(t.sessions, i, now)
    {
      assert SessionIssued(s, i) && OnlyRevokes(s.sessions, t.sessions, i, now);
    }
    forall i | 0 <= i < |t.resets| ensures ResetKnown(t, i) && ResetLasts(s.resets, t.resets, i) {
      assert ResetKnown(s, i) && OnlyWithdraws(s.resets, t.resets, i);
    }
    forall i, j | 0 <= i < j < |t.sessions| ensures TokensApart(t.sessions, i, j) {
      assert TokensApart(s.sessions, i, j);
      assert OnlyRevokes(s.sessions, t.sessions, i, now) && OnlyRevokes(s.sessions, t.sessions, j, now);
    }
    forall i, j | 0 <= i < j < |t.resets| ensures ResetsApart(t.resets, i, j) {
      assert ResetsApart(s.resets, i, j);
      assert OnlyWithdraws(s.resets, t.resets, i) && OnlyWithdraws(s.resets, t.resets, j);
    }
    forall token | Retired(s, token) ensures Retired(t, token) {
      forall i | 0 <= i < |t.sessions| ensures NotTokenOf(t.sessions, i, token) {
        assert NotTokenOf(s.sessions, i, token) && OnlyRevokes(s.sessions, t.sessions, i, now);
      }
    }
  }

  /** A reset token is issued after the live ones of its user were revoked. */
  lemma ResetOpened(s: Tables, u: nat, token: Token, clock: Instant, now: Instant)
    requires Inv(s, clock) && clock <= now && token !in s.issued
    ensures var x := Reset(u, token, now + RESET_TTL, None, None);
            GoodStep(s, s.(resets := ResetsRevoked(s.resets, u, None, now) + [x], issued := s.issued + {token}), now)
  {
    Same(s, clock, now);
    var x := Reset(u, token, now + RESET_TTL, None, None);
    var a := ResetsRevoked(s.resets, u, None, now);
    var t := s.(resets := a + [x], issued := s.issued + {token});
    forall i | 0 <= i < |t.sessions|
      ensures SessionIssued(t, i) && SessionLasts(s.sessions, t.sessions, i) && RevokedBy(t.sessions, i, now)
    {
      assert SessionIssued(s, i) && RevokedBy(s.sessions, i, now);
    }
    forall i | 0 <= i < |s.resets| ensures ResetLasts(s.resets, t.resets, i) {
    }
    forall i | 0 <= i < |t.resets| ensures ResetKnown(t, i) {
      assert i < |s.resets| ==> ResetKnown(s, i);
    }
    forall i, j | 0 <= i < j < |t.sessions| ensures TokensApart(t.sessions, i, j) {
      assert TokensApart(s.sessions, i, j);
    }
    forall i, j | 0 <= i < j < |t.resets| ensures ResetsApart(t.resets, i, j) {
      assert ResetKnown(s, i);
      assert j < |s.resets| ==> ResetsApart(s.resets, i, j);
    }
    forall retired | Retired(s, retired) ensures Retired(t, retired) {
      forall i | 0 <= i < |t.sessions| ensures NotTokenOf(t.sessions, i, retired) {
        assert NotTokenOf(s.sessions, i, retired);
      }
    }
  }

  // ---- Every step ----

  lemma StepIsGood(s: Tables, step: Step, clock: Instant)
    requires Inv(s, clock) && clock <= step.now && DrawsFresh(s, step.call)
    ensures GoodStep(s, Apply(s, step), step.now)
  {
    Same(s, clock, step.now);
    var t := Apply(s, step);
    match step.call {
      case Login(email, password, token) =>
        if LoginUser(s, email, password).Some? {
          SessionOpened(s, NewSession(LoginUser(s, email, password).value, token, step.now), clock, step.now);
        }
      case SignUp(request, token) =>
        if t != s {
          var owner := if Replayed(s, request).Some? then s.businesses[Replayed(s, request).value].owner else |s.users|;
          var joined := s.(sessions := t.sessions, issued := t.issued);
          SessionOpened(s, NewSession(owner, token, step.now), clock, step.now);
          UsersAreFree(s, joined, t.users, t.businesses, step.now);
        }
      case Refresh(presented, token) =>
        if RefreshSession(s, presented, step.now).Some? {
          Rotated(s, RefreshSession(s, presented, step.now).value, token, clock, step.now);
        }
      case IssueReset(email, token) =>
        if ActiveUser(s, email).Some? {
          ResetOpened(s, ActiveUser(s, email).value, token, clock, step.now);
        }
      case Deactivate(user) => UsersAreFree(s, s, t.users, t.businesses, step.now);
      case Logout(_) => RevocationIsGood(s, step, clock);
      case WithdrawReset(_) => RevocationIsGood(s, step, clock);
      case ResetPassword(_, _) => RevocationIsGood(s, step, clock);
      case ChangePassword(_, _, _, _) => RevocationIsGood(s, step, clock);
    }
  }

  lemma RevocationIsGood(s: Tables, step: Step, clock: Instant)
    requires Inv(s, clock) && clock <= step.now
    requires step.call.Logout? || step.call.WithdrawReset? || step.call.ResetPassword? || step.call.ChangePassword?
    ensures GoodStep(s, Apply(s, step), step.now)
  {
    var t := Apply(s, step);
    forall i | 0 <= i < |s.sessions| ensures OnlyRevokes(s.sessions, t.sessions, i, step.now) {
      assert RevokedBy(s.sessions, i, clock);
    }
    forall i | 0 <= i < |s.resets| ensures OnlyWithdraws(s.resets, t.resets, i) {
    }
    Revoked(s, t, clock, step.now);
  }

  lemma LastsThen(s: Tables, t: Tables, u: Tables)
    requires Lasts(s, t) && Lasts(t, u)
    ensures Lasts(s, u)
  {
    forall i | 0 <= i < |s.sessions| ensures SessionLasts(s.sessions, u.sessions, i) {
      assert SessionLasts(s.sessions, t.sessions, i) && SessionLasts(t.sessions, u.sessions, i);
    }
    forall i | 0 <= i < |s.resets| ensures ResetLasts(s.resets, u.resets, i) {
      assert ResetLasts(s.resets, t.resets, i) && ResetLasts(t.resets, u.resets, i);
    }
  }

  /** The clock does not go back. */
  ghost predicate Timed(clock: Instant, steps: seq<Step>)
    decreases |steps|
  {
    steps != [] ==> clock <= steps[0].now && Timed(steps[0].now, steps[1..])
  }

  function EndOf(clock: Instant, steps: seq<Step>): Instant
    decreases |steps|
  {
    if steps == [] then clock else EndOf(steps[0].now, steps[1..])
  }

  /** Over every run: tokens stay apart, at most one live reset per user, revocation and expiry never move back. */
  lemma {:induction false} RunIsGood(s: Tables, steps: seq<Step>, clock: Instant)
    requires Inv(s, clock) && Fresh(s, steps) && Timed(clock, steps)
    ensures GoodStep(s, Run(s, steps), EndOf(clock, steps))
    decreases |steps|
  {
    if steps == [] {
      Same(s, clock, clock);
    } else {
      var t := Apply(s, steps[0]);
      StepIsGood(s, steps[0], clock);
      RunIsGood(t, steps[1..], steps[0].now);
      LastsThen(s, t, Run(s, steps));
    }
  }

  // ---- What runs guarantee ----

  /** A refresh token accepted once is never accepted again, in any continuation of any run. */
  lemma RefreshTokensAreAcceptedOnce(s: Tables, clock: Instant, token: Token, replacement: Token, now: Instant,
      steps: seq<Step>, later: Instant)
    requires Inv(s, clock) && clock <= now && RefreshSession(s, token, now).Some? && replacement !in s.issued
    requires Fresh(Refreshed(s, token, replacement, now), steps) && Timed(now, steps)
    ensures RefreshSession(Run(Refreshed(s, token, replacement, now), steps), token, later).None?
  {
    var k := RefreshSession(s, token, now).value;
    var t := Refreshed(s, token, replacement, now);
    assert WithToken(token)(s.sessions[k]);
    Rotated(s, k, replacement, clock, now);
    RunIsGood(t, steps, now);
    var u := Run(t, steps);
    forall i | 0 <= i < |u.sessions| ensures !WithToken(token)(u.sessions[i]) {
      assert NotTokenOf(u.sessions, i, token);
    }
  }

  /** A session that is revoked, or has expired by `now`, authenticates nobody from `now` on, in any continuation. */
  lemma EndedSessionsStayEnded(s: Tables, clock: Instant, i: nat, now: Instant, steps: seq<Step>, user: nat,
      later: Instant)
    requires Inv(s, clock) && Fresh(s, steps) && Timed(clock, steps) && i < |s.sessions|
        && !Usable(s.sessions[i], now) && now <= later
    ensures !Authenticates(Run(s, steps), user, i, later)
  {
    RunIsGood(s, steps, clock);
    assert SessionLasts(s.sessions, Run(s, steps).sessions, i);
  }

  /**
   After a successful password reset, no session that its user had before is ever usable again,
   the token is spent for good whatever password it is replayed with, and the old password opens
   no session.
   */
  lemma ResetEndsEarlierSessions(
    s: Tables, clock: Instant, token: Token, password: Password, now: Instant, steps: seq<Step>, i: nat,
    replay: Password, later: Instant)
    requires Inv(s, clock) && clock <= now && AcceptedReset(s, token, password, now).Some?
    requires var t := PasswordReset(s, token, password, now); Fresh(t, steps) && Timed(now, steps)
    requires i < |s.sessions| && s.sessions[i].user == s.resets[AcceptedReset(s, token, password, now).value].user
    ensures var t := PasswordReset(s, token, password, now); var u := Run(t, steps);
            var user := s.sessions[i].user;
            && !Authenticates(u, user, i, later)
            && AcceptedReset(u, token, replay, later).None?
            && LoginUser(t, s.users[user].email, s.users[user].password) != Some(user)
  {
    var t := PasswordReset(s, token, password, now);
    var u := Run(t, steps);
    StepIsGood(s, Step(ResetPassword(token, password), now), clock);
    RunIsGood(t, steps, now);
    assert SessionLasts(t.sessions, u.sessions, i);
    ResetTokensAreSpentOnce(s, clock, token, password, now, steps, replay, later);
  }

  /** A reset token accepted once is never accepted again, with any password, in any continuation of any run. */
  lemma ResetTokensAreSpentOnce(
    s: Tables, clock: Instant, token: Token, password: Password, now: Instant, steps: seq<Step>,
    replay: Password, later: Instant)
    requires Inv(s, clock) && clock <= now && AcceptedReset(s, token, password, now).Some?
    requires var t := PasswordReset(s, token, password, now); Fresh(t, steps) && Timed(now, steps)
    ensures AcceptedReset(Run(PasswordReset(s, token, password, now), steps), token, replay, later).None?
  {
    var k := AcceptedReset(s, token, password, now).value;
    var t := PasswordReset(s, token, password, now);
    var u := Run(t, steps);
    StepIsGood(s, Step(ResetPassword(token, password), now), clock);
    RunIsGood(t, steps, now);
    assert WithResetToken(token)(s.resets[k]);
    assert ResetLasts(s.resets, t.resets, k) && ResetLasts(t.resets, u.resets, k);
    SpentStaysSpent(u, EndOf(now, steps), k, token, replay, later);
  }

  lemma SpentStaysSpent(u: Tables, clock: Instant, k: nat, token: Token, password: Password, later: Instant)
    requires Inv(u, clock) && k < |u.resets| && u.resets[k].token == token && !Live(u.resets[k])
    ensures AcceptedReset(u, token, password, later).None?
  {
    match FirstAt(u.resets, WithResetToken(token)) {
      case None =>
      case Some(i) =>
        assert i < k ==> ResetsApart(u.resets, i, k);
        assert k < i ==> ResetsApart(u.resets, k, i);
    }
  }

  /** A withdrawn reset token is never accepted, with any password, in any continuation of any run. */
  lemma WithdrawnResetsAreNeverAccepted(
    s: Tables, clock: Instant, k: nat, now: Instant, steps: seq<Step>, replay: Password, later: Instant)
    requires Inv(s, clock) && clock <= now && k < |s.resets|
    requires Fresh(ResetWithdrawn(s, k, now), steps) && Timed(now, steps)
    ensures AcceptedReset(Run(ResetWithdrawn(s, k, now), steps), s.resets[k].token, replay, later).None?
  {
    var t := ResetWithdrawn(s, k, now);
    StepIsGood(s, Step(WithdrawReset(k), now), clock);
    RunIsGood(t, steps, now);
    assert ResetLasts(s.resets, t.resets, k) && ResetLasts(t.resets, Run(t, steps).resets, k);
    SpentStaysSpent(Run(t, steps), EndOf(now, steps), k, s.resets[k].token, replay, later);
  }

  /**
   After a logout its session authenticates nobody and its token refreshes nothing, in any
   continuation of any run.
   */
  lemma LogoutEndsItsSession(
    s: Tables, clock: Instant, token: Token, now: Instant, steps: seq<Step>, user: nat, later: Instant)
    requires Inv(s, clock) && clock <= now && FirstAt(s.sessions, WithToken(token)).Some?
    requires Fresh(LoggedOut(s, token, now), steps) && Timed(now, steps)
    ensures var i := FirstAt(s.sessions, WithToken(token)).value; var u := Run(LoggedOut(s, token, now), steps);
            !Authenticates(u, user, i, later) && RefreshSession(u, token, later).None?
  {
    var i := FirstAt(s.sessions, WithToken(token)).value;
    var t := LoggedOut(s, token, now);
    var u := Run(t, steps);
    StepIsGood(s, Step(Logout(token), now), clock);
    RunIsGood(t, steps, now);
    assert SessionLasts(s.sessions, t.sessions, i) && SessionLasts(t.sessions, u.sessions, i);
    assert WithToken(token)(s.sessions[i]);
    SameHolder(u, EndOf(now, steps), i);
  }

  lemma SameHolder(u: Tables, clock: Instant, i: nat)
    requires Inv(u, clock) && i < |u.sessions|
    ensures FirstAt(u.sessions, WithToken(u.sessions[i].token)) == Some(i)
  {
    assert WithToken(u.sessions[i].token)(u.sessions[i]);
    match FirstAt(u.sessions, WithToken(u.sessions[i].token)) {
      case None =>
      case Some(j) =>
        assert i < j ==> TokensApart(u.sessions, i, j);
        assert j < i ==> TokensApart(u.sessions, j, i);
    }
  }

  /** Retrying a sign-up that succeeded opens another session of the same user, and nothing else. */
  lemma SignUpRetryOpensOnlyASession(
    s: Tables, q: SignUpRequest, drawn: Token, now: Instant, again: Token, later: Instant)
    requires q.keyed && FirstAt(s.users, WithEmail(q.email)).None? && Replayed(s, q).None?
    ensures var t := SignedUp(s, q, drawn, now); var u := SignedUp(t, q, again, later);
            && t.users == s.users + [User(q.email, q.password, true)]
            && u.users == t.users && u.businesses == t.businesses && u.resets == t.resets
            && u.sessions == t.sessions + [NewSession(|s.users|, again, later)]
  {
    var t := SignedUp(s, q, drawn, now);
    forall k | 0 <= k < |s.businesses| ensures !WithId(q.id)(t.businesses[k]) {
      assert !WithId(q.id)(s.businesses[k]);
    }
    assert WithId(q.id)(t.businesses[|s.businesses|]);
    FirstAtIs(t.businesses, WithId(q.id), |s.businesses|);
  }

  /**
   Whatever request repeats a used key, no user, business or reset token changes and no session
   ends; at most one session is opened, for the owner, and only for the owner's name, address
   and password.
   */
  lemma ForeignKeyChangesNothing(s: Tables, q: SignUpRequest, drawn: Token, now: Instant)
    requires Replayed(s, q).Some?
    ensures var t := SignedUp(s, q, drawn, now); var b := s.businesses[Replayed(s, q).value];
            && t.users == s.users && t.businesses == s.businesses && t.resets == s.resets
            && (Repeats(s, b, q) ==> t.sessions == s.sessions + [NewSession(b.owner, drawn, now)])
            && (t == s <==> !Repeats(s, b, q))
  {
    assert |s.sessions + [NewSession(s.businesses[Replayed(s, q).value].owner, drawn, now)]| == |s.sessions| + 1;
  }

  /** Users and businesses are never removed, and neither an address nor a business ever changes. */
  ghost predicate Remembers(s: Tables, t: Tables) {
    && s.businesses <= t.businesses && |s.users| <= |t.users|
    && forall i | 0 <= i < |s.users| :: t.users[i].email == s.users[i].email
  }

  lemma {:induction false} RunRemembers(s: Tables, steps: seq<Step>)
    ensures Remembers(s, Run(s, steps))
    decreases |steps|
  {
    if steps != [] {
      StepRemembers(s, steps[0]);
      RunRemembers(Apply(s, steps[0]), steps[1..]);
    }
  }

  lemma StepRemembers(s: Tables, step: Step)
    ensures Remembers(s, Apply(s, step))
  {
  }

  /**
   In every continuation of a run, the key of a successful sign-up opens sessions for the user it
   created and for nobody else, and only to who repeats its name and address with the password of
   that moment; it never creates a second user or business.
   */
  lemma SignUpKeysStayWithTheirOwner(
    s: Tables, q: SignUpRequest, drawn: Token, now: Instant, steps: seq<Step>, again: SignUpRequest, token: Token,
    later: Instant)
    requires q.keyed && FirstAt(s.users, WithEmail(q.email)).None? && Replayed(s, q).None?
    requires again.keyed && again.id == q.id
    ensures var u := Run(SignedUp(s, q, drawn, now), steps); var v := SignedUp(u, again, token, later);
            && |s.users| < |u.users|
            && v.users == u.users && v.businesses == u.businesses && v.resets == u.resets
            && v.sessions == u.sessions
                 + if again.name == q.name && again.email == q.email && again.password == u.users[|s.users|].password
                   then [NewSession(|s.users|, token, later)] else []
  {
    var t := SignedUp(s, q, drawn, now);
    var u := Run(t, steps);
    RunRemembers(t, steps);
    KeyIsFound(s, t, u, q);
    ForeignKeyChangesNothing(u, again, token, later);
    assert u.businesses[|s.businesses|] == t.businesses[|s.businesses|];
    assert u.users[|s.users|].email == t.users[|s.users|].email;
  }

  lemma KeyIsFound(s: Tables, t: Tables, u: Tables, q: SignUpRequest)
    requires FirstAt(s.businesses, WithId(q.id)).None?
    requires t.businesses == s.businesses + [Business(q.id, q.name, |s.users|)] && t.businesses <= u.businesses
    ensures FirstAt(u.businesses, WithId(q.id)) == Some(|s.businesses|)
  {
    var k := |s.businesses|;
    forall j | 0 <= j < k ensures !WithId(q.id)(u.businesses[j]) {
      assert u.businesses[j] == t.businesses[j] == s.businesses[j];
    }
    assert u.businesses[k] == t.businesses[k];
    FirstAtIs(u.businesses, WithId(q.id), k);
  }

  /**
   A login reads the password without a lock.  One that has read it when a reset commits still
   adds its session, which the reset did not see: it stays open although its password is refused
   from then on.
   */
  lemma LoginAcrossAResetStaysOpen(
    s: Tables, email: nat, former: Password, token: Token, password: Password, now: Instant, drawn: Token,
        later: Instant,
    at: Instant)
    requires LoginUser(s, email, former).Some? && AcceptedReset(s, token, password, now).Some?
    requires s.resets[AcceptedReset(s, token, password, now).value].user == LoginUser(s, email, former).value
    requires at < later + REFRESH_TTL
    ensures var user := LoginUser(s, email, former).value; var t := PasswordReset(s, token, password, now);
            && LoginUser(t, email, former) != Some(user)
            && Authenticates(SessionAdded(t, user, drawn, later), user, |t.sessions|, at)
  {
  }

  /** A password change ends every other session of the user and keeps the one it was made from. */
  lemma ChangeKeepsOnlyItsSession(s: Tables, user: nat, i: nat, current: Password, password: Password, now: Instant,
      j: nat)
    requires ChangeAllowed(s, user, i, current, password, now) && j < |s.sessions|
    ensures Authenticates(PasswordChanged(s, user, i, current, password, now), user, j, now) <==> j == i
  {
  }

  /** In every reachable state a user has at most one reset token that could be accepted. */
  lemma OneLiveReset(clock: Instant, steps: seq<Step>, i: nat, j: nat)
    requires Fresh(NoTables(), steps) && Timed(clock, steps)
    requires var t := Run(NoTables(), steps);
             && i < |t.resets| && j < |t.resets| && t.resets[i].user == t.resets[j].user
             && Live(t.resets[i]) && Live(t.resets[j])
    ensures i == j
  {
    RunIsGood(NoTables(), steps, clock);
    var t := Run(NoTables(), steps);
    assert i < j ==> ResetsApart(t.resets, i, j);
    assert j < i ==> ResetsApart(t.resets, j, i);
  }
}
