/**
Sessions and the access tokens issued from them (internal/api/auth_handlers.go), over whole runs. A session row
lives in the store; an access token lives on its own until it expires.
 */
module Sessions {
  import opened Wrappers
  import opened Runs
  import opened Clock
  import opened Tokens

  type SessionID = string

  datatype Session = Session(subject: string, ns: string, hash: string, expiresAt: nat)

  // An access token as issued. All but `expires` is what VerifyToken returns or history.
  datatype Issued = Issued(subject: string, ns: string, expires: nat, session: SessionID, at: nat)

  // `logins` and `ended` are history: when each session was created, and when it was revoked.
  datatype State = State(
    now: nat,
    digest: string -> string,   // HashSessionSecret
    sessions: map<SessionID, Session>,
    issued: set<Issued>,
    logins: map<SessionID, nat>,
    ended: map<SessionID, nat>)

  // fault: the request succeeds, but its revocation of the subject's sessions failed and was only logged.
  datatype Action =
    | Tick(d: nat)
    | Login(id: SessionID, subject: string, ns: string, secret: string)  // after the password check
    | Refresh(token: string)
    | Logout(token: string)
    | ResetPassword(subject: string, fault: bool)  // handleResetPassword, once the reset token is accepted
    | DeleteAccount(subject: string, fault: bool)  // the last membership of a user goes

  // ---- The handlers' effect on the session rows ----

  // The session a presented token refreshes: alive, not expired, and with that secret.
  function Refreshable(sessions: map<SessionID, Session>, digest: string -> string, token: string, now: nat):
    Option<SessionID>
  {
    match SplitSessionToken(token)
    case None => None
    case Some((id, secret)) =>
      if id in sessions && now <= sessions[id].expiresAt && digest(secret) == sessions[id].hash then Some(id) else None
  }

  function AfterLogout(sessions: map<SessionID, Session>, token: string): map<SessionID, Session> {
    match SplitSessionToken(token)
    case None => sessions
    case Some((id, _)) => sessions - {id}
  }

  function AfterRevokeAll(sessions: map<SessionID, Session>, subject: string): map<SessionID, Session> {
    map id | id in sessions && sessions[id].subject != subject :: sessions[id]
  }

  // ---- Steps ----

  predicate Enabled(s: State, a: Action) {
    match a
    case Login(id, _, _, _) => id !in s.logins  // ids are UUIDs
    case Refresh(token) => Refreshable(s.sessions, s.digest, token, s.now).Some?
    case _ => true
  }

  function Issue(s: State, id: SessionID, subject: string, ns: string): State {
    s.(issued := s.issued + {Issued(subject, ns, Unix(s.now + ACCESS_TOKEN_TTL), id, s.now)})
  }

  // s with only `sessions` left of its rows, the others ended now.
  function Ending(s: State, sessions: map<SessionID, Session>): State {
    var gone := map id | id in s.sessions && id !in sessions :: s.now;
    s.(sessions := sessions, ended := s.ended + gone)
  }

  function Apply(s: State, a: Action): State
    requires Enabled(s, a)
  {
    match a
    case Tick(d) => s.(now := s.now + d)
    case Login(id, subject, ns, secret) =>
      Issue(s, id, subject, ns).(
        sessions := s.sessions[id := Session(subject, ns, s.digest(secret), s.now + SESSION_TTL)],
        logins := s.logins[id := s.now])
    case Refresh(token) =>
      var id := Refreshable(s.sessions, s.digest, token, s.now).value;
      Issue(s, id, s.sessions[id].subject, s.sessions[id].ns)
    case Logout(token) => Ending(s, AfterLogout(s.sessions, token))
    case ResetPassword(subject, fault) => if fault then s else Ending(s, AfterRevokeAll(s.sessions, subject))
    case DeleteAccount(subject, fault) => if fault then s else Ending(s, AfterRevokeAll(s.sessions, subject))
  }

  function Step(s: State, a: Action): Option<State> {
    if Enabled(s, a) then Some(Apply(s, a)) else None
  }

  predicate Init(s: State) {
    s.sessions == map[] && s.issued == {} && s.logins == map[] && s.ended == map[]
  }

  // Whether VerifyToken takes the token now (Tokens.VerifiesIff).
  predicate Accepted(s: State, x: Issued) {
    x.subject != "" && Unix(s.now) <= x.expires
  }

  // ---- The invariant ----

  predicate Timely(s: State, x: Issued) {
    && x.session in s.logins
    && s.logins[x.session] <= x.at <= s.logins[x.session] + SESSION_TTL
    && x.expires == Unix(x.at + ACCESS_TOKEN_TTL)
    && x.at <= s.now
    && (x.session in s.ended ==> x.at <= s.ended[x.session])
  }

  predicate Inv(s: State) {
    && (forall x <- s.issued :: Timely(s, x))
    && (forall id <- s.logins :: s.logins[id] <= s.now)
    && (forall id <- s.sessions ::
          id in s.logins && id !in s.ended && s.sessions[id].expiresAt == s.logins[id] + SESSION_TTL)
    && s.ended.Keys <= s.logins.Keys
  }

  lemma StepKeeps(s: State, a: Action)
    requires Enabled(s, a) && Inv(s)
    ensures Inv(Apply(s, a))
  {
  }

  lemma {:induction false} ReachableInv(s: State, acts: seq<Action>)
    requires Init(s) && Run(Step, s, acts).Some?
    ensures Inv(Run(Step, s, acts).value)
  {
    forall t, a | Inv(t) && Step(t, a).Some? ensures Inv(Step(t, a).value) {
      StepKeeps(t, a);
    }
    Invariant(Step, Inv, s, acts);
  }

  // An access token accepted now came from a login no longer ago than both lifetimes together, to the second the
  // expiry is kept in.
  lemma {:induction false} AcceptedWithinBothTTLs(s: State, acts: seq<Action>, x: Issued)
    requires Init(s) && Run(Step, s, acts).Some?
    requires var t := Run(Step, s, acts).value; x in t.issued && Accepted(t, x)
    ensures var t := Run(Step, s, acts).value;
            && x.session in t.logins
            && Unix(t.now) <= Unix(t.logins[x.session] + SESSION_TTL + ACCESS_TOKEN_TTL)
            && t.now < t.logins[x.session] + SESSION_TTL + ACCESS_TOKEN_TTL + SECOND
  {
    ReachableInv(s, acts);
    var t := Run(Step, s, acts).value;
    assert Timely(t, x);
    UnixMonotone(x.at + ACCESS_TOKEN_TTL, t.logins[x.session] + SESSION_TTL + ACCESS_TOKEN_TTL);
    UnixBounds(t.now, t.logins[x.session] + SESSION_TTL + ACCESS_TOKEN_TTL);
  }

  predicate EndedAt(s: State, id: SessionID, at: nat) {
    id in s.ended && s.ended[id] == at
  }

  lemma StepKeepsEnded(s: State, a: Action, id: SessionID, at: nat)
    requires Enabled(s, a) && Inv(s) && EndedAt(s, id, at)
    ensures EndedAt(Apply(s, a), id, at)
  {
  }

  lemma EndedIsDead(s: State, id: SessionID, at: nat)
    requires Inv(s) && EndedAt(s, id, at)
    ensures forall token :: Refreshable(s.sessions, s.digest, token, s.now) != Some(id)
    ensures forall x <- s.issued :: x.session == id && Accepted(s, x) ==> Unix(s.now) <= Unix(at + ACCESS_TOKEN_TTL)
  {
    forall x | x in s.issued && x.session == id && Accepted(s, x) ensures Unix(s.now) <= Unix(at + ACCESS_TOKEN_TTL) {
      assert Timely(s, x);
      UnixMonotone(x.at + ACCESS_TOKEN_TTL, at + ACCESS_TOKEN_TTL);
    }
  }

  // A revoked session never comes back: it is never refreshed again, and no token from it is accepted after the
  // access lifetime, counted from the revocation, has run out.
  lemma {:induction false} RevokedForGood(s: State, acts: seq<Action>, more: seq<Action>, id: SessionID)
    requires Init(s) && Run(Step, s, acts).Some? && Run(Step, s, acts + more).Some?
    requires id in Run(Step, s, acts).value.ended
    ensures var t, u := Run(Step, s, acts).value, Run(Step, s, acts + more).value;
            && id in u.ended && u.ended[id] == t.ended[id]
            && (forall token :: Refreshable(u.sessions, u.digest, token, u.now) != Some(id))
            && (forall x <- u.issued :: x.session == id && Accepted(u, x) ==>
                  Unix(u.now) <= Unix(t.ended[id] + ACCESS_TOKEN_TTL))
  {
    var t := Run(Step, s, acts).value;
    var at := t.ended[id];
    ReachableInv(s, acts);
    Continued(Step, s, acts, more);
    var inv := (u: State) => Inv(u) && EndedAt(u, id, at);
    forall u, a | inv(u) && Step(u, a).Some? ensures inv(Step(u, a).value) {
      StepKeeps(u, a);
      StepKeepsEnded(u, a, id, at);
    }
    Invariant(Step, inv, t, more);
    EndedIsDead(Run(Step, s, acts + more).value, id, at);
  }

  // What ends a session: a logout with its token (whatever the secret half), and a reset or the end of the account
  // of its subject, provided the revocation did not fail. Nothing else does.
  lemma EndsIff(s: State, a: Action, id: SessionID)
    requires Enabled(s, a) && Inv(s) && id in s.sessions
    ensures id in Apply(s, a).ended && Apply(s, a).ended[id] == s.now <==>
            match a
            case Logout(token) => SplitSessionToken(token).Some? && SplitSessionToken(token).value.0 == id
            case ResetPassword(subject, fault) => s.sessions[id].subject == subject && !fault
            case DeleteAccount(subject, fault) => s.sessions[id].subject == subject && !fault
            case _ => false
    ensures id in Apply(s, a).sessions <==> id !in Apply(s, a).ended
  {
  }

  // Until then it refreshes with the token it was issued as, up to and including its last instant.
  lemma RefreshesUntilExpiry(s: State, id: SessionID, secret: string)
    requires id in s.sessions && id != "" && '.' !in id && secret != "" && s.digest(secret) == s.sessions[id].hash
    ensures Refreshable(s.sessions, s.digest, SessionToken(id, secret), s.now) == Some(id)
            <==> s.now <= s.sessions[id].expiresAt
  {
    SessionTokenRoundTripIff(id, secret);
  }

  // ---- Only its own secret refreshes a session ----

  // A token refreshes a session exactly if it presents, for a stored one not past its last instant, a secret of the
  // stored digest.
  lemma RefreshableIff(sessions: map<SessionID, Session>, digest: string -> string, token: string, now: nat,
                       id: SessionID)
    ensures Refreshable(sessions, digest, token, now) == Some(id) <==>
              && id in sessions && now <= sessions[id].expiresAt
              && exists secret :: Presents(token, id, secret) && digest(secret) == sessions[id].hash
  {
    if SplitSessionToken(token).Some? {
      var (i, secret) := SplitSessionToken(token).value;
      SplitsIff(token, i, secret);
    }
    forall secret | Presents(token, id, secret) ensures SplitSessionToken(token) == Some((id, secret)) {
      SplitsIff(token, id, secret);
    }
  }

  // The session is the one that login made, for its subject and namespace and with its secret's digest.
  predicate MadeBy(s: State, id: SessionID, a: Action) {
    && id in s.sessions && a.Login? && a.id == id
    && s.sessions[id].subject == a.subject && s.sessions[id].ns == a.ns && s.sessions[id].hash == s.digest(a.secret)
  }

  lemma StepKeepsMade(s: State, a: Action, id: SessionID, login: Action)
    requires Enabled(s, a) && Inv(s) && MadeBy(s, id, login) && id in Apply(s, a).sessions
    ensures MadeBy(Apply(s, a), id, login)
  {
  }

  lemma StepMakes(s: State, a: Action, id: SessionID)
    requires Enabled(s, a) && id !in s.sessions && id in Apply(s, a).sessions
    ensures MadeBy(Apply(s, a), id, a)
  {
  }

  lemma {:induction false} EverySessionWasMade(s: State, acts: seq<Action>, id: SessionID) returns (login: Action)
    requires Init(s) && Run(Step, s, acts).Some? && id in Run(Step, s, acts).value.sessions
    ensures login in acts && MadeBy(Run(Step, s, acts).value, id, login)
    ensures Run(Step, s, acts).value.digest == s.digest
  {
    var n := |acts| - 1;
    var t := Run(Step, s, acts[..n]).value;
    DigestIsFixed(s, acts);
    if id in t.sessions {
      login := EverySessionWasMade(s, acts[..n], id);
      ReachableInv(s, acts[..n]);
      StepKeepsMade(t, acts[n], id, login);
    } else {
      login := acts[n];
      StepMakes(t, acts[n], id);
    }
  }

  lemma {:induction false} DigestIsFixed(s: State, acts: seq<Action>)
    requires Run(Step, s, acts).Some?
    ensures Run(Step, s, acts).value.digest == s.digest
  {
    if acts != [] {
      DigestIsFixed(s, acts[..|acts| - 1]);
    }
  }

  // Over every run, given that no two secrets have one digest: whatever refreshes a session is the very token its login
  // handed out, and a token is issued from it only to that login's subject and namespace. Who knows an id alone has
  // nothing.
  lemma {:induction false} OnlyItsTokenRefreshes(s: State, acts: seq<Action>, token: string, id: SessionID)
    returns (login: Action)
    requires Init(s) && Run(Step, s, acts).Some?
    requires forall a, b | s.digest(a) == s.digest(b) :: a == b
    requires var t := Run(Step, s, acts).value; Refreshable(t.sessions, t.digest, token, t.now) == Some(id)
    ensures login in acts && login.Login? && login.id == id && token == id + "." + login.secret
    ensures var t := Run(Step, s, acts).value;
            id in t.sessions && t.sessions[id].subject == login.subject && t.sessions[id].ns == login.ns
  {
    var t := Run(Step, s, acts).value;
    RefreshableIff(t.sessions, t.digest, token, t.now, id);
    login := EverySessionWasMade(s, acts, id);
    var secret :| Presents(token, id, secret) && t.digest(secret) == t.sessions[id].hash;
    assert s.digest(secret) == s.digest(login.secret);
  }

  // id is alive in s since time 0, with that subject and secret, and within its lifetime.
  predicate LoggedInAtZero(s: State, id: SessionID, subject: string, secret: string) {
    && id in s.sessions && s.sessions[id].subject == subject && s.sessions[id].hash == s.digest(secret)
    && s.sessions[id].expiresAt == SESSION_TTL && s.now <= SESSION_TTL
    && id in s.logins && s.logins[id] == 0
  }

  lemma LoggedIn(s: State, id: SessionID, subject: string, secret: string) returns (acts: seq<Action>)
    requires Init(s) && s.now == 0
    ensures Run(Step, s, acts).Some?
    ensures var t := Run(Step, s, acts).value;
            LoggedInAtZero(t, id, subject, secret) && t.now == SESSION_TTL
  {
    var login := Login(id, subject, "", secret);
    Then(Step, s, [], login);
    acts := [] + [login];
    var t := Run(Step, s, acts).value;
    assert LoggedInAtZero(t, id, subject, secret);
    Then(Step, s, acts, Tick(SESSION_TTL));
    acts := acts + [Tick(SESSION_TTL)];
  }

  // A token refreshed in the last instant of the session.
  lemma RefreshedLate(s: State, id: SessionID, subject: string, secret: string)
    requires LoggedInAtZero(s, id, subject, secret) && s.now == SESSION_TTL
    requires id != "" && '.' !in id && secret != ""
    ensures var refresh := Refresh(SessionToken(id, secret));
            && Enabled(s, refresh)
            && var t := Apply(s, refresh);
            && t.now == s.now && id in t.logins && t.logins[id] == 0
            && exists x <- t.issued ::
                 x.session == id && x.subject == subject && x.expires == Unix(s.now + ACCESS_TOKEN_TTL)
  {
    RefreshesUntilExpiry(s, id, secret);
    var refresh := Refresh(SessionToken(id, secret));
    assert Refreshable(s.sessions, s.digest, SessionToken(id, secret), s.now) == Some(id);
    var x := Issued(subject, s.sessions[id].ns, Unix(s.now + ACCESS_TOKEN_TTL), id, s.now);
    assert x in Apply(s, refresh).issued;
  }

  // The bound is attained: a run in which a token is accepted a second less a nanosecond beyond both lifetimes.
  lemma OvershootRun(s: State, id: SessionID, subject: string, secret: string) returns (acts: seq<Action>, x: Issued)
    requires Init(s) && s.now == 0
    requires id != "" && '.' !in id && secret != "" && subject != ""
    ensures Run(Step, s, acts).Some?
    ensures var t := Run(Step, s, acts).value;
            && x in t.issued && Accepted(t, x) && x.session in t.logins && t.logins[x.session] == 0
            && t.now == SESSION_TTL + ACCESS_TOKEN_TTL + SECOND - 1
  {
    acts := LoggedIn(s, id, subject, secret);
    var t := Run(Step, s, acts).value;
    RefreshedLate(t, id, subject, secret);
    var refresh := Refresh(SessionToken(id, secret));
    Then(Step, s, acts, refresh);
    acts := acts + [refresh];
    var u := Run(Step, s, acts).value;
    x :| x in u.issued && x.session == id && x.subject == subject && x.expires == Unix(SESSION_TTL + ACCESS_TOKEN_TTL);
    var tick := Tick(ACCESS_TOKEN_TTL + SECOND - 1);
    Then(Step, s, acts, tick);
    acts := acts + [tick];
  }

  // A reset that succeeds need not end anything: when its revocation failed, the old session token refreshes on.
  lemma ResetLeavesSession(s: State, id: SessionID, subject: string, secret: string) returns (acts: seq<Action>)
    requires Init(s) && s.now == 0 && id != "" && '.' !in id && secret != ""
    ensures Run(Step, s, acts).Some? && acts != [] && acts[|acts| - 1] == ResetPassword(subject, true)
    ensures var t := Run(Step, s, acts).value;
            && id in t.sessions && t.sessions[id].subject == subject
            && Refreshable(t.sessions, t.digest, SessionToken(id, secret), t.now) == Some(id)
  {
    acts := LoggedIn(s, id, subject, secret);
    var t := Run(Step, s, acts).value;
    Then(Step, s, acts, ResetPassword(subject, true));
    acts := acts + [ResetPassword(subject, true)];
    RefreshesUntilExpiry(t, id, secret);
  }

  // ---- The tokens' texts ----

  function PayloadOf(x: Issued): Payload {
    Payload(x.subject, x.ns, x.expires)
  }

  // The text issueSession and handleRefresh hand out for x.
  function TextOf(lib: Library, key: Bytes, x: Issued): string {
    SignPayload(lib, key, PayloadOf(x))
  }

  // A text that verifies is one of an issued token, as long as no other payload was signed with the key.
  lemma VerifiedIsIssued(lib: Library, key: Bytes, token: string, s: State) returns (x: Issued)
    requires MarshalsBack(lib) && SignedOnly(lib, key, token, set x | x in s.issued :: PayloadOf(x))
    requires VerifyToken(lib, key, token, s.now).Ok?
    ensures x in s.issued && Accepted(s, x) && VerifyToken(lib, key, token, s.now) == Ok((x.subject, x.ns))
  {
    VerifiedWasIssued(lib, key, token, s.now, set x | x in s.issued :: PayloadOf(x));
    var (subject, ns) := VerifyToken(lib, key, token, s.now).value;
    var payloads := set x | x in s.issued :: PayloadOf(x);
    var p :| p in payloads && p.subject == subject && p.ns == ns && Unix(s.now) <= p.expires;
    x :| x in s.issued && PayloadOf(x) == p;
    VerifiedHasSubject(lib, key, token, s.now);
  }

  // Whatever text VerifyToken takes now is that of a token of the subject and namespace it answers, whose login is no
  // longer ago than both lifetimes together.
  lemma {:induction false} VerifiedWithinBothTTLs(s: State, acts: seq<Action>, lib: Library, key: Bytes, token: string)
    returns (x: Issued)
    requires Init(s) && Run(Step, s, acts).Some? && MarshalsBack(lib)
    requires var t := Run(Step, s, acts).value;
             && SignedOnly(lib, key, token, set x | x in t.issued :: PayloadOf(x))
             && VerifyToken(lib, key, token, t.now).Ok?
    ensures var t := Run(Step, s, acts).value;
            && x in t.issued && VerifyToken(lib, key, token, t.now) == Ok((x.subject, x.ns)) && x.session in t.logins
            && t.now < t.logins[x.session] + SESSION_TTL + ACCESS_TOKEN_TTL + SECOND
  {
    x := VerifiedIsIssued(lib, key, token, Run(Step, s, acts).value);
    AcceptedWithinBothTTLs(s, acts, x);
  }

  lemma TextIsIssued(lib: Library, key: Bytes, x: Issued)
    requires x.expires == Unix(x.at + ACCESS_TOKEN_TTL)
    ensures TextOf(lib, key, x) == IssueAccessToken(lib, key, x.subject, x.ns, x.at)
  {
  }

  // VerifyToken takes the text of an issued token exactly while Accepted says so.
  lemma TextVerifiesIffAccepted(lib: Library, key: Bytes, s: State, x: Issued)
    requires MarshalsBack(lib) && Inv(s) && x in s.issued
    ensures VerifyToken(lib, key, TextOf(lib, key, x), s.now) == Ok((x.subject, x.ns)) <==> Accepted(s, x)
  {
    assert Timely(s, x);
    TextIsIssued(lib, key, x);
    VerifiesIff(lib, key, x.subject, x.ns, x.at, s.now);
  }

  lemma NotAcceptedAfter(s: State, x: Issued, at: nat)
    requires Inv(s) && x in s.issued && x.session in s.ended && s.ended[x.session] <= at
    requires Unix(s.now) > Unix(at + ACCESS_TOKEN_TTL)
    ensures !Accepted(s, x)
  {
    EndedIsDead(s, x.session, s.ended[x.session]);
    UnixMonotone(s.ended[x.session] + ACCESS_TOKEN_TTL, at + ACCESS_TOKEN_TTL);
  }

  // Once every session a subject's tokens came from is revoked, by `at`, no text verifies as that subject's after the
  // access lifetime from then, for as long as the subject does not log in again.
  lemma {:induction false} RevokedTextsDie(s: State, acts: seq<Action>, lib: Library, key: Bytes, token: string,
                                           subject: string, at: nat)
    requires Init(s) && Run(Step, s, acts).Some? && MarshalsBack(lib)
    requires var t := Run(Step, s, acts).value;
             && SignedOnly(lib, key, token, set x | x in t.issued :: PayloadOf(x))
             && (forall x <- t.issued :: x.subject == subject ==> x.session in t.ended && t.ended[x.session] <= at)
             && Unix(t.now) > Unix(at + ACCESS_TOKEN_TTL)
    ensures var r := VerifyToken(lib, key, token, Run(Step, s, acts).value.now); r.Ok? ==> r.value.0 != subject
  {
    var t := Run(Step, s, acts).value;
    ReachableInv(s, acts);
    if VerifyToken(lib, key, token, t.now).Ok? {
      var x := VerifiedIsIssued(lib, key, token, t);
      if x.subject == subject {
        NotAcceptedAfter(t, x, at);
      }
    }
  }

  // ---- What a revocation that went through is worth ----

  // A token's session is one of its subject's, or has ended.
  predicate Owned(s: State, x: Issued) {
    x.session in s.ended || (x.session in s.sessions && s.sessions[x.session].subject == x.subject)
  }

  predicate OwnedInv(s: State) {
    Inv(s) && (forall x <- s.issued :: Owned(s, x)) && (forall id <- s.ended :: s.ended[id] <= s.now)
  }

  lemma StepKeepsOwned(s: State, a: Action, x: Issued)
    requires Enabled(s, a) && OwnedInv(s) && x in Apply(s, a).issued
    ensures Owned(Apply(s, a), x)
  {
    if x in s.issued {
      assert Owned(s, x);
    }
  }

  lemma {:induction false} ReachableOwned(s: State, acts: seq<Action>)
    requires Init(s) && Run(Step, s, acts).Some?
    ensures OwnedInv(Run(Step, s, acts).value)
  {
    forall t, a | OwnedInv(t) && Step(t, a).Some? ensures OwnedInv(Step(t, a).value) {
      StepKeeps(t, a);
      forall x <- Apply(t, a).issued ensures Owned(Apply(t, a), x) {
        StepKeepsOwned(t, a, x);
      }
    }
    Invariant(Step, OwnedInv, s, acts);
  }

  // The subject has no session, and every token of it is of one that ended by `at`.
  predicate LoggedOut(s: State, subject: string, at: nat) {
    && (forall id <- s.sessions :: s.sessions[id].subject != subject)
    && (forall x <- s.issued :: x.subject == subject ==> x.session in s.ended && s.ended[x.session] <= at)
  }

  predicate RevokesAll(a: Action, subject: string) {
    a == ResetPassword(subject, false) || a == DeleteAccount(subject, false)
  }

  lemma RevokedIsLoggedOut(s: State, a: Action, subject: string)
    requires OwnedInv(s) && RevokesAll(a, subject)
    ensures LoggedOut(Apply(s, a), subject, s.now)
  {
    var t := Apply(s, a);
    forall x <- t.issued | x.subject == subject ensures x.session in t.ended && t.ended[x.session] <= s.now {
      assert Owned(s, x);
    }
  }

  lemma StaysLoggedOut(s: State, a: Action, subject: string, at: nat)
    requires Enabled(s, a) && Inv(s) && LoggedOut(s, subject, at) && !(a.Login? && a.subject == subject)
    ensures LoggedOut(Apply(s, a), subject, at)
  {
    var t := Apply(s, a);
    forall x <- t.issued | x.subject == subject ensures x.session in t.ended && t.ended[x.session] <= at {
      assert x in s.issued;
      StepKeepsEnded(s, a, x.session, s.ended[x.session]);
    }
  }

  lemma {:induction false} StayLoggedOut(s: State, more: seq<Action>, subject: string, at: nat)
    requires Inv(s) && LoggedOut(s, subject, at) && Run(Step, s, more).Some?
    requires forall a <- more :: !(a.Login? && a.subject == subject)
    ensures Inv(Run(Step, s, more).value) && LoggedOut(Run(Step, s, more).value, subject, at)
  {
    if more != [] {
      var n := |more| - 1;
      assert more[n] in more && forall a <- more[..n] :: a in more;
      StayLoggedOut(s, more[..n], subject, at);
      var t := Run(Step, s, more[..n]).value;
      StepKeeps(t, more[n]);
      StaysLoggedOut(t, more[n], subject, at);
    }
  }

  // After a password reset, or the end of an account, whose revocation went through, no text verifies as the subject's
  // once the access lifetime from then has run out, whatever happens meanwhile but a new login of the subject; and
  // until such a login nothing refreshes as the subject.
  lemma {:induction false} ResetTextsDie(s: State, acts: seq<Action>, a: Action, more: seq<Action>, lib: Library,
                                         key: Bytes, token: string, subject: string)
    requires Init(s) && Run(Step, s, acts).Some? && RevokesAll(a, subject) && MarshalsBack(lib)
    requires Run(Step, s, acts + [a] + more).Some? && forall b <- more :: !(b.Login? && b.subject == subject)
    requires SignedOnly(lib, key, token, set x | x in Run(Step, s, acts + [a] + more).value.issued :: PayloadOf(x))
    ensures var t, u := Run(Step, s, acts).value, Run(Step, s, acts + [a] + more).value;
            && (Unix(u.now) > Unix(t.now + ACCESS_TOKEN_TTL) ==>
                  var r := VerifyToken(lib, key, token, u.now); r.Ok? ==> r.value.0 != subject)
            && (forall any :: var id := Refreshable(u.sessions, u.digest, any, u.now);
                  id.Some? ==> u.sessions[id.value].subject != subject)
  {
    var t := Run(Step, s, acts).value;
    ReachableOwned(s, acts);
    RevokedIsLoggedOut(t, a, subject);
    Then(Step, s, acts, a);
    StepKeeps(t, a);
    Continued(Step, s, acts + [a], more);
    StayLoggedOut(Apply(t, a), more, subject, t.now);
    if Unix(Run(Step, s, acts + [a] + more).value.now) > Unix(t.now + ACCESS_TOKEN_TTL) {
      RevokedTextsDie(s, acts + [a] + more, lib, key, token, subject, t.now);
    }
  }

  // Why a session token is refused.
  datatype Refusal = BadToken | BadSession

  /** The sessions table as the handlers use it. */
  class SessionStore {
    var sessions: map<SessionID, Session>
    const digest: string -> string

    constructor (digest: string -> string)
      ensures sessions == map[] && this.digest == digest
    {
      this.digest := digest;
      sessions := map[];
    }

    method IssueSession(id: SessionID, subject: string, ns: string, secret: string, now: nat) returns (token: string)
      requires id !in sessions && id != "" && '.' !in id && secret != ""
      modifies this
      ensures sessions == old(sessions)[id := Session(subject, ns, digest(secret), now + SESSION_TTL)]
      ensures Refreshable(sessions, digest, token, now) == Some(id)
    {
      sessions := sessions[id := Session(subject, ns, digest(secret), now + SESSION_TTL)];
      token := SessionToken(id, secret);
      SessionTokenRoundTripIff(id, secret);
    }

    // Whom the new access token is for; the same as Refreshable, which the runs are about.
    method HandleRefresh(token: string, now: nat) returns (r: Result<(string, string), Refusal>)
      ensures (forall id, secret :: !Presents(token, id, secret)) ==> r == Err(BadToken)
      ensures forall id, secret | Presents(token, id, secret) ::
                r == if id in sessions && now <= sessions[id].expiresAt && digest(secret) == sessions[id].hash
                     then Ok((sessions[id].subject, sessions[id].ns)) else Err(BadSession)
      ensures match Refreshable(sessions, digest, token, now)
              case Some(id) => r == Ok((sessions[id].subject, sessions[id].ns))
              case None => r.Err?
    {
      SplitsIffPresents(token);
      var parts := SplitSessionToken(token);
      if parts.None? {
        return Err(BadToken);
      }
      var (id, secret) := parts.value;
      forall i, s | Presents(token, i, s) ensures i == id && s == secret {
        SplitsIff(token, i, s);
      }
      if id !in sessions {
        return Err(BadSession);
      }
      if now > sessions[id].expiresAt {
        return Err(BadSession);
      }
      if digest(secret) != sessions[id].hash {
        return Err(BadSession);
      }
      return Ok((sessions[id].subject, sessions[id].ns));
    }

    method HandleLogout(token: string)
      modifies this
      ensures sessions == AfterLogout(old(sessions), token)
      ensures forall id, secret | Presents(token, id, secret) :: sessions == old(sessions) - {id}
      ensures (forall id, secret :: !Presents(token, id, secret)) ==> sessions == old(sessions)
      ensures forall now :: Refreshable(sessions, digest, token, now).None?
    {
      SplitsIffPresents(token);
      forall id, secret | Presents(token, id, secret) ensures SplitSessionToken(token) == Some((id, secret)) {
        SplitsIff(token, id, secret);
      }
      var parts := SplitSessionToken(token);
      if parts.Some? {
        sessions := sessions - {parts.value.0};
      }
    }

    method DeleteSessionsBySubject(subject: string)
      modifies this
      ensures sessions == AfterRevokeAll(old(sessions), subject)
      ensures forall id: SessionID ::
                Get(sessions, id) == if id in old(sessions) && old(sessions)[id].subject == subject then None
                                     else Get(old(sessions), id)
      ensures forall token, now :: Refreshable(sessions, digest, token, now).Some? ==>
                sessions[Refreshable(sessions, digest, token, now).value].subject != subject
    {
      sessions := map id | id in sessions && sessions[id].subject != subject :: sessions[id];
    }
  }
}
