/**
How an agent comes by the identity it connects with: a single-use bootstrap token (internal/agentpki/bootstrap.go)
is exchanged for one certificate (internal/api/agent_bootstrap.go), whose one principal (internal/agentpki/sign.go)
is the registry key of the connection (internal/api/agent_listener.go).
 */
module AgentIdentity {
  import opened Wrappers
  import opened Runs
  import opened Strings
  import opened AgentTunnel
  import opened Clock

  const BOOTSTRAP_TOKEN_TTL: nat := 15 * 60 * SECOND
  const AGENT_CERT_TTL: nat := 24 * 60 * 60 * SECOND

  // ---- Principals ----

  function AgentPrincipal(ns: string, cluster: string): string {
    ns + "/" + cluster
  }

  method ParseAgentPrincipal(principal: string) returns (key: Option<AgentKey>)
    ensures key == match Cut(principal, '/') case Some((ns, cluster)) => Some(AgentKey(ns, cluster)) case None => None
  {
    for i := 0 to |principal|
      invariant '/' !in principal[..i]
    {
      if principal[i] == '/' {
        CutAt(principal, '/', i);
        return Some(AgentKey(principal[..i], principal[i + 1..]));
      }
    }
    assert principal[..|principal|] == principal;
    CutParts(principal, '/');
    return None;
  }

  function Parsed(principal: string): Option<AgentKey> {
    match Cut(principal, '/') case Some((ns, cluster)) => Some(AgentKey(ns, cluster)) case None => None
  }

  // Building and parsing a principal are inverse exactly for namespaces without a slash.
  lemma PrincipalRoundTripIff(ns: string, cluster: string)
    ensures Parsed(AgentPrincipal(ns, cluster)) == Some(AgentKey(ns, cluster)) <==> '/' !in ns
  {
    CutJoinedIff(ns, '/', cluster);
  }

  // ---- Tokens, certificates, connections ----

  type Token = string

  datatype Secret = Secret(ns: string, cluster: string, expiresAt: nat)

  datatype Mint = Mint(ns: string, cluster: string, at: nat)

  // `token` and `issuedAt` are history. validBefore is in Unix seconds.
  datatype Cert = Cert(principal: string, validBefore: nat, token: Token, issuedAt: nat)

  // A registry entry as handleAgentConnection made it.
  datatype Entry = Entry(key: AgentKey, cert: Cert, at: nat)

  datatype State = State(
    now: nat,
    digest: Token -> string,   // bootstrapSecretName
    secrets: map<string, Secret>,
    minted: map<Token, Mint>,
    certs: set<Cert>,
    entered: set<Entry>)

  datatype Action =
    | Tick(d: nat)
    | MintToken(token: Token, ns: string, cluster: string)
    | Bootstrap(token: Token, goodKey: bool, fault: bool)  // consume and sign, as one step
    | Connect(cert: Cert)

  // GenerateBootstrapToken draws 32 random bytes; the namespace is a Kubernetes one, hence without a slash.
  predicate Enabled(s: State, a: Action) {
    match a
    case Tick(_) => true
    case MintToken(token, ns, _) => token !in s.minted && s.digest(token) !in s.secrets && '/' !in ns
    case Bootstrap(_, _, _) => true
    case Connect(cert) => cert in s.certs && Unix(s.now) < cert.validBefore && Parsed(cert.principal).Some?
  }

  // expiresAt is stored as RFC 3339 text, to the second.
  function Expiry(mintedAt: nat): nat {
    Unix(mintedAt + BOOTSTRAP_TOKEN_TTL) * SECOND
  }

  function Apply(s: State, a: Action): State
    requires Enabled(s, a)
  {
    match a
    case Tick(d) => s.(now := s.now + d)
    case MintToken(token, ns, cluster) =>
      s.(secrets := s.secrets[s.digest(token) := Secret(ns, cluster, Expiry(s.now))],
         minted := s.minted[token := Mint(ns, cluster, s.now)])
    case Bootstrap(token, goodKey, fault) =>
      var name := s.digest(token);
      if fault || name !in s.secrets then s
      else
        // Deleted before the expiry check: an expired token is consumed all the same.
        var secret := s.secrets[name];
        var consumed := s.(secrets := s.secrets - {name});
        if s.now > secret.expiresAt || !goodKey then consumed
        else consumed.(certs := s.certs + {Cert(AgentPrincipal(secret.ns, secret.cluster),
                                                Unix(s.now + AGENT_CERT_TTL), token, s.now)})
    case Connect(cert) => s.(entered := s.entered + {Entry(Parsed(cert.principal).value, cert, s.now)})
  }

  function Step(s: State, a: Action): Option<State> {
    if Enabled(s, a) then Some(Apply(s, a)) else None
  }

  ghost predicate Injective(f: Token -> string) {
    forall x, y :: f(x) == f(y) ==> x == y
  }

  ghost predicate Init(s: State) {
    Injective(s.digest) && s.secrets == map[] && s.minted == map[] && s.certs == {} && s.entered == {}
  }

  // ---- The chain ----

  // The minted token a secret belongs to, which has no certificate yet.
  predicate Unused(s: State, name: string, token: Token) {
    && token in s.minted && s.digest(token) == name && name in s.secrets
    && s.secrets[name] == Secret(s.minted[token].ns, s.minted[token].cluster, Expiry(s.minted[token].at))
    && (forall c <- s.certs :: c.token != token)
  }

  predicate IssuedFor(s: State, c: Cert) {
    && c.token in s.minted && s.digest(c.token) !in s.secrets
    && c.principal == AgentPrincipal(s.minted[c.token].ns, s.minted[c.token].cluster)
    && c.issuedAt <= Expiry(s.minted[c.token].at)
    && c.validBefore == Unix(c.issuedAt + AGENT_CERT_TTL)
  }

  predicate EnteredBy(s: State, e: Entry) {
    e.cert in s.certs && Parsed(e.cert.principal) == Some(e.key) && Unix(e.at) < e.cert.validBefore
  }

  ghost predicate Inv(s: State) {
    && Injective(s.digest)
    && (forall t <- s.minted :: '/' !in s.minted[t].ns)
    && (forall name <- s.secrets :: exists token :: Unused(s, name, token))
    && (forall c <- s.certs :: IssuedFor(s, c))
    && (forall c, d | c in s.certs && d in s.certs :: c.token == d.token ==> c == d)
    && (forall e <- s.entered :: EnteredBy(s, e))
  }

  lemma MintLeavesUnused(s: State, a: Action, name: string, token: Token)
    requires Enabled(s, a) && a.MintToken? && Unused(s, name, token) && name != s.digest(a.token)
    ensures Unused(Apply(s, a), name, token)
  {
  }

  lemma MintedUnused(s: State, a: Action)
    requires Enabled(s, a) && a.MintToken? && forall c <- s.certs :: c.token in s.minted
    ensures Unused(Apply(s, a), s.digest(a.token), a.token)
  {
  }

  lemma MintKeeps(s: State, a: Action)
    requires Enabled(s, a) && Inv(s) && a.MintToken?
    ensures Inv(Apply(s, a))
  {
    var t := Apply(s, a);
    forall name | name in t.secrets ensures exists token :: Unused(t, name, token) {
      if name == s.digest(a.token) {
        MintedUnused(s, a);
      } else {
        var token :| Unused(s, name, token);
        MintLeavesUnused(s, a, name, token);
      }
    }
    forall c <- s.certs ensures IssuedFor(t, c) {
      assert IssuedFor(s, c);
    }
  }

  lemma BootstrapLeavesUnused(s: State, a: Action, name: string, token: Token)
    requires a.Bootstrap? && Unused(s, name, token) && name != s.digest(a.token)
    ensures Unused(Apply(s, a), name, token)
  {
  }

  lemma BootstrapIssues(s: State, a: Action, c: Cert)
    requires Inv(s) && a.Bootstrap? && c in Apply(s, a).certs
    ensures IssuedFor(Apply(s, a), c)
    ensures c !in s.certs ==> c.token == a.token && forall d <- s.certs :: d.token != a.token
  {
    if c !in s.certs {
      var own :| Unused(s, s.digest(a.token), own);
      assert own == a.token;
    } else {
      assert IssuedFor(s, c);
    }
  }

  lemma BootstrapKeeps(s: State, a: Action)
    requires Enabled(s, a) && Inv(s) && a.Bootstrap?
    ensures Inv(Apply(s, a))
  {
    var t := Apply(s, a);
    forall n | n in t.secrets ensures exists token :: Unused(t, n, token) {
      var token :| Unused(s, n, token);
      if n == s.digest(a.token) {
        assert t == s;
      } else {
        BootstrapLeavesUnused(s, a, n, token);
      }
    }
    forall c <- t.certs
      ensures IssuedFor(t, c) && (c !in s.certs ==> c.token == a.token && forall d <- s.certs :: d.token != a.token)
    {
      BootstrapIssues(s, a, c);
    }
    assert forall e <- t.entered :: EnteredBy(s, e);
  }

  lemma StepKeeps(s: State, a: Action)
    requires Enabled(s, a) && Inv(s)
    ensures Inv(Apply(s, a))
  {
    if a.MintToken? {
      MintKeeps(s, a);
    } else if a.Bootstrap? {
      BootstrapKeeps(s, a);
    } else {
      var t := Apply(s, a);
      forall n | n in t.secrets ensures exists token :: Unused(t, n, token) {
        var token :| Unused(s, n, token);
        assert Unused(t, n, token);
      }
    }
  }

  lemma {:induction false} ReachableInv(s: State, acts: seq<Action>)
    requires Init(s) && Run(Step, s, acts).Some?
    ensures Inv(Run(Step, s, acts).value)
  {
    forall t, a | Inv(t) && Step(t, a).Some? ensures Inv(Step(t, a).value) {
      StepKeeps(t, a);
    }
    Invariant(Step, Inv, s, acts);
  }

  // Every key that ever enters the registry is the scope of a minted token; that token yielded exactly one
  // certificate, no later than the token's TTL after it was minted; and the connection came before that
  // certificate's end.
  lemma {:induction false} EveryKeyWasMinted(s: State, acts: seq<Action>, e: Entry)
    requires Init(s) && Run(Step, s, acts).Some? && e in Run(Step, s, acts).value.entered
    ensures var t := Run(Step, s, acts).value;
            var token := e.cert.token;
            && token in t.minted && e.key == AgentKey(t.minted[token].ns, t.minted[token].cluster)
            && (set c | c in t.certs && c.token == token) == {e.cert}
            && e.cert.issuedAt <= t.minted[token].at + BOOTSTRAP_TOKEN_TTL
            && Unix(e.at) < Unix(e.cert.issuedAt + AGENT_CERT_TTL)
  {
    ReachableInv(s, acts);
    var t := Run(Step, s, acts).value;
    assert EnteredBy(t, e) && IssuedFor(t, e.cert);
    PrincipalRoundTripIff(t.minted[e.cert.token].ns, t.minted[e.cert.token].cluster);
  }

  // A token is good for its whole TTL, to the second its end is kept in: presented once with a usable key, it yields a
  // certificate of its scope and the certificate's TTL if and only if that second has not begun; and in any case is
  // consumed.
  lemma {:induction false} BootstrapsIff(s: State, acts: seq<Action>, token: Token, goodKey: bool)
    requires Init(s) && Run(Step, s, acts).Some?
    requires var t := Run(Step, s, acts).value; token in t.minted && t.digest(token) in t.secrets
    ensures var t := Run(Step, s, acts).value;
            var mint, u := t.minted[token], Apply(t, Bootstrap(token, goodKey, false));
            Step(t, Bootstrap(token, goodKey, false)) == Some(u) &&
            var cert := Cert(mint.ns + "/" + mint.cluster, Unix(t.now + AGENT_CERT_TTL), token, t.now);
            && cert !in t.certs && t.digest(token) !in u.secrets
            && u.certs == (if goodKey && t.now <= Unix(mint.at + BOOTSTRAP_TOKEN_TTL) * SECOND then t.certs + {cert}
                           else t.certs)
            && mint.at + BOOTSTRAP_TOKEN_TTL - SECOND
               < Unix(mint.at + BOOTSTRAP_TOKEN_TTL) * SECOND <= mint.at + BOOTSTRAP_TOKEN_TTL
  {
    ReachableInv(s, acts);
    var t := Run(Step, s, acts).value;
    var own :| Unused(t, t.digest(token), own);
    assert own == token;
  }

  // A certificate connects, as its scope, until its last second.
  lemma {:induction false} ConnectsUntilItsEnd(s: State, acts: seq<Action>, cert: Cert)
    requires Init(s) && Run(Step, s, acts).Some? && cert in Run(Step, s, acts).value.certs
    ensures var t := Run(Step, s, acts).value;
            && (Step(t, Connect(cert)).Some? <==> Unix(t.now) < Unix(cert.issuedAt + AGENT_CERT_TTL))
            && (Step(t, Connect(cert)).Some? ==>
                  cert.token in t.minted
                  && Entry(AgentKey(t.minted[cert.token].ns, t.minted[cert.token].cluster), cert, t.now)
                     in Step(t, Connect(cert)).value.entered)
  {
    ReachableInv(s, acts);
    var t := Run(Step, s, acts).value;
    assert IssuedFor(t, cert);
    PrincipalRoundTripIff(t.minted[cert.token].ns, t.minted[cert.token].cluster);
  }

  lemma Next(s: State, acts: seq<Action>, t: State, a: Action) returns (more: seq<Action>, u: State)
    requires Run(Step, s, acts) == Some(t) && Enabled(t, a)
    ensures more == acts + [a] && u == Apply(t, a) && Run(Step, s, more) == Some(u)
  {
    Then(Step, s, acts, a);
    more, u := acts + [a], Apply(t, a);
  }

  // From every state, for every new token and scope: minted, presented within its TTL less a second, and its
  // certificate used within its own less a second, it enters the registry under that scope.
  lemma MintedTokenConnects(s: State, token: Token, ns: string, cluster: string, d: nat, e: nat)
    returns (acts: seq<Action>, cert: Cert)
    requires token !in s.minted && s.digest(token) !in s.secrets && '/' !in ns
    requires d <= BOOTSTRAP_TOKEN_TTL - SECOND && e <= AGENT_CERT_TTL - SECOND
    ensures Run(Step, s, acts).Some? && cert.token == token && cert.issuedAt == s.now + d
    ensures Entry(AgentKey(ns, cluster), cert, s.now + d + e) in Run(Step, s, acts).value.entered
  {
    var t;
    acts, t := Next(s, [], s, MintToken(token, ns, cluster));
    acts, t := Next(s, acts, t, Tick(d));
    acts, t := Next(s, acts, t, Bootstrap(token, true, false));
    cert := Cert(AgentPrincipal(ns, cluster), Unix(s.now + d + AGENT_CERT_TTL), token, s.now + d);
    assert cert in t.certs;
    acts, t := Next(s, acts, t, Tick(e));
    PrincipalRoundTripIff(ns, cluster);
    acts, t := Next(s, acts, t, Connect(cert));
  }

  // token's secret is gone, and every certificate of it among certs.
  ghost predicate Spent(s: State, token: Token, certs: set<Cert>) {
    && Injective(s.digest) && token in s.minted && s.digest(token) !in s.secrets
    && (forall c <- s.certs :: c.token == token ==> c in certs)
  }

  lemma StepKeepsSpent(s: State, a: Action, token: Token, certs: set<Cert>)
    requires Enabled(s, a) && Spent(s, token, certs)
    ensures Spent(Apply(s, a), token, certs)
  {
  }

  // Single use: once a token has been presented and its secret deleted, it never yields a certificate again.
  lemma {:induction false} ConsumedForGood(s: State, acts: seq<Action>, token: Token, more: seq<Action>)
    requires Init(s) && Run(Step, s, acts).Some? && Run(Step, s, acts + more).Some?
    requires var t := Run(Step, s, acts).value; token in t.minted && t.digest(token) !in t.secrets
    ensures forall c <- Run(Step, s, acts + more).value.certs :: c.token == token ==>
              c in Run(Step, s, acts).value.certs
  {
    var t := Run(Step, s, acts).value;
    ReachableInv(s, acts);
    Continued(Step, s, acts, more);
    var inv := (u: State) => Spent(u, token, t.certs);
    forall u, a | inv(u) && Step(u, a).Some? ensures inv(Step(u, a).value) {
      StepKeepsSpent(u, a, token, t.certs);
    }
    Invariant(Step, inv, t, more);
  }

  /** The token Secrets of the control plane's namespace, as the two functions of bootstrap.go use them. */
  class BootstrapSecrets {
    const digest: Token -> string
    var secrets: map<string, Secret>

    constructor (digest: Token -> string)
      ensures this.digest == digest && secrets == map[]
    {
      this.digest := digest;
      secrets := map[];
    }

    method GenerateBootstrapToken(raw: Token, ns: string, cluster: string, now: nat) returns (ok: bool)
      modifies this
      ensures ok <==> digest(raw) !in old(secrets)
      ensures secrets == if ok then old(secrets)[digest(raw) := Secret(ns, cluster, Expiry(now))] else old(secrets)
      ensures ok ==> now + BOOTSTRAP_TOKEN_TTL - SECOND < secrets[digest(raw)].expiresAt <= now + BOOTSTRAP_TOKEN_TTL
                     && secrets[digest(raw)].expiresAt % SECOND == 0
    {
      if digest(raw) in secrets {
        return false;
      }
      secrets := secrets[digest(raw) := Secret(ns, cluster, Unix(now + BOOTSTRAP_TOKEN_TTL) * SECOND)];
      return true;
    }

    // Whatever the answer, an unfailing call leaves the token consumed: nothing it could be presented for again.
    method ValidateAndConsumeBootstrapToken(raw: Token, now: nat, getFault: bool, deleteFault: bool)
      returns (scope: Option<(string, string)>)
      modifies this
      ensures secrets == if getFault || deleteFault then old(secrets) else old(secrets) - {digest(raw)}
      ensures scope == match Get(old(secrets), digest(raw))
                       case Some(s) =>
                         if getFault || deleteFault || now > s.expiresAt then None else Some((s.ns, s.cluster))
                       case None => None
    {
      var name := digest(raw);
      if getFault || name !in secrets {
        return None;
      }
      var secret := secrets[name];
      if deleteFault {
        return None;
      }
      secrets := secrets - {name};
      if now > secret.expiresAt {
        return None;
      }
      return Some((secret.ns, secret.cluster));
    }
  }
}
