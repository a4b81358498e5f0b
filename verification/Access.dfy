/**
Which namespace a request acts in, and with which role (internal/api/server.go): memberships are read again on
every request, and the role is never taken from the token.
 */
module Access {
  import opened Wrappers
  import opened Strings

  type Namespace = string

  datatype Role = Superadmin | Admin | ReadOnly | Custom(name: string)

  // The organization and environment of a membership, where it has them.
  datatype Scope = Scope(organization: string, environment: string)

  // A local row of the bindings table.
  datatype Binding = Binding(ns: Namespace, identity: string, role: Role, scope: Option<Scope>)

  // What of a request picks the organization: two headers, and the namespace of the token.
  datatype Request = Request(caller: string, organization: string, actAs: string, tokenNs: Namespace)

  datatype Access = Granted(ns: Namespace, role: Role) | Unauthorized | Forbidden

  function RoleRank(role: Role): nat {
    match role
    case Superadmin => 4
    case Admin => 3
    case ReadOnly => 2
    case Custom(_) => 1
  }

  // ORDER BY namespace.
  predicate Leq(a: string, b: string) {
    a == "" || (b != "" && (a[0] < b[0] || (a[0] == b[0] && Leq(a[1..], b[1..]))))
  }

  // Superadmin is above admin, admin above read-only, and that above every custom role.
  lemma RanksAbove(a: Role, b: Role)
    ensures RoleRank(a) > RoleRank(b) <==>
              match a
              case Superadmin => b != Superadmin
              case Admin => b.ReadOnly? || b.Custom?
              case ReadOnly => b.Custom?
              case Custom(_) => false
  {
  }

  // Where they part, at i, a ends or has the smaller character.
  lemma {:induction false} LeqWhereTheyPart(a: string, b: string) returns (i: nat)
    ensures i <= |a| && i <= |b| && forall k | 0 <= k < i :: a[k] == b[k]
    ensures i == |a| || i == |b| || a[i] != b[i]
    ensures Leq(a, b) <==> i == |a| || (i < |b| && a[i] < b[i])
  {
    i := 0;
    if a != "" && b != "" && a[0] == b[0] {
      i := LeqWhereTheyPart(a[1..], b[1..]);
      i := i + 1;
      assert forall k | 1 <= k < i :: a[k] == a[1..][k - 1] && b[k] == b[1..][k - 1];
    }
  }

  predicate Sorted(memberships: seq<Binding>) {
    forall i, j | 0 <= i < j < |memberships| :: Leq(memberships[i].ns, memberships[j].ns)
  }

  // ---- The highest-privilege membership ----

  function BestOf(memberships: seq<Binding>, ns: Namespace): Option<Binding> {
    if memberships == [] then None
    else
      var n := |memberships| - 1;
      var best, b := BestOf(memberships[..n], ns), memberships[n];
      if b.ns == ns && (best.None? || RoleRank(b.role) > RoleRank(best.value.role)) then Some(b) else best
  }

  // role is held in ns, and none held there outranks it.
  predicate Maximal(memberships: seq<Binding>, ns: Namespace, role: Role) {
    && (exists b <- memberships :: b.ns == ns && b.role == role)
    && (forall b <- memberships :: b.ns == ns ==> RoleRank(b.role) <= RoleRank(role))
  }

  lemma {:induction false} BestIsMaximal(memberships: seq<Binding>, ns: Namespace)
    ensures var best := BestOf(memberships, ns);
            && (best.None? <==> forall b <- memberships :: b.ns != ns)
            && (best.Some? ==>
                  best.value in memberships && best.value.ns == ns && Maximal(memberships, ns, best.value.role))
  {
    if memberships != [] {
      var n := |memberships| - 1;
      BestIsMaximal(memberships[..n], ns);
      assert memberships == memberships[..n] + [memberships[n]];
    }
  }

  method BestMembership(memberships: seq<Binding>, ns: Namespace) returns (best: Option<Binding>)
    ensures best == BestOf(memberships, ns)
  {
    best := None;
    for i := 0 to |memberships|
      invariant best == BestOf(memberships[..i], ns)
    {
      assert memberships[..i + 1][..i] == memberships[..i];
      var b := memberships[i];
      if b.ns == ns {
        if best.None? || RoleRank(b.role) > RoleRank(best.value.role) {
          best := Some(b);
        }
      }
    }
    assert memberships[..|memberships|] == memberships;
  }

  // ---- Resolution ----

  // A superadmin: a superadmin binding in the control plane's namespace.
  predicate IsSuperadmin(control: Namespace, memberships: seq<Binding>) {
    exists b <- memberships :: b.ns == control && b.role == Superadmin
  }

  // resolveLoginNamespace: an organization's name, or the namespace itself.
  function LoginNamespace(orgs: map<string, Namespace>, org: string): Namespace {
    if org in orgs then orgs[org] else org
  }

  // The namespace asked for, "" for none.
  function Selected(orgs: map<string, Namespace>, superadmin: bool, req: Request): Namespace {
    var org := Trim(req.organization);
    if org != "" then LoginNamespace(orgs, org)
    else if req.actAs != "" && superadmin then req.actAs
    else req.tokenNs
  }

  function Resolve(control: Namespace, orgs: map<string, Namespace>, memberships: seq<Binding>, req: Request): Access {
    var superadmin := IsSuperadmin(control, memberships);
    var selected := Selected(orgs, superadmin, req);
    if memberships == [] then Unauthorized
    else if superadmin then Granted(if selected != "" then selected else control, Superadmin)
    else
      match BestOf(memberships, if selected != "" then selected else memberships[0].ns)
      case Some(best) => Granted(best.ns, best.role)
      case None => Forbidden
  }

  method ResolveAccess(control: Namespace, orgs: map<string, Namespace>, memberships: seq<Binding>, req: Request)
    returns (r: Access)
    ensures r == Resolve(control, orgs, memberships, req)
  {
    if |memberships| == 0 {
      return Unauthorized;
    }
    var superadmin := false;
    for i := 0 to |memberships|
      invariant superadmin <==>
                  exists j :: 0 <= j < i && memberships[j].ns == control && memberships[j].role == Superadmin
    {
      if memberships[i].ns == control && memberships[i].role == Superadmin {
        superadmin := true;
      }
    }
    var selected := req.tokenNs;
    var org := Trim(req.organization);
    if org != "" {
      selected := LoginNamespace(orgs, org);
    } else if req.actAs != "" && superadmin {
      selected := req.actAs;
    }
    if selected != "" {
      if superadmin {
        return Granted(selected, Superadmin);
      }
      var best := BestMembership(memberships, selected);
      BestIsMaximal(memberships, selected);
      return if best.Some? then Granted(selected, best.value.role) else Forbidden;
    }
    if superadmin {
      return Granted(control, Superadmin);
    }
    var best := BestMembership(memberships, memberships[0].ns);
    BestIsMaximal(memberships, memberships[0].ns);
    return Granted(best.value.ns, best.value.role);
  }

  // What the role is: superadmin for one, and otherwise the highest held in the namespace resolved. A role is
  // refused to a member of nothing, and to one who asks for a namespace they have no membership in.
  lemma RoleIsTheHighestHeld(control: Namespace, orgs: map<string, Namespace>, memberships: seq<Binding>, req: Request)
    ensures var superadmin, r := IsSuperadmin(control, memberships), Resolve(control, orgs, memberships, req);
            var selected := Selected(orgs, superadmin, req);
            && (r.Unauthorized? <==> memberships == [])
            && (r.Forbidden? <==>
                  memberships != [] && !superadmin && selected != "" && forall b <- memberships :: b.ns != selected)
            && (r.Granted? && superadmin ==> r.role == Superadmin)
            && (r.Granted? && !superadmin ==> Maximal(memberships, r.ns, r.role))
            && (r.Granted? && selected != "" ==> r.ns == selected)
  {
    if memberships != [] {
      var selected := Selected(orgs, IsSuperadmin(control, memberships), req);
      BestIsMaximal(memberships, if selected != "" then selected else memberships[0].ns);
    }
  }

  // The answer to a member's request that picked namespace ns: a superadmin's, whoever else holds what there; anyone
  // else's highest role there, if they have any.
  predicate ActsIn(control: Namespace, memberships: seq<Binding>, ns: Namespace, r: Access) {
    if IsSuperadmin(control, memberships) then r == Granted(ns, Superadmin)
    else if forall b <- memberships :: b.ns != ns then r == Forbidden
    else r.Granted? && r.ns == ns && Maximal(memberships, ns, r.role)
  }

  // What the organization header names, the organization's namespace or the name itself where there is none.
  predicate Names(orgs: map<string, Namespace>, org: string, ns: Namespace) {
    if org in orgs then ns == orgs[org] else ns == org
  }

  // A header that is not blank picks the namespace, and then neither act-as nor the token's namespace matters.
  lemma HeaderDecides(control: Namespace, orgs: map<string, Namespace>, memberships: seq<Binding>, req: Request,
                      ns: Namespace)
    requires memberships != [] && !AllSpace(req.organization) && Names(orgs, Trim(req.organization), ns) && ns != ""
    ensures ActsIn(control, memberships, ns, Resolve(control, orgs, memberships, req))
    ensures forall actAs, tokenNs ::
              Resolve(control, orgs, memberships, req.(actAs := actAs, tokenNs := tokenNs))
              == Resolve(control, orgs, memberships, req)
  {
    TrimsToNothingIff(req.organization);
    BestIsMaximal(memberships, ns);
  }

  // Without one, act-as picks a superadmin's.
  lemma ActAsDecides(control: Namespace, orgs: map<string, Namespace>, memberships: seq<Binding>, req: Request)
    requires AllSpace(req.organization) && req.actAs != "" && IsSuperadmin(control, memberships)
    ensures Resolve(control, orgs, memberships, req) == Granted(req.actAs, Superadmin)
  {
    TrimsToNothingIff(req.organization);
  }

  // It never means anything for anyone else.
  lemma ActAsIsASuperadmins(control: Namespace, orgs: map<string, Namespace>, memberships: seq<Binding>, req: Request,
                            actAs: Namespace)
    requires !IsSuperadmin(control, memberships)
    ensures Resolve(control, orgs, memberships, req.(actAs := actAs)) == Resolve(control, orgs, memberships, req)
  {
  }

  // Otherwise the token's namespace does.
  lemma TokenDecides(control: Namespace, orgs: map<string, Namespace>, memberships: seq<Binding>, req: Request)
    requires memberships != [] && AllSpace(req.organization) && req.tokenNs != ""
    requires req.actAs == "" || !IsSuperadmin(control, memberships)
    ensures ActsIn(control, memberships, req.tokenNs, Resolve(control, orgs, memberships, req))
  {
    TrimsToNothingIff(req.organization);
    BestIsMaximal(memberships, req.tokenNs);
  }

  // With none of them it is a member's first organization by namespace, a superadmin's control plane.
  lemma DefaultNamespace(control: Namespace, orgs: map<string, Namespace>, memberships: seq<Binding>, req: Request)
    requires Sorted(memberships) && memberships != []
    requires AllSpace(req.organization) && req.tokenNs == "" && (req.actAs == "" || !IsSuperadmin(control, memberships))
    ensures var r := Resolve(control, orgs, memberships, req);
            && r.Granted? && ActsIn(control, memberships, r.ns, r)
            && (IsSuperadmin(control, memberships) ==> r.ns == control)
            && (!IsSuperadmin(control, memberships) ==>
                  (exists b <- memberships :: b.ns == r.ns) && forall b <- memberships :: Leq(r.ns, b.ns))
  {
    TrimsToNothingIff(req.organization);
    BestIsMaximal(memberships, memberships[0].ns);
    RoleIsTheHighestHeld(control, orgs, memberships, req);
    LeqRefl(memberships[0].ns);
  }

  lemma {:induction false} LeqRefl(a: string)
    ensures Leq(a, a)
  {
    if a != "" {
      LeqRefl(a[1..]);
    }
  }

  // The role granted is superadmin exactly for superadmins, unless a superadmin binding lives elsewhere: then also
  // for its holder, in that namespace.
  lemma SuperadminIff(control: Namespace, orgs: map<string, Namespace>, memberships: seq<Binding>, req: Request)
    requires Resolve(control, orgs, memberships, req).Granted?
    ensures var r := Resolve(control, orgs, memberships, req);
            r.role == Superadmin <==>
              IsSuperadmin(control, memberships) || exists b <- memberships :: b.ns == r.ns && b.role == Superadmin
    ensures (forall b <- memberships :: b.role == Superadmin ==> b.ns == control) ==>
              (Resolve(control, orgs, memberships, req).role == Superadmin <==> IsSuperadmin(control, memberships))
  {
    RoleIsTheHighestHeld(control, orgs, memberships, req);
  }

  // ---- RequireRole ----

  predicate RolePermitted(role: Role, allowed: seq<Role>) {
    role in allowed || (role == Superadmin && Admin in allowed)
  }

  method RequireRole(role: Role, allowed: seq<Role>) returns (ok: bool)
    ensures ok <==> role in allowed || (role == Superadmin && Admin in allowed)
  {
    for i := 0 to |allowed|
      invariant forall j :: 0 <= j < i ==> allowed[j] != role && (role == Superadmin ==> allowed[j] != Admin)
    {
      if role == allowed[i] {
        return true;
      }
      if allowed[i] == Admin && role == Superadmin {
        return true;
      }
    }
    return false;
  }
}
