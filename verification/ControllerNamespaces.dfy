/**
Which namespaces each controller process reconciles, and how it notices that they changed
(cmd/controller/setup_namespace.go).
 */
module ControllerNamespaces {
  import opened Wrappers

  type Namespace = string

  // An organizations row: its namespace and reconciling_cluster_id.
  datatype Organization = Organization(ns: Namespace, cluster: Option<string>)

  // A controller's flags: one reconciling cluster's, the home cluster's, or a single-tenant install's.
  datatype Controller = ForCluster(id: string) | WatchHome | Single

  // ListOrganizationsByReconcilingCluster.
  function OnCluster(orgs: seq<Organization>, cluster: Option<string>): seq<Organization> {
    if orgs == [] then []
    else if orgs[0].cluster == cluster then [orgs[0]] + OnCluster(orgs[1..], cluster)
    else OnCluster(orgs[1..], cluster)
  }

  predicate UniqueNamespaces(orgs: seq<Organization>) {
    forall i, j | 0 <= i < j < |orgs| :: orgs[i].ns != orgs[j].ns
  }

  predicate Distinct(s: seq<Namespace>) {
    forall i, j | 0 <= i < j < |s| :: s[i] != s[j]
  }

  // The namespaces a controller is for.
  ghost predicate IsTarget(orgs: seq<Organization>, control: Namespace, c: Controller, ns: Namespace) {
    match c
    case ForCluster(id) => exists org <- orgs :: org.cluster == Some(id) && org.ns == ns
    case WatchHome => ns == control || exists org <- orgs :: org.cluster == None && org.ns == ns
    case Single => ns == control
  }

  lemma {:induction false} OnClusterContents(orgs: seq<Organization>, cluster: Option<string>)
    ensures forall org :: org in OnCluster(orgs, cluster) <==> org in orgs && org.cluster == cluster
    ensures UniqueNamespaces(orgs) ==> UniqueNamespaces(OnCluster(orgs, cluster))
  {
    if orgs != [] {
      OnClusterContents(orgs[1..], cluster);
      assert orgs == [orgs[0]] + orgs[1..];
      assert UniqueNamespaces(orgs) ==> forall org <- orgs[1..] :: org.ns != orgs[0].ns;
    }
  }

  method ResolveTargetNamespaces(orgs: seq<Organization>, control: Namespace, c: Controller)
    returns (targets: seq<Namespace>)
    requires UniqueNamespaces(orgs)
    ensures forall ns :: ns in targets <==> IsTarget(orgs, control, c, ns)
    ensures Distinct(targets)
    ensures c.WatchHome? || c.Single? ==> |targets| > 0 && targets[0] == control
  {
    if c.Single? {
      return [control];
    }
    var id := if c.ForCluster? then Some(c.id) else None;
    var rows := OnCluster(orgs, id);
    OnClusterContents(orgs, id);
    targets := [];
    if id.None? {
      targets := targets + [control];
    }
    for i := 0 to |rows|
      invariant Distinct(targets)
      invariant id.None? ==> |targets| > 0 && targets[0] == control
      invariant forall ns :: ns in targets <==>
                  (id.None? && ns == control) || exists k :: 0 <= k < i && rows[k].ns == ns
    {
      if id.None? && rows[i].ns == control {
        continue;
      }
      assert rows[i].ns !in targets;
      targets := targets + [rows[i].ns];
    }
  }

  // One of a multi-tenant install's controllers targets the namespace.
  ghost predicate TargetedBy(orgs: seq<Organization>, control: Namespace, c: Controller, ns: Namespace) {
    !c.Single? && IsTarget(orgs, control, c, ns)
  }

  // The home controller and one controller a cluster target exactly the organizations' namespaces and the control
  // plane's between them; and none twice, except the control plane's own once its organization is placed on a cluster.
  lemma TargetedOnceIff(orgs: seq<Organization>, control: Namespace, ns: Namespace)
    requires UniqueNamespaces(orgs)
    ensures (exists c :: TargetedBy(orgs, control, c, ns)) <==> ns == control || exists org <- orgs :: org.ns == ns
    ensures (exists c, d | c != d :: TargetedBy(orgs, control, c, ns) && TargetedBy(orgs, control, d, ns))
            <==> ns == control && exists org <- orgs :: org.ns == control && org.cluster.Some?
  {
    if org :| org in orgs && org.ns == ns {
      assert TargetedBy(orgs, control, if org.cluster.Some? then ForCluster(org.cluster.value) else WatchHome, ns);
    }
    if ns == control {
      assert TargetedBy(orgs, control, WatchHome, ns);
    }
    if c, d :| c != d && TargetedBy(orgs, control, c, ns) && TargetedBy(orgs, control, d, ns) {
      TwiceOnlyControl(orgs, control, c, d, ns);
    }
    if org :| org in orgs && org.ns == control && org.cluster.Some? && ns == control {
      assert TargetedBy(orgs, control, ForCluster(org.cluster.value), ns);
    }
  }

  lemma OnlyTarget(orgs: seq<Organization>, control: Namespace, c: Controller, org: Organization)
    requires UniqueNamespaces(orgs) && org in orgs && org.ns != control && TargetedBy(orgs, control, c, org.ns)
    ensures c == if org.cluster.Some? then ForCluster(org.cluster.value) else WatchHome
  {
  }

  lemma TwiceOnlyControl(orgs: seq<Organization>, control: Namespace, c: Controller, d: Controller, ns: Namespace)
    requires UniqueNamespaces(orgs) && c != d && TargetedBy(orgs, control, c, ns) && TargetedBy(orgs, control, d, ns)
    ensures ns == control && exists org <- orgs :: org.ns == control && org.cluster.Some?
  {
    forall org <- orgs | org.ns == ns ensures ns == control {
      if ns != control {
        OnlyTarget(orgs, control, c, org);
        OnlyTarget(orgs, control, d, org);
      }
    }
    if c.ForCluster? {
      assert exists org <- orgs :: org.cluster == Some(c.id) && org.ns == ns;
    } else {
      assert exists org <- orgs :: org.cluster == Some(d.id) && org.ns == ns;
    }
  }

  // ---- The watch ----

  // What one re-check finds against the namespaces started with.
  predicate Differs(current: seq<Namespace>, got: seq<Namespace>) {
    |got| != |Set(current)| || exists ns <- got :: ns !in current
  }

  function Set(s: seq<Namespace>): set<Namespace> {
    set ns | ns in s
  }

  // polls are the successive answers of resolve until the context ends, None where the lookup failed. The answer is
  // the poll a change was reported at.
  method WatchTargetNamespaces(current: seq<Namespace>, polls: seq<Option<seq<Namespace>>>)
    returns (changed: Option<nat>)
    ensures changed.Some? ==> changed.value < |polls| && polls[changed.value].Some?
                              && Differs(current, polls[changed.value].value)
    ensures forall i | 0 <= i < (if changed.Some? then changed.value else |polls|) ::
              polls[i].Some? ==> !Differs(current, polls[i].value)
  {
    var want: set<Namespace> := {};
    for i := 0 to |current|
      invariant want == Set(current[..i])
    {
      assert current[..i + 1] == current[..i] + [current[i]];
      want := want + {current[i]};
    }
    assert current[..|current|] == current;
    for i := 0 to |polls|
      invariant forall j :: 0 <= j < i && polls[j].Some? ==> !Differs(current, polls[j].value)
    {
      if polls[i].None? {
        continue;
      }
      var got := polls[i].value;
      if |got| != |want| {
        return Some(i);
      }
      for j := 0 to |got|
        invariant forall k :: 0 <= k < j ==> got[k] in current
      {
        if got[j] !in want {
          return Some(i);
        }
      }
    }
    return None;
  }

  lemma {:induction false} DistinctSize(s: seq<Namespace>)
    requires Distinct(s)
    ensures |Set(s)| == |s|
  {
    if s == [] {
      assert Set(s) == {};
    } else {
      var n := |s| - 1;
      DistinctSize(s[..n]);
      assert Set(s) == Set(s[..n]) + {s[n]};
      assert s[n] !in s[..n];
    }
  }

  // A change is reported exactly when the two sets differ, for an answer without duplicates, which
  // resolveTargetNamespaces always gives. One with duplicates hides a change exactly when they pad a smaller set to the
  // length expected, and shows one where there is none exactly when it lists the same namespaces more than once.
  lemma DiffersIffSetsDiffer(current: seq<Namespace>, got: seq<Namespace>)
    ensures Distinct(got) ==> (Differs(current, got) <==> Set(got) != Set(current))
    ensures !Differs(current, got) && Set(got) != Set(current) <==> Set(got) < Set(current) && |got| == |Set(current)|
    ensures Differs(current, got) && Set(got) == Set(current) <==> Set(got) == Set(current) && |got| != |Set(got)|
  {
    forall ns <- got ensures ns in Set(got) && (ns in current <==> ns in Set(current)) {
    }
    assert (exists ns <- got :: ns !in current) <==> !(Set(got) <= Set(current));
    if Distinct(got) {
      DistinctSize(got);
      if !Differs(current, got) {
        SameSize(Set(got), Set(current));
      }
    }
  }

  lemma SameSize(a: set<Namespace>, b: set<Namespace>)
    requires a <= b && |a| == |b|
    ensures a == b
  {
    if x :| x in b && x !in a {
      assert a <= b - {x};
      SubsetSize(a, b - {x});
    }
  }
}
