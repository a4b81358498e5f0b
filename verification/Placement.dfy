/** Where organizations are placed, over every run. */
module Placement {
  import opened Wrappers
  import opened Runs
  import opened Organizations

  // What takes a migration of id away: its flip, its unlock, or the end of its process.
  predicate Ends(a: Action, id: OrgID) {
    (a.Unlock? || a.Flip? || a.Crash?) && a.id == id
  }

  // A name is the one it was, or one that no other organization has; a namespace is for good.
  lemma NameComesFrom(s: State, a: Action, o: OrgID)
    requires Enabled(s, a) && o in Apply(s, a).orgs
    ensures var org := Apply(s, a).orgs[o];
            || (o in s.orgs && org.name == s.orgs[o].name && org.ns == s.orgs[o].ns)
            || (a.Rename? && a.id == o && o in s.orgs && org.ns == s.orgs[o].ns
                && forall h <- s.orgs :: h != o ==> s.orgs[h].name != org.name)
            || (a.CreateOrganization? && a.id == o && org.ns == org.name
                && forall h <- s.orgs :: s.orgs[h].name != org.name && s.orgs[h].ns != org.ns)
  {
  }

  lemma StepKeepsNames(s: State, a: Action)
    requires Enabled(s, a) && Unique(s)
    ensures var o := Apply(s, a).orgs; forall a, b | a in o && b in o && o[a].name == o[b].name :: a == b
  {
    var o := Apply(s, a).orgs;
    forall x, y | x in o && y in o && o[x].name == o[y].name ensures x == y {
      NameComesFrom(s, a, x);
      NameComesFrom(s, a, y);
    }
  }

  lemma StepKeepsNamespaces(s: State, a: Action)
    requires Enabled(s, a) && Unique(s)
    ensures var o := Apply(s, a).orgs; forall a, b | a in o && b in o && o[a].ns == o[b].ns :: a == b
  {
    var o := Apply(s, a).orgs;
    forall x, y | x in o && y in o && o[x].ns == o[y].ns ensures x == y {
      NameComesFrom(s, a, x);
      NameComesFrom(s, a, y);
    }
  }

  lemma StepKeepsIDs(s: State, a: Action)
    requires Enabled(s, a) && Unique(s)
    ensures var t := Apply(s, a);
            t.orgs.Keys <= t.orgIDs && t.rows.Keys <= t.rowIDs && t.jobs.Keys <= t.orgIDs
  {
  }

  lemma StepKeepsUnique(s: State, a: Action)
    requires Enabled(s, a) && RowsInv(s)
    ensures Unique(Apply(s, a))
  {
    StepKeepsNames(s, a);
    StepKeepsNamespaces(s, a);
    StepKeepsIDs(s, a);
  }

  // Where an organization's row comes from.
  lemma OrgComesFrom(s: State, a: Action, o: OrgID)
    requires Enabled(s, a) && o in Apply(s, a).orgs
    ensures var org := Apply(s, a).orgs[o];
            || (o in s.orgs && org.cluster == s.orgs[o].cluster && org.ns == s.orgs[o].ns)
            || (a.CreateOrganization? && a.id == o && org.cluster == a.target && org.ns == a.name)
            || (a.Flip? && a.id == o && o in s.jobs && o in s.orgs && org.cluster == s.jobs[o].target
                && (org.cluster.Some? ==> org.cluster.value in s.rows) && org.ns == s.orgs[o].ns)
  {
  }

  // No step takes away the row of a cluster that an organization it leaves stands on.
  lemma RowStays(s: State, a: Action, o: OrgID, c: ClusterID)
    requires Enabled(s, a) && o in Apply(s, a).orgs && Apply(s, a).orgs[o].cluster == Some(c) && Unique(s)
    requires c in s.rows && (s.rows[c].owner.None? || s.rows[c].owner == Some(o))
    requires a.RemoveRow? ==> o in s.orgs && s.orgs[o].cluster == Some(c)
    ensures c in Apply(s, a).rows && Apply(s, a).rows[c] == s.rows[c]
  {
  }

  lemma StepKeepsPlacement(s: State, a: Action, o: OrgID)
    requires Enabled(s, a) && RowsInv(s) && o in Apply(s, a).orgs
    ensures Selectable(Apply(s, a), o, Apply(s, a).orgs[o].cluster)
  {
    OrgComesFrom(s, a, o);
    var cluster := Apply(s, a).orgs[o].cluster;
    if o in s.jobs {
      assert JobLocked(s, o);
    }
    if cluster.Some? {
      RowStays(s, a, o, cluster.value);
    }
  }

  lemma StepKeepsPlaced(s: State, a: Action)
    requires Enabled(s, a) && RowsInv(s)
    ensures Placed(Apply(s, a))
  {
    forall o <- Apply(s, a).orgs ensures Selectable(Apply(s, a), o, Apply(s, a).orgs[o].cluster) {
      StepKeepsPlacement(s, a, o);
    }
  }

  lemma JobComesFrom(s: State, a: Action, j: OrgID)
    requires Enabled(s, a) && j in Apply(s, a).jobs && !(a.Start? && a.id == j)
    ensures j in s.jobs && !Ends(a, j)
    ensures Apply(s, a).jobs[j].target == s.jobs[j].target && Apply(s, a).jobs[j].ns == s.jobs[j].ns
  {
  }

  lemma LockStays(s: State, a: Action, j: OrgID)
    requires Enabled(s, a) && j in s.orgIDs && !Ends(a, j) && j in Apply(s, a).orgs
    ensures j in s.orgs && Apply(s, a).orgs[j].ns == s.orgs[j].ns
    ensures s.orgs[j].migrating ==> Apply(s, a).orgs[j].migrating
  {
  }

  lemma RowsOnlyGo(s: State, a: Action, c: ClusterID)
    requires Enabled(s, a) && c in s.rowIDs
    ensures c in Apply(s, a).rowIDs && (c in Apply(s, a).rows ==> c in s.rows && Apply(s, a).rows[c] == s.rows[c])
  {
  }

  lemma StartLocks(s: State, id: OrgID, target: Option<ClusterID>)
    requires Enabled(s, Start(id, target)) && Unique(s)
    ensures id in Apply(s, Start(id, target)).jobs && JobLocked(Apply(s, Start(id, target)), id)
  {
  }

  lemma StepKeepsJobLocked(s: State, a: Action, j: OrgID)
    requires Enabled(s, a) && RowsInv(s) && j in Apply(s, a).jobs
    ensures JobLocked(Apply(s, a), j)
  {
    if a.Start? && a.id == j {
      StartLocks(s, j, a.target);
    } else {
      JobComesFrom(s, a, j);
      assert JobLocked(s, j);
      if j in Apply(s, a).orgs {
        LockStays(s, a, j);
      }
      if s.jobs[j].target.Some? {
        RowsOnlyGo(s, a, s.jobs[j].target.value);
      }
    }
  }

  lemma StepKeepsJobsLocked(s: State, a: Action)
    requires Enabled(s, a) && RowsInv(s)
    ensures JobsLocked(Apply(s, a))
  {
    forall j <- Apply(s, a).jobs ensures JobLocked(Apply(s, a), j) {
      StepKeepsJobLocked(s, a, j);
    }
  }

  lemma StepKeepsRows(s: State, a: Action)
    requires Enabled(s, a) && RowsInv(s)
    ensures RowsInv(Apply(s, a))
  {
    StepKeepsUnique(s, a);
    StepKeepsPlaced(s, a);
    StepKeepsJobsLocked(s, a);
  }

  lemma {:induction false} ReachableRows(s: State, acts: seq<Action>)
    requires Init(s) && Run(Step, s, acts).Some?
    ensures RowsInv(Run(Step, s, acts).value)
  {
    forall t, a | RowsInv(t) && Step(t, a).Some? ensures RowsInv(Step(t, a).value) {
      StepKeepsRows(t, a);
    }
    Invariant(Step, RowsInv, s, acts);
  }

  // In every reachable state an organization's cluster is a stored one, of the pool or its own.
  lemma {:induction false} PlacementIsStored(s: State, acts: seq<Action>, id: OrgID)
    requires Init(s) && Run(Step, s, acts).Some?
    requires id in Run(Step, s, acts).value.orgs
    ensures var t := Run(Step, s, acts).value;
            match t.orgs[id].cluster
            case Some(c) => c in t.rows && (t.rows[c].owner.None? || t.rows[c].owner == Some(id))
            case None => true
  {
    ReachableRows(s, acts);
    var t := Run(Step, s, acts).value;
    assert Selectable(t, id, t.orgs[id].cluster);
  }

  // ---- Names ----

  // Two names are the same but for the case of letters.
  lemma EqualFoldIff(a: string, b: string)
    ensures EqualFold(a, b) <==>
              |a| == |b| && forall i | 0 <= i < |a| ::
                var x, y := a[i] as int, b[i] as int;
                x == y || (65 <= x < 91 && y == x + 32) || (65 <= y < 91 && x == y + 32)
  {
    forall i | 0 <= i < |a| == |b|
      ensures Lower(a[i]) == Lower(b[i]) <==>
                var x, y := a[i] as int, b[i] as int;
                x == y || (65 <= x < 91 && y == x + 32) || (65 <= y < 91 && x == y + 32)
    {
    }
  }

  // No tenant bears the control plane's name, in whatever case, or none at all.
  predicate TenantsNamed(s: State) {
    forall o <- s.orgs :: s.orgs[o].ns != s.config.control ==>
      s.orgs[o].name != "" && !EqualFold(s.orgs[o].name, s.config.control)
  }

  // A cluster is the pool's, or of an organization there is, and no owner has two of one name.
  predicate RowsOwned(s: State) {
    && (forall c <- s.rows :: s.rows[c].owner.Some? ==> s.rows[c].owner.value in s.orgs)
    && (forall c, d | c in s.rows && d in s.rows && s.rows[c] == s.rows[d] :: c == d)
  }

  lemma StepKeepsTenantsNamed(s: State, a: Action)
    requires Enabled(s, a) && TenantsNamed(s)
    ensures TenantsNamed(Apply(s, a))
  {
    var t := Apply(s, a);
    forall o <- t.orgs | t.orgs[o].ns != t.config.control
      ensures t.orgs[o].name != "" && !EqualFold(t.orgs[o].name, t.config.control)
    {
      NamedAsAllowed(s, a, o);
    }
  }

  lemma NamedAsAllowed(s: State, a: Action, o: OrgID)
    requires Enabled(s, a) && o in Apply(s, a).orgs
    ensures var org := Apply(s, a).orgs[o];
            && Apply(s, a).config == s.config
            && ((org.name != "" && !EqualFold(org.name, s.config.control))
                || (o in s.orgs && s.orgs[o].ns == org.ns && s.orgs[o].name == org.name))
  {
  }

  lemma OwnerStays(s: State, a: Action, c: ClusterID)
    requires Enabled(s, a) && c in Apply(s, a).rows
    ensures var r := Apply(s, a).rows[c];
            || (c in s.rows && s.rows[c] == r && !(a.Sweep? && r.owner == Some(a.id)))
            || (a.RegisterRow? && a.cluster == c && (r.owner.Some? ==> r.owner.value in s.orgs)
                && forall d <- s.rows :: s.rows[d] != r)
  {
  }

  lemma OrgsStay(s: State, a: Action, o: OrgID)
    requires Enabled(s, a) && o in s.orgs && !(a.Sweep? && a.id == o)
    ensures o in Apply(s, a).orgs
  {
  }

  lemma StepKeepsRowsOwned(s: State, a: Action)
    requires Enabled(s, a) && RowsOwned(s)
    ensures RowsOwned(Apply(s, a))
  {
    var t := Apply(s, a);
    forall c <- t.rows | t.rows[c].owner.Some? ensures t.rows[c].owner.value in t.orgs {
      OwnerStays(s, a, c);
      OrgsStay(s, a, t.rows[c].owner.value);
    }
    forall c, d | c in t.rows && d in t.rows && t.rows[c] == t.rows[d] ensures c == d {
      OwnerStays(s, a, c);
      OwnerStays(s, a, d);
    }
  }

  // Over every run names stay apart: organizations by name and by namespace, each tenant's from the control plane's,
  // and the clusters of one owner by name; and every owner is there.
  lemma {:induction false} NamesStayApart(s: State, acts: seq<Action>)
    requires Init(s) && TenantsNamed(s) && RowsOwned(s) && Run(Step, s, acts).Some?
    ensures var t := Run(Step, s, acts).value;
            && (forall o, h | o in t.orgs && h in t.orgs && o != h ::
                  t.orgs[o].name != t.orgs[h].name && t.orgs[o].ns != t.orgs[h].ns)
            && (forall o <- t.orgs :: t.orgs[o].ns != t.config.control ==>
                  t.orgs[o].name != "" && !EqualFold(t.orgs[o].name, t.config.control))
            && (forall c <- t.rows :: t.rows[c].owner.Some? ==> t.rows[c].owner.value in t.orgs)
            && (forall c, d | c in t.rows && d in t.rows && t.rows[c].owner == t.rows[d].owner && c != d ::
                  t.rows[c].name != t.rows[d].name)
  {
    var inv := (t: State) => TenantsNamed(t) && RowsOwned(t);
    forall t, a | inv(t) && Step(t, a).Some? ensures inv(Step(t, a).value) {
      StepKeepsTenantsNamed(t, a);
      StepKeepsRowsOwned(t, a);
    }
    Invariant(Step, inv, s, acts);
    ReachableRows(s, acts);
  }

  // ---- RequireReconcilingCluster ----

  predicate TenantsOff(s: State) {
    s.config.requireCluster ==>
      && (forall o <- s.orgs :: s.orgs[o].ns != s.config.control ==> s.orgs[o].cluster.Some?)
      && (forall j <- s.jobs :: s.jobs[j].ns != s.config.control ==> s.jobs[j].target.Some?)
  }

  predicate TenantsOffInv(s: State) {
    RowsInv(s) && TenantsOff(s)
  }

  lemma StepKeepsConfig(s: State, a: Action)
    requires Enabled(s, a)
    ensures Apply(s, a).config == s.config
  {
  }

  lemma StepKeepsTenantsOff(s: State, a: Action)
    requires Enabled(s, a) && TenantsOffInv(s)
    ensures TenantsOff(Apply(s, a))
  {
    var t := Apply(s, a);
    StepKeepsConfig(s, a);
    forall o <- t.orgs | s.config.requireCluster && t.orgs[o].ns != s.config.control ensures t.orgs[o].cluster.Some? {
      OrgComesFrom(s, a, o);
      if o in s.jobs {
        assert JobLocked(s, o);
      }
    }
    forall j <- t.jobs | s.config.requireCluster && t.jobs[j].ns != s.config.control ensures t.jobs[j].target.Some? {
      if !(a.Start? && a.id == j) {
        JobComesFrom(s, a, j);
      }
    }
  }

  lemma {:induction false} ReachableTenantsOff(s: State, acts: seq<Action>)
    requires TenantsOffInv(s) && Run(Step, s, acts).Some?
    ensures TenantsOffInv(Run(Step, s, acts).value)
  {
    forall t, a | TenantsOffInv(t) && Step(t, a).Some? ensures TenantsOffInv(Step(t, a).value) {
      StepKeepsRows(t, a);
      StepKeepsTenantsOff(t, a);
    }
    Invariant(Step, TenantsOffInv, s, acts);
  }

  lemma {:induction false} ConfigIsFixed(s: State, acts: seq<Action>)
    requires Run(Step, s, acts).Some?
    ensures Run(Step, s, acts).value.config == s.config
  {
    if acts != [] {
      ConfigIsFixed(s, acts[..|acts| - 1]);
      StepKeepsConfig(Run(Step, s, acts[..|acts| - 1]).value, acts[|acts| - 1]);
    }
  }

  // With the flag on, if no tenant starts on the home cluster, none is ever placed there.
  lemma {:induction false} NoTenantOnHome(s: State, acts: seq<Action>, id: OrgID)
    requires Init(s) && Run(Step, s, acts).Some? && s.config.requireCluster
    requires forall o <- s.orgs :: s.orgs[o].ns != s.config.control ==> s.orgs[o].cluster.Some?
    requires id in Run(Step, s, acts).value.orgs
    ensures var t := Run(Step, s, acts).value;
            t.orgs[id].ns != s.config.control ==> t.orgs[id].cluster.Some?
  {
    ReachableTenantsOff(s, acts);
    ConfigIsFixed(s, acts);
  }

  // ---- A lock nobody will clear ----

  // Locked with no migration under way: what a migration that did not get to its end leaves.
  predicate Stuck(s: State, id: OrgID) {
    id in s.orgIDs && id !in s.jobs && (id in s.orgs ==> s.orgs[id].migrating)
  }

  // Once that happens the organization stays locked for as long as it exists: no retry is let through.
  lemma {:induction false} StuckForever(s: State, acts: seq<Action>, more: seq<Action>, id: OrgID)
    requires Init(s) && Run(Step, s, acts).Some? && Stuck(Run(Step, s, acts).value, id)
    requires Run(Step, s, acts + more).Some?
    ensures Stuck(Run(Step, s, acts + more).value, id)
    ensures forall target :: !Enabled(Run(Step, s, acts + more).value, Start(id, target))
  {
    var t := Run(Step, s, acts).value;
    ReachableRows(s, acts);
    Continued(Step, s, acts, more);
    var inv := (u: State) => RowsInv(u) && Stuck(u, id);
    forall u, a | inv(u) && Step(u, a).Some? ensures inv(Step(u, a).value) {
      StepKeepsRows(u, a);
    }
    Invariant(Step, inv, t, more);
  }

  // The end of a migration that does not clear its lock: the process dies, the write that should have ended it fails,
  // or the target's row was removed meanwhile.
  predicate LeavesLock(s: State, a: Action)
    requires (a.Flip? || a.Unlock? || a.Crash?) && a.id in s.jobs
  {
    || a.Crash? || a.fault
    || (a.Flip? && s.jobs[a.id].target.Some? && s.jobs[a.id].target.value !in s.rows)
  }

  // A migration ends stuck exactly so.
  lemma EndsStuckIff(s: State, a: Action, id: OrgID)
    requires Ends(a, id) && Enabled(s, a) && RowsInv(s) && id in s.orgs
    ensures Stuck(Apply(s, a), id) <==> LeavesLock(s, a)
  {
  }

  // So a migration whose process dies or whose last write fails, and only such a one, leaves the organization locked
  // for good, though the response to a failed flip says to retry the same request.
  lemma {:induction false} FailedEndLocksForever(s: State, acts: seq<Action>, a: Action, id: OrgID, more: seq<Action>)
    requires Init(s) && Run(Step, s, acts + [a]).Some? && Run(Step, s, acts + [a] + more).Some?
    requires Run(Step, s, acts).Some? && Ends(a, id) && id in Run(Step, s, acts).value.orgs
    ensures id in Run(Step, s, acts).value.jobs
    ensures var u, v := Run(Step, s, acts + [a]).value, Run(Step, s, acts + [a] + more).value;
            var left := LeavesLock(Run(Step, s, acts).value, a);
            && (Stuck(u, id) <==> left)
            && (left ==> Stuck(v, id) && forall target :: !Enabled(v, Start(id, target)))
  {
    ReachableRows(s, acts);
    Then(Step, s, acts, a);
    var t := Run(Step, s, acts).value;
    EndsStuckIff(t, a, id);
    if Stuck(Apply(t, a), id) {
      StuckForever(s, acts + [a], more, id);
    }
  }

  // ---- Routing and renames ----

  // Names are unique, so a name leads to the one organization that bears it.
  lemma NamedIsTheBearer(s: State, id: OrgID)
    requires Unique(s) && id in s.orgs
    ensures Named(s, s.orgs[id].name) == Some(id)
  {
  }

  ghost predicate NobodyNamed(s: State, name: string) {
    forall h <- s.orgs :: s.orgs[h].name != name
  }

  // Requests for an organization's namespace reach its placement exactly when it bears its namespace as its name, when
  // one that does stands on the same cluster, or when none does and it is on the home cluster.
  lemma {:induction false} RoutedToPlacementIff(s: State, acts: seq<Action>, id: OrgID)
    requires Init(s) && Run(Step, s, acts).Some? && id in Run(Step, s, acts).value.orgs
    ensures var t := Run(Step, s, acts).value;
            var o := t.orgs[id];
            Route(t, o.ns) == Place(o.cluster)
            <==> || o.name == o.ns
                 || (exists h <- t.orgs :: t.orgs[h].name == o.ns && t.orgs[h].cluster == o.cluster)
                 || (NobodyNamed(t, o.ns) && o.cluster.None?)
  {
    ReachableRows(s, acts);
    var t := Run(Step, s, acts).value;
    forall h <- t.orgs ensures Named(t, t.orgs[h].name) == Some(h) {
      NamedIsTheBearer(t, h);
    }
  }

  // The migration lock holds a tenant's request back exactly when its look-up succeeds and the organization that bears
  // the namespace as its name, if any, is locked: another's lock does, its own does not once it has been renamed, and
  // no lock does when the look-up fails.
  lemma {:induction false} LockRefusesIff(s: State, acts: seq<Action>, id: OrgID, key: Key, content: Option<Object>,
                                          fault: bool)
    requires Init(s) && Run(Step, s, acts).Some? && id in Run(Step, s, acts).value.orgs
    requires var t := Run(Step, s, acts).value;
             t.orgs[id].ns == key.ns && key.ns != t.config.control && Available(t, Route(t, key.ns))
    ensures var t := Run(Step, s, acts).value;
            !Enabled(t, Request(key, content, fault))
            <==> !fault && exists h <- t.orgs :: t.orgs[h].name == key.ns && t.orgs[h].migrating
  {
    ReachableRows(s, acts);
    var t := Run(Step, s, acts).value;
    forall h <- t.orgs ensures Named(t, t.orgs[h].name) == Some(h) {
      NamedIsTheBearer(t, h);
    }
  }

  lemma WriteFollowsTheName(s: State, id: OrgID, key: Key, content: Object)
    requires Unique(s) && id in s.orgs && s.orgs[id].name == key.ns && !s.orgs[id].migrating
    requires Available(s, Place(s.orgs[id].cluster))
    ensures Enabled(s, Request(key, Some(content), false))
    ensures var t := Apply(s, Request(key, Some(content), false));
            t == s.(objects := s.objects[At(Place(s.orgs[id].cluster), key) := content])
  {
    NamedIsTheBearer(s, id);
  }

  predicate Renamable(s: State, id: OrgID) {
    id in s.orgs && !s.orgs[id].pendingDeletion && !s.orgs[id].migrating
  }

  predicate TenantName(s: State, name: string) {
    name != "" && !EqualFold(name, s.config.control)
  }

  lemma Renames(s: State, id: OrgID, name: string)
    requires Unique(s) && Renamable(s, id) && TenantName(s, name) && NobodyNamed(s, name)
    ensures Run(Step, s, [Rename(id, name)]) == Some(s.(orgs := s.orgs[id := s.orgs[id].(name := name)]))
    ensures Unique(s.(orgs := s.orgs[id := s.orgs[id].(name := name)]))
  {
    Then(Step, s, [], Rename(id, name));
    assert [] + [Rename(id, name)] == [Rename(id, name)];
  }

  // A tenant renamed away and another renamed onto its namespace: from any state, the first one's writes then land on
  // the cluster of the second, be it the second one's own.
  lemma TakenNamespace(s: State, a: OrgID, b: OrgID, free: string, key: Key, content: Object)
    returns (acts: seq<Action>)
    requires Init(s) && a != b && Renamable(s, a) && Renamable(s, b) && TenantName(s, free) && NobodyNamed(s, free)
    requires s.orgs[a].name == s.orgs[a].ns == key.ns && TenantName(s, key.ns) && s.orgs[b].cluster.Some?
    ensures Run(Step, s, acts).Some?
    ensures var t := Run(Step, s, acts).value;
            && a in t.orgs && t.orgs[a].ns == key.ns && t.orgs[a].cluster == s.orgs[a].cluster
            && Get(t.objects, At(On(s.orgs[b].cluster.value), key)) == Some(content)
  {
    Renames(s, a, free);
    var t := s.(orgs := s.orgs[a := s.orgs[a].(name := free)]);
    assert NobodyNamed(t, key.ns);
    Renames(t, b, key.ns);
    var u := t.(orgs := t.orgs[b := t.orgs[b].(name := key.ns)]);
    acts := [Rename(a, free)] + [Rename(b, key.ns)];
    Continued(Step, s, [Rename(a, free)], [Rename(b, key.ns)]);
    assert Selectable(s, b, s.orgs[b].cluster);
    WriteFollowsTheName(u, b, key, content);
    var request := Request(key, Some(content), false);
    Then(Step, s, acts, request);
    acts := acts + [request];
  }

  // A rename is enough to send a tenant's writes to the home cluster, with the flag on and a placement set.
  lemma {:induction false} RenamedTenantWritesHome() returns (s: State, acts: seq<Action>)
    ensures Init(s) && Run(Step, s, acts).Some? && s.config.requireCluster
    ensures s.objects == map[] && forall o <- s.orgs :: s.orgs[o].ns == "acme" && s.orgs[o].cluster.Some?
    ensures exists at <- Run(Step, s, acts).value.objects :: at.location == Home && at.key.ns == "acme"
  {
    s := State(Config("hyve-system", true, true), map["o" := Organization("acme", "acme", Some("c"), false, false)],
               map["c" := Row("c", None)], map[], map[], {"o"}, {"c"});
    var key := Key("acme", Template, "web");
    Then(Step, s, [], Rename("o", "apex"));
    var t := Apply(s, Rename("o", "apex"));
    assert Named(t, "acme") == None;
    acts := [] + [Rename("o", "apex")];
    Then(Step, s, acts, Request(key, Some(Object("spec", map[], false, false)), false));
    acts := acts + [Request(key, Some(Object("spec", map[], false, false)), false)];
    assert At(Home, key) in Run(Step, s, acts).value.objects;
  }
}
