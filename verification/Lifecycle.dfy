/**
An organization from its creation to the sweep of its row (internal/api/organizations.go): who touches its objects, that
its deletion can always complete, and when that leaves objects behind.
 */
module Lifecycle {
  import opened Wrappers
  import opened Runs
  import opened Organizations
  import opened Placement

  // ---- Creation ----

  // A new organization is unlocked, and requests for its namespace, which nothing else was called, go where it is
  // placed; no other namespace's go elsewhere than before, and no object changes.
  lemma CreatedIsRouted(s: State, id: OrgID, name: string, target: Option<ClusterID>)
    requires RowsInv(s) && Step(s, CreateOrganization(id, name, target)).Some?
    ensures var t := Step(s, CreateOrganization(id, name, target)).value;
            && id in t.orgs && t.orgs[id] == Organization(name, name, target, false, false)
            && Route(t, name) == Place(target) && !Refused(t, name)
            && (forall ns: Namespace :: ns != name ==> Route(t, ns) == Route(s, ns))
            && (forall o <- s.orgs :: o in t.orgs && t.orgs[o] == s.orgs[o] && s.orgs[o].ns != name)
            && t.objects == s.objects && t.rows == s.rows && t.jobs == s.jobs
  {
    var t := Apply(s, CreateOrganization(id, name, target));
    StepKeepsUnique(s, CreateOrganization(id, name, target));
    NamedIsTheBearer(t, id);
    forall ns: Namespace | ns != name ensures Route(t, ns) == Route(s, ns) {
      if o :| o in s.orgs && s.orgs[o].name == ns {
        NamedIsTheBearer(s, o);
        NamedIsTheBearer(t, o);
      } else {
        assert NobodyNamed(t, ns);
      }
    }
  }

  // ---- The control plane ----

  predicate ControlThere(s: State, id: OrgID) {
    id in s.orgs && s.orgs[id].ns == s.config.control && !s.orgs[id].pendingDeletion
  }

  lemma StepKeepsControl(s: State, a: Action, id: OrgID)
    requires Enabled(s, a) && ControlThere(s, id) && id in s.orgIDs
    ensures ControlThere(Apply(s, a), id) && id in Apply(s, a).orgIDs
  {
  }

  // No run takes the control plane's own organization away, or marks it for deletion.
  lemma {:induction false} ControlPlaneStays(s: State, acts: seq<Action>, id: OrgID)
    requires Init(s) && ControlThere(s, id) && Run(Step, s, acts).Some?
    ensures var t := Run(Step, s, acts).value;
            id in t.orgs && t.orgs[id].ns == t.config.control && !t.orgs[id].pendingDeletion
  {
    var inv := (t: State) => ControlThere(t, id) && id in t.orgIDs;
    forall t, a | inv(t) && Step(t, a).Some? ensures inv(Step(t, a).value) {
      StepKeepsControl(t, a, id);
    }
    Invariant(Step, inv, s, acts);
  }

  // ---- Who touches an object ----

  // An object goes only by a request that is not held back, with its organization's namespace while that is being
  // deleted, or as a cluster whose deletion a controller has finished.
  lemma ObjectGoesBy(s: State, a: Action, at: At)
    requires Step(s, a).Some? && at in s.objects && at !in Step(s, a).value.objects
    ensures || (a.Request? && a.key == at.key && a.content.None? && at.location == Route(s, at.key.ns)
                && (a.fault || !Refused(s, at.key.ns)))
            || (a.Terminate? && a.at == at
                && exists o <- s.orgs :: s.orgs[o].ns == at.key.ns && s.orgs[o].pendingDeletion)
            || (a.Reap? && a.at == at && at.key.kind.ClusterDefinition? && s.objects[at].deleting)
  {
  }

  // It changes, or comes, only by such a request or a migration of its namespace to there; or a controller marks it.
  lemma ObjectChangesBy(s: State, a: Action, at: At)
    requires JobsLocked(s) && Step(s, a).Some? && at in Step(s, a).value.objects
    requires Get(s.objects, at) != Get(Step(s, a).value.objects, at)
    ensures || (a.Request? && a.key == at.key && a.content == Some(Step(s, a).value.objects[at])
                && at.location == Route(s, at.key.ns) && (a.fault || !Refused(s, at.key.ns)))
            || (a.CopyNext? && a.key == at.key && a.id in s.jobs && at.location == Place(s.jobs[a.id].target)
                && (at in s.objects ==>
                      Step(s, a).value.objects[at] == s.objects[at].(labels := Step(s, a).value.objects[at].labels)))
            || (a.Mark? && a.at == at && at.key.kind.ClusterDefinition? && at in s.objects
                && Step(s, a).value.objects[at] == s.objects[at].(deleting := true))
  {
  }

  // ---- Deletion ----

  // The row of an organization can be swept exactly when it is marked and nothing of its namespace is left where
  // requests for it go; with it go the rows of its own clusters, and nothing else.
  lemma SweepsIff(s: State, id: OrgID)
    requires RowsOwned(s)
    ensures Step(s, Sweep(id)).Some? <==>
              && id in s.orgs && s.orgs[id].pendingDeletion
              && forall at <- s.objects :: at.key.ns == s.orgs[id].ns ==> at.location != Route(s, s.orgs[id].ns)
    ensures Step(s, Sweep(id)).Some? ==>
              var t := Step(s, Sweep(id)).value;
              && t.orgs == s.orgs - {id} && t.objects == s.objects && t.jobs == s.jobs
              && (forall c :: Get(t.rows, c) == if c in s.rows && s.rows[c].owner == Some(id) then None
                                                else Get(s.rows, c))
  {
    assert forall o :: o in s.orgs - {id} <==> o in s.orgs && o != id;
  }

  lemma SameRoute(s: State, t: State, ns: Namespace)
    requires Unique(s) && Unique(t) && t.orgs.Keys == s.orgs.Keys
    requires forall o <- s.orgs :: t.orgs[o].name == s.orgs[o].name && t.orgs[o].cluster == s.orgs[o].cluster
    ensures Route(t, ns) == Route(s, ns)
  {
    if o :| o in s.orgs && s.orgs[o].name == ns {
      NamedIsTheBearer(s, o);
      NamedIsTheBearer(t, o);
    } else {
      assert NobodyNamed(s, ns) && NobodyNamed(t, ns);
    }
  }

  // The namespace's deletion at one place takes its objects there one by one.
  lemma TerminateStep(s: State, id: OrgID, at: At)
    requires id in s.orgs && s.orgs[id].pendingDeletion && at in s.objects && at.key.ns == s.orgs[id].ns
    ensures Run(Step, s, [Terminate(at)]) == Some(s.(objects := s.objects - {at}))
  {
    Then(Step, s, [], Terminate(at));
    assert [] + [Terminate(at)] == [Terminate(at)];
  }

  lemma OneByOne(objects: map<At, Object>, at: At, left: set<At>)
    requires at in left
    ensures objects - {at} - (left - {at}) == objects - left
  {
  }

  lemma {:induction false} Emptied(s: State, id: OrgID, left: set<At>) returns (acts: seq<Action>)
    requires id in s.orgs && s.orgs[id].pendingDeletion
    requires forall at <- left :: at in s.objects && at.key.ns == s.orgs[id].ns
    ensures Run(Step, s, acts) == Some(s.(objects := s.objects - left))
    decreases |left|
  {
    if left == {} {
      assert s.objects - left == s.objects;
      acts := [];
    } else {
      var at :| at in left;
      TerminateStep(s, id, at);
      var t := s.(objects := s.objects - {at});
      var more := Emptied(t, id, left - {at});
      Continued(Step, s, [Terminate(at)], more);
      OneByOne(s.objects, at, left);
      acts := [Terminate(at)] + more;
    }
  }

  // What there is of a namespace at one place.
  function LeftAt(objects: map<At, Object>, l: Location, ns: Namespace): set<At> {
    set at | at in objects && at.location == l && at.key.ns == ns
  }

  lemma MarkStep(s: State, id: OrgID)
    requires id in s.orgs && s.orgs[id].ns != s.config.control
    ensures Run(Step, s, [MarkDeletion(id)]) == Some(s.(orgs := s.orgs[id := s.orgs[id].(pendingDeletion := true)]))
  {
    Then(Step, s, [], MarkDeletion(id));
    assert [] + [MarkDeletion(id)] == [MarkDeletion(id)];
  }

  lemma SweepStep(s: State, id: OrgID)
    requires id in s.orgs && s.orgs[id].pendingDeletion
    requires forall at <- s.objects :: at.key.ns == s.orgs[id].ns ==> at.location != Route(s, s.orgs[id].ns)
    ensures Run(Step, s, [Sweep(id)]).Some?
    ensures Run(Step, s, [Sweep(id)]).value.orgs == s.orgs - {id}
    ensures Run(Step, s, [Sweep(id)]).value.objects == s.objects
  {
    Then(Step, s, [], Sweep(id));
    assert [] + [Sweep(id)] == [Sweep(id)];
  }

  // The deletion of any tenant can complete, from every state the rows can be in: its row goes, and with it exactly the
  // objects of its namespace that are where requests for it go.
  lemma DeletionCanComplete(s: State, id: OrgID) returns (acts: seq<Action>)
    requires RowsInv(s) && id in s.orgs && s.orgs[id].ns != s.config.control
    ensures Run(Step, s, acts).Some?
    ensures var t := Run(Step, s, acts).value;
            && t.orgs == s.orgs - {id}
            && t.objects == s.objects - LeftAt(s.objects, Route(s, s.orgs[id].ns), s.orgs[id].ns)
  {
    var ns := s.orgs[id].ns;
    MarkStep(s, id);
    var marked := s.(orgs := s.orgs[id := s.orgs[id].(pendingDeletion := true)]);
    var left := LeftAt(s.objects, Route(s, ns), ns);
    var more := Emptied(marked, id, left);
    Continued(Step, s, [MarkDeletion(id)], more);
    var t := marked.(objects := s.objects - left);
    SameRoute(s, t, ns);
    SweepStep(t, id);
    Continued(Step, s, [MarkDeletion(id)] + more, [Sweep(id)]);
    acts := [MarkDeletion(id)] + more + [Sweep(id)];
    assert t.orgs - {id} == s.orgs - {id};
  }

  lemma DeletionLeaves(t: State, id: OrgID, at: At) returns (more: seq<Action>)
    requires RowsInv(t) && id in t.orgs && t.orgs[id].ns != t.config.control
    requires at in t.objects && at.key.ns == t.orgs[id].ns
    ensures at.location == Route(t, t.orgs[id].ns) ==> Step(t, Sweep(id)).None?
    ensures Run(Step, t, more).Some? && id !in Run(Step, t, more).value.orgs
    ensures at.location != Route(t, t.orgs[id].ns) ==>
              Get(Run(Step, t, more).value.objects, at) == Some(t.objects[at])
  {
    more := DeletionCanComplete(t, id);
  }

  // Documented to wait until the namespace is gone from the cluster, it does for an organization whose requests reach
  // its placement; for any other, a deletion can complete with its objects still there.
  lemma {:induction false} DeletionLeavesIff(s: State, acts: seq<Action>, id: OrgID, at: At)
    returns (more: seq<Action>)
    requires Init(s) && Run(Step, s, acts).Some? && id in Run(Step, s, acts).value.orgs
    requires var t := Run(Step, s, acts).value;
             && t.orgs[id].ns != t.config.control && at in t.objects
             && at.key.ns == t.orgs[id].ns && at.location == Place(t.orgs[id].cluster)
    ensures var t := Run(Step, s, acts).value;
            if t.orgs[id].name == t.orgs[id].ns
               || (exists h <- t.orgs :: t.orgs[h].name == t.orgs[id].ns && t.orgs[h].cluster == t.orgs[id].cluster)
               || (NobodyNamed(t, t.orgs[id].ns) && t.orgs[id].cluster.None?)
            then Step(t, Sweep(id)).None?
            else Run(Step, t, more).Some? && id !in Run(Step, t, more).value.orgs
                 && Get(Run(Step, t, more).value.objects, at) == Some(t.objects[at])
  {
    var t := Run(Step, s, acts).value;
    ReachableRows(s, acts);
    RoutedToPlacementIff(s, acts, id);
    more := DeletionLeaves(t, id, at);
  }
}
