/**
An organization's own handling of its reconciling clusters (internal/api/orgreconcilingclusters.go), and the core of a
switch, migrateOrganizationToTarget with its copy (internal/api/organizations.go, internal/migrate/migrate.go), as one
request runs them, with whatever can fail in it. Each is a run of the steps of module Organizations, alone; what is
proved there over every run holds of it and of whatever comes after.
 */
module OrgClusters {
  import opened Wrappers
  import opened Runs
  import opened Organizations
  import opened Placement
  import opened Migration

  type Kubeconfig = string

  datatype Status = BadRequest | NotFound | Conflict | Locked | Internal

  // What fails in one copy: the steps before the four kinds (namespace, RBAC scaffolding, HyveConfig), the listing of a
  // pass, the look-up or write of one object in a pass, the status write after a ClusterDefinition was created, and the
  // credentials Secrets at the end.
  datatype Faults = Faults(
    setup: bool,
    listings: set<Pass>,
    calls: set<(Pass, Key)>,
    status: set<Key>,
    secrets: bool)

  // What fails in one switch: finding the old cluster or its client; the new one's client or the lock; the copy; the
  // write that ends it; reloading the organization once it has moved; resolving its placement for the answer.
  datatype Failing = Failing(lookup: bool, lock: bool, copy: Faults, end: bool, reload: bool, answer: bool)

  predicate Alphanumeric(c: char) {
    'a' <= c <= 'z' || '0' <= c <= '9'
  }

  // IsDNS1123Label.
  predicate IsLabel(name: string) {
    && 0 < |name| <= 63 && Alphanumeric(name[0]) && Alphanumeric(name[|name| - 1])
    && forall i | 0 <= i < |name| :: Alphanumeric(name[i]) || name[i] == '-'
  }

  // That is, 1 to 63 of the characters a to z, 0 to 9 and '-', the last at neither end.
  lemma IsLabelIff(name: string)
    ensures IsLabel(name) <==>
              && 1 <= |name| < 64 && name[0] != '-' && name[|name| - 1] != '-'
              && forall c <- name :: c == '-' || 97 <= c as int < 123 || 48 <= c as int < 58
  {
    forall i | 0 <= i < |name| ensures name[i] in name {
    }
  }

  // The organization's own cluster of that name.
  predicate IsOwn(rows: map<ClusterID, Row>, id: OrgID, name: string, c: ClusterID) {
    c in rows && rows[c] == Row(name, Some(id))
  }

  // No owner has two clusters of one name.
  predicate NamesUnique(rows: map<ClusterID, Row>) {
    forall a, b | a in rows && b in rows && rows[a] == rows[b] :: a == b
  }

  // ---- When a copy goes through ----

  // The copy of one listed object of a pass works, given what the destination has under its name: no call fails, and
  // neither does the status write that follows a created ClusterDefinition.
  predicate Works(p: Pass, key: Key, faults: Faults, there: Option<Object>) {
    (p, key) !in faults.calls && (p.CopyClusters? && key in faults.status ==> there.Some?)
  }

  predicate PassWorks(p: Pass, objects: map<At, Object>, src: Location, dst: Location, ns: Namespace, faults: Faults)
    requires !p.Copied?
  {
    && p !in faults.listings
    && forall key <- Listing(objects, src, ns, KindOf(p)) :: Works(p, key, faults, Get(objects, At(dst, key)))
  }

  // Nothing fails of what a copy does, over the objects before it.
  predicate GoesThrough(objects: map<At, Object>, src: Location, dst: Location, ns: Namespace, faults: Faults) {
    && !faults.setup && !faults.secrets
    && PassWorks(CopyClusters, objects, src, dst, ns, faults) && PassWorks(CopyLabels, objects, src, dst, ns, faults)
    && PassWorks(CopyTemplates, objects, src, dst, ns, faults)
    && PassWorks(CopyWorkflows, objects, src, dst, ns, faults)
    && PassWorks(CopyResources, objects, src, dst, ns, faults)
  }

  lemma PassWorksIff(p: Pass, objects: map<At, Object>, src: Location, dst: Location, ns: Namespace, faults: Faults)
    requires !p.Copied?
    ensures PassWorks(p, objects, src, dst, ns, faults) <==>
              && p !in faults.listings
              && forall at <- objects :: at.location == src && at.key.ns == ns && at.key.kind == KindOf(p) ==>
                   (p, at.key) !in faults.calls
                   && (p.CopyClusters? && at.key in faults.status ==> At(dst, at.key) in objects)
  {
    var listing := Listing(objects, src, ns, KindOf(p));
    forall at <- objects | at.location == src && at.key.ns == ns && at.key.kind == KindOf(p) ensures at.key in listing {
      assert At(src, at.key) == at;
    }
    forall key <- listing ensures At(src, key) in objects && key.ns == ns && key.kind == KindOf(p) {
    }
  }

  // That is: no step before or after the passes fails, no listing, no look-up or write of an object the source has of
  // the namespace, in its kind's pass or the label pass, and no status write of a ClusterDefinition new to the
  // destination.
  lemma GoesThroughIff(objects: map<At, Object>, src: Location, dst: Location, ns: Namespace, faults: Faults)
    ensures GoesThrough(objects, src, dst, ns, faults) <==>
              && !faults.setup && !faults.secrets && (forall p <- faults.listings :: p.Copied?)
              && forall at <- objects :: at.location == src && at.key.ns == ns ==>
                   && (PassOf(at.key.kind), at.key) !in faults.calls
                   && (at.key.kind.ClusterDefinition? ==>
                         && (CopyLabels, at.key) !in faults.calls
                         && (at.key in faults.status ==> At(dst, at.key) in objects))
  {
    PassWorksIff(CopyClusters, objects, src, dst, ns, faults);
    PassWorksIff(CopyLabels, objects, src, dst, ns, faults);
    PassWorksIff(CopyTemplates, objects, src, dst, ns, faults);
    PassWorksIff(CopyWorkflows, objects, src, dst, ns, faults);
    PassWorksIff(CopyResources, objects, src, dst, ns, faults);
  }

  // ---- The steps of a switch ----

  lemma Took(was: State, taken: seq<Action>, s: State, a: Action, t: State)
    requires Run(Step, was, taken) == Some(s) && Step(s, a) == Some(t)
    ensures Run(Step, was, taken + [a]) == Some(t)
  {
    Then(Step, was, taken, a);
  }

  lemma StartStep(s: State, id: OrgID, target: Option<ClusterID>)
    requires Enabled(s, Start(id, target))
    ensures Step(s, Start(id, target))
            == Some(s.(orgs := s.orgs[id := s.orgs[id].(migrating := true)],
                       jobs := s.jobs[id := NewJob(s, id, target)]))
  {
  }

  lemma CopyStep(s: State, id: OrgID, key: Key, content: Object)
    requires id in s.jobs && !s.jobs[id].failed && !s.jobs[id].pass.Copied? && key in s.jobs[id].todo
    requires var j := s.jobs[id];
             CopiedObject(j.pass, j.todo[key], Get(s.objects, At(Place(j.target), key))) == Some(content)
    ensures var j := s.jobs[id];
            Step(s, CopyNext(id, key))
            == Some(s.(objects := s.objects[At(Place(j.target), key) := content],
                       jobs := s.jobs[id := j.(todo := j.todo - {key})]))
  {
  }

  lemma NextPassStep(s: State, id: OrgID)
    requires id in s.jobs && !s.jobs[id].failed && !s.jobs[id].pass.Copied? && s.jobs[id].todo == map[]
    ensures var j := s.jobs[id];
            var p := After(j.pass);
            Step(s, NextPass(id))
            == Some(s.(jobs := s.jobs[id := InPass(j, p, TodoOf(p, s.objects, j.src, j.ns))]))
  {
  }

  lemma FailStep(s: State, id: OrgID)
    requires id in s.jobs && !s.jobs[id].failed && !s.jobs[id].pass.Copied?
    ensures Step(s, FailCopy(id)) == Some(s.(jobs := s.jobs[id := s.jobs[id].(failed := true)]))
  {
  }

  lemma Between(keys: seq<Key>, i: nat, key: Key)
    requires i < |keys| && forall k, l | 0 <= k < l < |keys| :: keys[k] != keys[l]
    ensures keys[i] in keys && keys[i] !in keys[..i] && keys[i] !in keys[i + 1..]
    ensures key in keys[i..] <==> key == keys[i] || key in keys[i + 1..]
    ensures key in keys[..i + 1] <==> key == keys[i] || key in keys[..i]
  {
    assert keys[i..] == [keys[i]] + keys[i + 1..] && keys[..i + 1] == keys[..i] + [keys[i]];
  }

  // A listing worked through up to i: the destination's objects of the keys still to come are as before,
  ghost predicate ListedTo(p: Pass, dst: Location, keys: seq<Key>, i: nat, faults: Faults, before: map<At, Object>,
                           objects: map<At, Object>)
    requires i <= |keys|
  {
    forall key <- keys[i..] :: Get(objects, At(dst, key)) == Get(before, At(dst, key))
  }

  // they and those whose call failed are still to do,
  ghost predicate TodoAt(p: Pass, keys: seq<Key>, i: nat, faults: Faults, listing: map<Key, Object>,
                         todo: map<Key, Object>)
    requires i <= |keys|
  {
    && (forall key :: key in todo <==> key in keys[i..] || (key in keys[..i] && (p, key) in faults.calls))
    && (forall key <- todo :: key in listing && todo[key] == listing[key])
  }

  // and those whose copy did not work have failed.
  ghost predicate FailedAt(p: Pass, dst: Location, keys: seq<Key>, i: nat, faults: Faults, before: map<At, Object>,
                           failed: set<Key>)
    requires i <= |keys|
  {
    forall key :: key in failed <==> key in keys[..i] && !Works(p, key, faults, Get(before, At(dst, key)))
  }

  lemma KeyIsNext(p: Pass, dst: Location, keys: seq<Key>, i: nat, faults: Faults, before: map<At, Object>,
                  objects: map<At, Object>, listing: map<Key, Object>, todo: map<Key, Object>)
    requires i < |keys| && forall k, l | 0 <= k < l < |keys| :: keys[k] != keys[l]
    requires ListedTo(p, dst, keys, i, faults, before, objects) && TodoAt(p, keys, i, faults, listing, todo)
    ensures var key := keys[i];
            && key in todo && key in listing && todo[key] == listing[key]
            && Get(objects, At(dst, key)) == Get(before, At(dst, key))
  {
    Between(keys, i, keys[i]);
  }

  lemma ListedOn(p: Pass, dst: Location, keys: seq<Key>, i: nat, faults: Faults, before: map<At, Object>,
                 mid: map<At, Object>, after: map<At, Object>)
    requires i < |keys| && forall k, l | 0 <= k < l < |keys| :: keys[k] != keys[l]
    requires ListedTo(p, dst, keys, i, faults, before, mid)
    requires forall at | at != At(dst, keys[i]) :: Get(after, at) == Get(mid, at)
    ensures ListedTo(p, dst, keys, i + 1, faults, before, after)
  {
    forall key <- keys[i + 1..] ensures Get(after, At(dst, key)) == Get(before, At(dst, key)) {
      Between(keys, i, key);
    }
  }

  lemma TodoOn(p: Pass, keys: seq<Key>, i: nat, faults: Faults, listing: map<Key, Object>, todo: map<Key, Object>)
    requires i < |keys| && forall k, l | 0 <= k < l < |keys| :: keys[k] != keys[l]
    requires TodoAt(p, keys, i, faults, listing, todo)
    ensures TodoAt(p, keys, i + 1, faults, listing, if (p, keys[i]) in faults.calls then todo else todo - {keys[i]})
  {
    forall key
      ensures key in todo && (key != keys[i] || (p, key) in faults.calls)
              <==> key in keys[i + 1..] || (key in keys[..i + 1] && (p, key) in faults.calls)
    {
      Between(keys, i, key);
    }
  }

  lemma FailedOn(p: Pass, dst: Location, keys: seq<Key>, i: nat, faults: Faults, before: map<At, Object>,
                 failed: set<Key>)
    requires i < |keys| && forall k, l | 0 <= k < l < |keys| :: keys[k] != keys[l]
    requires FailedAt(p, dst, keys, i, faults, before, failed)
    ensures FailedAt(p, dst, keys, i + 1, faults, before,
                     if Works(p, keys[i], faults, Get(before, At(dst, keys[i]))) then failed else failed + {keys[i]})
  {
    forall key ensures key in keys[..i + 1] <==> key == keys[i] || key in keys[..i] {
      Between(keys, i, key);
    }
  }

  // ---- A copy alone ----

  // `taken` is the copy so far, from `was`, when its job was new, to s.
  ghost predicate CopyTo(was: State, taken: seq<Action>, id: OrgID, s: State) {
    Undisturbed(was.objects, was, id) && Run(Step, was, taken) == Some(s) && forall a <- taken :: Copies(a, id)
  }

  lemma CopyGoesOn(was: State, taken: seq<Action>, id: OrgID, s: State, a: Action, t: State)
    requires CopyTo(was, taken, id, s) && Step(s, a) == Some(t) && Copies(a, id)
    ensures CopyTo(was, taken + [a], id, t)
  {
    Took(was, taken, s, a, t);
  }

  lemma CopyUndisturbed(was: State, taken: seq<Action>, id: OrgID, s: State)
    requires CopyTo(was, taken, id, s)
    ensures Undisturbed(was.objects, s, id)
    ensures s == was.(objects := s.objects, jobs := was.jobs[id := s.jobs[id]])
    ensures s.jobs[id].ns == was.jobs[id].ns && s.jobs[id].target == was.jobs[id].target
    ensures s.jobs[id].src == was.jobs[id].src
  {
    CopiesStayUndisturbed(was.objects, was, taken, id);
    CopyRunKeeps(was, taken, id);
  }

  // Nothing is in the way of the next key.
  lemma CopyIsDue(was: State, taken: seq<Action>, id: OrgID, s: State, key: Key)
    requires CopyTo(was, taken, id, s) && id in s.jobs && !s.jobs[id].failed && key in s.jobs[id].todo
    ensures var j := s.jobs[id];
            && !j.pass.Copied? && key.kind == KindOf(j.pass)
            && CopiedObject(j.pass, j.todo[key], Get(s.objects, At(Place(j.target), key))).Some?
  {
    CopyUndisturbed(was, taken, id, s);
    NextKeyCopies(was.objects, s, id, key);
    ListedOnTodo(s.jobs[id], key);
  }

  // A pass finds at its beginning what there was of its kind before the copy: the same listing, and on the destination
  // the same objects, with the unlabelled copies in the label pass.
  lemma PassBegins(before: map<At, Object>, t: State, id: OrgID, key: Key)
    requires Undisturbed(before, t, id) && !t.jobs[id].pass.Copied?
    requires t.jobs[id].todo == Listing(t.objects, t.jobs[id].src, t.jobs[id].ns, KindOf(t.jobs[id].pass))
    ensures var j := t.jobs[id];
            && (key in j.todo <==> key in Listing(before, j.src, j.ns, KindOf(j.pass)))
            && (key in j.todo && !j.pass.CopyLabels? ==>
                  Get(t.objects, At(Place(j.target), key)) == Get(before, At(Place(j.target), key)))
            && (key in j.todo && j.pass.CopyLabels? ==> At(Place(j.target), key) in t.objects)
  {
    if key.ns == t.jobs[id].ns {
      assert AtDestination(before, t, id, key) && AtSource(before, t, id, key);
    }
  }

  // So it works as far as it would have before the copy.
  lemma PassWorksAsBefore(before: map<At, Object>, t: State, id: OrgID, faults: Faults)
    requires Undisturbed(before, t, id) && !t.jobs[id].pass.Copied?
    requires t.jobs[id].todo == Listing(t.objects, t.jobs[id].src, t.jobs[id].ns, KindOf(t.jobs[id].pass))
    ensures var j := t.jobs[id];
            PassWorks(j.pass, t.objects, j.src, Place(j.target), j.ns, faults)
            <==> PassWorks(j.pass, before, j.src, Place(j.target), j.ns, faults)
  {
    var j := t.jobs[id];
    forall key: Key
      ensures key in j.todo <==> key in Listing(before, j.src, j.ns, KindOf(j.pass))
      ensures key in j.todo ==> (Works(j.pass, key, faults, Get(t.objects, At(Place(j.target), key)))
                                 <==> Works(j.pass, key, faults, Get(before, At(Place(j.target), key))))
    {
      PassBegins(before, t, id, key);
    }
  }

  // What a copy, wherever it stops, makes of the objects: the destination's objects of the namespace keep all but their
  // labels, and no others change; finished, it has merged the source into them.
  ghost predicate CopiedInto(before: map<At, Object>, after: map<At, Object>, src: Location, dst: Location,
                             ns: Namespace, ok: bool)
  {
    && (ok ==> forall key: Key | key.ns == ns ::
          Get(after, At(dst, key)) == Merged(key.kind, Get(before, At(src, key)), Get(before, At(dst, key))))
    && (forall key: Key | key.ns == ns && At(dst, key) in before ::
          At(dst, key) in after && after[At(dst, key)] == before[At(dst, key)].(labels := after[At(dst, key)].labels))
    && (forall at: At | !(at.location == dst && at.key.ns == ns) :: Get(after, at) == Get(before, at))
  }

  lemma CopyIsInto(was: State, taken: seq<Action>, id: OrgID, s: State)
    requires CopyTo(was, taken, id, s)
    ensures id in s.jobs
    ensures var j := s.jobs[id]; CopiedInto(was.objects, s.objects, j.src, Place(j.target), j.ns, j.pass.Copied?)
  {
    CopyUndisturbed(was, taken, id, s);
    var j := s.jobs[id];
    forall key: Key | key.ns == j.ns && At(Place(j.target), key) in was.objects
      ensures var at := At(Place(j.target), key);
              at in s.objects && s.objects[at] == was.objects[at].(labels := s.objects[at].labels)
    {
      CopyLosesNothing(was.objects, s, id, key);
    }
    forall at: At | !CopyReaches(j, at) ensures Get(s.objects, at) == Get(was.objects, at) {
      CopiesLeaveOthers(was, taken, id, at);
    }
    if j.pass.Copied? {
      forall key: Key | key.ns == j.ns
        ensures Get(s.objects, At(Place(j.target), key))
                == Merged(key.kind, Get(was.objects, At(j.src, key)), Get(was.objects, At(Place(j.target), key)))
      {
        CopiedMerges(was.objects, s, id, key);
      }
    }
  }

  // ---- A whole switch ----

  // An organization is placed on stored clusters only.
  lemma SourceAvailable(s: State, ns: Namespace)
    requires Placed(s)
    ensures Available(s, Route(s, ns)) <==> (Route(s, ns).Home? ==> s.config.hasHome)
  {
    if Named(s, ns).Some? {
      assert Selectable(s, Named(s, ns).value, s.orgs[Named(s, ns).value].cluster);
    }
  }

  // A switch of id from s gets to its flip, and the flip lands, exactly when both clusters can be reached and nothing
  // fails up to there.
  ghost predicate GetsThere(s: State, id: OrgID, target: Option<ClusterID>, failing: Failing)
    requires id in s.orgs
  {
    var src, ns := Route(s, s.orgs[id].ns), s.orgs[id].ns;
    && !failing.lookup && (src.Home? ==> s.config.hasHome) && (target.None? ==> s.config.hasHome) && !failing.lock
    && GoesThrough(s.objects, src, Place(target), ns, failing.copy) && !failing.end
  }

  // No check refuses to switch id.
  ghost predicate Lets(s: State, id: OrgID, target: Option<ClusterID>)
    requires id in s.orgs
  {
    && !s.orgs[id].pendingDeletion && !s.orgs[id].migrating
    && !(s.config.requireCluster && target.None? && s.orgs[id].ns != s.config.control)
  }

  // A switch of id from s moves it.
  ghost predicate GetsMoved(s: State, id: OrgID, target: Option<ClusterID>, failing: Failing)
    requires id in s.orgs
  {
    Lets(s, id, target) && target != s.orgs[id].cluster && GetsThere(s, id, target, failing)
  }

  // It is answered with success: it moves and can be reloaded, or id is there already.
  ghost predicate GetsAnswered(s: State, id: OrgID, target: Option<ClusterID>, failing: Failing)
    requires id in s.orgs
  {
    Lets(s, id, target) && (target == s.orgs[id].cluster || (GetsThere(s, id, target, failing) && !failing.reload))
  }

  // So an organization is moved exactly if its migration can start and nothing fails up to the flip, and the answer is
  // success for that, when it can be reloaded, and for a placement that is already there and no check refuses.
  lemma SwitchesIff(s: State, id: OrgID, target: Option<ClusterID>, failing: Failing)
    requires Placed(s) && id in s.orgs && Selectable(s, id, target)
    ensures GetsMoved(s, id, target, failing) <==>
              && Step(s, Start(id, target)).Some? && !failing.lookup && !failing.lock && !failing.end
              && GoesThrough(s.objects, Route(s, s.orgs[id].ns), Place(target), s.orgs[id].ns, failing.copy)
    ensures GetsAnswered(s, id, target, failing) <==>
              if target == s.orgs[id].cluster
              then !s.orgs[id].pendingDeletion && !s.orgs[id].migrating
                   && (target.Some? || !s.config.requireCluster || s.orgs[id].ns == s.config.control)
              else GetsMoved(s, id, target, failing) && !failing.reload
  {
    SourceAvailable(s, s.orgs[id].ns);
  }

  // The status of a switch that a check refuses or something in it fails.
  ghost predicate FailsWith(s: State, id: OrgID, target: Option<ClusterID>, failing: Failing, status: Status)
    requires id in s.orgs
  {
    var reached := !failing.lookup && (Route(s, s.orgs[id].ns).Home? ==> s.config.hasHome);
    status == if s.orgs[id].pendingDeletion then Conflict else if s.orgs[id].migrating then Locked
              else if !Lets(s, id, target) || (reached && target.None? && !s.config.hasHome) then BadRequest
              else Internal
  }

  // What a PUT without a kubeconfig asks for: no name, the home cluster; a name, the organization's own cluster of that
  // name, and only without one the cluster it stands on, if that has the name.
  ghost predicate AsksFor(s: State, id: OrgID, name: string, target: Option<ClusterID>)
    requires id in s.orgs
  {
    if name == "" then target.None?
    else
      && target.Some? && target.value in s.rows && s.rows[target.value].name == name
      && (s.rows[target.value].owner == Some(id)
          || ((forall c :: !IsOwn(s.rows, id, name, c)) && s.orgs[id].cluster == target))
  }

  // What a switch of id from s makes of it in u, by whether its flip landed. The placement is the target, or as it was;
  // the lock is off, or the organization is stuck; and requests for a tenant under its own name read what Merged makes
  // of the two clusters, or what they did.
  ghost predicate Switched(s: State, id: OrgID, target: Option<ClusterID>, landed: bool, u: State)
    requires id in s.orgs
  {
    && id in u.orgs && u.rows == s.rows
    && u.orgs == s.orgs[id := s.orgs[id].(cluster := if landed then target else s.orgs[id].cluster,
                                          migrating := u.orgs[id].migrating)]
    && (landed ==> !u.orgs[id].migrating) && (u.orgs[id].migrating <==> Stuck(u, id))
    && CopiedInto(s.objects, u.objects, Route(s, s.orgs[id].ns), Place(target), s.orgs[id].ns, landed)
    && (CleanStart(s, id) ==> forall key: Key | key.ns == s.orgs[id].ns :: ReadsAs(s, target, landed, u, key))
  }

  // What requests read of key after a switch, against before it.
  ghost predicate ReadsAs(s: State, target: Option<ClusterID>, landed: bool, u: State, key: Key) {
    Read(u, key) == if landed then Merged(key.kind, Read(s, key), Get(s.objects, At(Place(target), key)))
                    else Read(s, key)
  }

  // The last step of a switch: the flip after a whole copy, the unlock after a failed one.
  function EndOf(id: OrgID, copied: bool, fault: bool): Action {
    if copied then Flip(id, fault) else Unlock(id, fault)
  }

  function AfterEnd(o: Organization, target: Option<ClusterID>, copied: bool, fault: bool): Organization {
    if fault then o else if copied then o.(cluster := target, migrating := false) else o.(migrating := false)
  }

  // A switch that ran from s, alone, to before its last step.
  ghost predicate Ran(s: State, id: OrgID, target: Option<ClusterID>, started: State, more: seq<Action>, t: State,
                      copied: bool)
  {
    && Init(s) && id in s.orgs && Selectable(s, id, target)
    && Step(s, Start(id, target)) == Some(started) && CopyTo(started, more, id, t)
    && id in t.jobs && (if copied then !t.jobs[id].failed && t.jobs[id].pass.Copied? else t.jobs[id].failed)
    && (t.jobs[id].pass.Copied? ==> copied)
  }

  ghost function EndedIn(s: State, id: OrgID, target: Option<ClusterID>, t: State, copied: bool, fault: bool): State
    requires id in s.orgs
  {
    s.(orgs := s.orgs[id := AfterEnd(s.orgs[id].(migrating := true), target, copied, fault)], objects := t.objects)
  }

  lemma RanTo(s: State, id: OrgID, target: Option<ClusterID>, started: State, more: seq<Action>, t: State, copied: bool)
    requires Ran(s, id, target, started, more, t, copied)
    ensures t.jobs == s.jobs[id := t.jobs[id]]
    ensures t == s.(orgs := s.orgs[id := s.orgs[id].(migrating := true)], objects := t.objects, jobs := t.jobs)
    ensures t.jobs[id].target == target && t.jobs[id].src == Route(s, s.orgs[id].ns) && t.jobs[id].ns == s.orgs[id].ns
    ensures started.objects == s.objects
  {
    StartStep(s, id, target);
    CopyRunKeeps(started, more, id);
    OnlyTheJob(s.(orgs := started.orgs), started, t, id);
  }

  lemma EndStep(s: State, id: OrgID, target: Option<ClusterID>, started: State, more: seq<Action>, t: State,
                copied: bool, fault: bool)
    requires Ran(s, id, target, started, more, t, copied)
    ensures Step(t, EndOf(id, copied, fault)) == Some(EndedIn(s, id, target, t, copied, fault))
  {
    RanTo(s, id, target, started, more, t, copied);
    EndMaps(s, id, target, t, copied, fault);
  }

  lemma EndMaps(s: State, id: OrgID, target: Option<ClusterID>, t: State, copied: bool, fault: bool)
    requires id in s.orgs && id in t.jobs && s.jobs == map[] && t.jobs == s.jobs[id := t.jobs[id]]
    requires t == s.(orgs := s.orgs[id := s.orgs[id].(migrating := true)], objects := t.objects, jobs := t.jobs)
    requires t.jobs[id].target == target && Selectable(s, id, target)
    requires if copied then !t.jobs[id].failed && t.jobs[id].pass.Copied? else t.jobs[id].failed
    ensures Step(t, EndOf(id, copied, fault)) == Some(EndedIn(s, id, target, t, copied, fault))
  {
    assert t.orgs[id := t.orgs[id]] == t.orgs && t.jobs - {id} == s.jobs;
    assert t.orgs[id := AfterEnd(t.orgs[id], target, copied, fault)]
        == s.orgs[id := AfterEnd(t.orgs[id], target, copied, fault)];
  }

  lemma EndedState(s: State, id: OrgID, target: Option<ClusterID>, t: State, copied: bool, fault: bool, u: State)
    requires id in s.orgs && id in t.jobs && s.jobs == map[] && t.jobs == s.jobs[id := t.jobs[id]]
    requires t == s.(orgs := s.orgs[id := s.orgs[id].(migrating := true)], objects := t.objects, jobs := t.jobs)
    requires u == t.(orgs := t.orgs[id := AfterEnd(t.orgs[id], target, copied, fault)], jobs := t.jobs - {id})
    ensures u == EndedIn(s, id, target, t, copied, fault)
  {
    assert u.orgs == s.orgs[id := AfterEnd(t.orgs[id], target, copied, fault)] && u.jobs == s.jobs;
  }

  lemma EndedRun(s: State, id: OrgID, target: Option<ClusterID>, started: State, more: seq<Action>, t: State,
                 end: Action, u: State)
    returns (acts: seq<Action>)
    requires Init(s) && Step(s, Start(id, target)) == Some(started) && Run(Step, started, more) == Some(t)
    requires Step(t, end) == Some(u)
    ensures Run(Step, s, acts) == Some(u) && RowsInv(u)
  {
    var rest := First(s, Start(id, target), started, more);
    Then(Step, s, rest, end);
    acts := rest + [end];
    ReachableRows(s, acts);
  }

  // A tenant under its own name is read where it is placed, before and after.
  lemma RoutesSwitch(s: State, id: OrgID, u: State)
    requires Unique(s) && Unique(u) && id in s.orgs && s.orgs[id].name == s.orgs[id].ns
    requires id in u.orgs && u.orgs[id].name == s.orgs[id].name && u.orgs[id].ns == s.orgs[id].ns
    ensures Route(s, s.orgs[id].ns) == Place(s.orgs[id].cluster)
    ensures Route(u, s.orgs[id].ns) == Place(u.orgs[id].cluster)
  {
    RoutedHome(s, id);
    RoutedHome(u, id);
  }

  lemma EndedReads(s: State, id: OrgID, target: Option<ClusterID>, t: State, copied: bool, fault: bool, key: Key)
    requires id in s.orgs && Unique(s) && key.ns == s.orgs[id].ns && CleanStart(s, id) && target != s.orgs[id].cluster
    requires var u := EndedIn(s, id, target, t, copied, fault);
             Unique(u) && CopiedInto(s.objects, u.objects, Route(s, key.ns), Place(target), key.ns, copied && !fault)
    ensures ReadsAs(s, target, copied && !fault, EndedIn(s, id, target, t, copied, fault), key)
  {
    var u := EndedIn(s, id, target, t, copied, fault);
    RoutesSwitch(s, id, u);
    if !(copied && !fault) {
      assert Get(u.objects, At(Place(s.orgs[id].cluster), key)) == Get(s.objects, At(Place(s.orgs[id].cluster), key));
    }
  }

  lemma RowsSwitch(s: State, id: OrgID, target: Option<ClusterID>, t: State, copied: bool, fault: bool)
    requires Init(s) && id in s.orgs && target != s.orgs[id].cluster
    requires var u := EndedIn(s, id, target, t, copied, fault);
             && Unique(u)
             && CopiedInto(s.objects, t.objects, Route(s, s.orgs[id].ns), Place(target), s.orgs[id].ns,
                           copied && !fault)
    ensures Switched(s, id, target, copied && !fault, EndedIn(s, id, target, t, copied, fault))
  {
    var u := EndedIn(s, id, target, t, copied, fault);
    if CleanStart(s, id) {
      forall key: Key | key.ns == s.orgs[id].ns ensures ReadsAs(s, target, copied && !fault, u, key) {
        EndedReads(s, id, target, t, copied, fault, key);
      }
    }
  }

  lemma EndedSwitches(s: State, id: OrgID, target: Option<ClusterID>, started: State, more: seq<Action>, t: State,
                      copied: bool, fault: bool)
    returns (acts: seq<Action>)
    requires Ran(s, id, target, started, more, t, copied)
    ensures var u := EndedIn(s, id, target, t, copied, fault);
            Run(Step, s, acts) == Some(u) && Init(u) && Switched(s, id, target, copied && !fault, u)
  {
    var u := EndedIn(s, id, target, t, copied, fault);
    EndStep(s, id, target, started, more, t, copied, fault);
    acts := EndedRun(s, id, target, started, more, t, EndOf(id, copied, fault), u);
    RanTo(s, id, target, started, more, t, copied);
    CopyIsInto(started, more, id, t);
    RowsSwitch(s, id, target, t, copied, fault);
  }

  // A switch that never got to its lock.
  lemma NothingSwitched(s: State, id: OrgID, target: Option<ClusterID>)
    requires Init(s) && id in s.orgs && !s.orgs[id].migrating
    ensures Switched(s, id, target, false, s)
  {
    assert s.orgs[id := s.orgs[id]] == s.orgs;
  }

  lemma OwnersStandOnTheirOwn(s: State, id: OrgID, c: ClusterID)
    requires Placed(s) && id in s.orgs && c in s.rows && s.rows[c].owner == Some(id) && s.orgs[id].cluster != Some(c)
    ensures Enabled(s, RemoveRow(id, c))
  {
    forall o <- s.orgs ensures s.orgs[o].cluster != Some(c) {
      assert Selectable(s, o, s.orgs[o].cluster);
    }
  }

  lemma ResolvedIsAsked(s: State, id: OrgID, name: string, found: Option<ClusterID>)
    requires id in s.orgs && NamesUnique(s.rows) && Placed(s) && name != ""
    requires match found
             case Some(c) =>
               && c in s.rows && s.rows[c].name == name
               && (s.rows[c].owner == Some(id) || s.orgs[id].cluster == Some(c))
               && (forall o :: IsOwn(s.rows, id, name, o) ==> o == c)
             case None =>
               && (forall o :: !IsOwn(s.rows, id, name, o))
               && !(s.orgs[id].cluster.Some? && s.orgs[id].cluster.value in s.rows
                    && s.rows[s.orgs[id].cluster.value].name == name)
    ensures forall target :: AsksFor(s, id, name, target) <==> found.Some? && target == found
  {
    forall target: Option<ClusterID> | target.Some? && target.value in s.rows && s.rows[target.value].name == name
      ensures s.rows[target.value].owner == Some(id) <==> IsOwn(s.rows, id, name, target.value)
    {
    }
  }

  /** The store and the clusters, with no migration under way; jobs are there for the time of one request. */
  class Server {
    const config: Config
    var orgs: map<OrgID, Organization>
    var rows: map<ClusterID, Row>
    var kubeconfigs: map<ClusterID, Kubeconfig>
    var objects: map<At, Object>
    ghost var jobs: map<OrgID, Job>
    ghost var orgIDs: set<OrgID>
    ghost var rowIDs: set<ClusterID>

    ghost function Stored(): State
      reads this
    {
      State(config, orgs, rows, objects, jobs, orgIDs, rowIDs)
    }

    ghost predicate Valid()
      reads this
    {
      Init(Stored()) && NamesUnique(rows) && kubeconfigs.Keys == rows.Keys
    }

    constructor (config: Config)
      ensures Valid() && Stored() == State(config, map[], map[], map[], map[], {}, {})
    {
      this.config := config;
      orgs, rows, kubeconfigs, objects := map[], map[], map[], map[];
      jobs, orgIDs, rowIDs := map[], {}, {};
    }

    // Where requests for ns go; None where the look-up or the client's construction fails, or there is no home cluster
    // to fall back on.
    method ResourceClient(ns: Namespace, fault: bool) returns (l: Option<Location>)
      requires Unique(Stored())
      ensures l == if fault || (Route(Stored(), ns).Home? && !config.hasHome) then None else Some(Route(Stored(), ns))
    {
      var route := Home;
      if id :| id in orgs && orgs[id].name == ns {
        NamedIsTheBearer(Stored(), id);
        route := Place(orgs[id].cluster);
      }
      return if fault || (route.Home? && !config.hasHome) then None else Some(route);
    }

    // ---- The copy ----

    // client.List, each object once.
    method List(l: Location, ns: Namespace, kind: Kind) returns (keys: seq<Key>)
      ensures forall i, k | 0 <= i < k < |keys| :: keys[i] != keys[k]
      ensures forall key :: key in keys <==> key in Listing(objects, l, ns, kind)
    {
      keys := [];
      var rest := Listing(objects, l, ns, kind).Keys;
      while rest != {}
        invariant forall i, k | 0 <= i < k < |keys| :: keys[i] != keys[k]
        invariant forall key :: key in keys || key in rest <==> key in Listing(objects, l, ns, kind)
        invariant forall key <- keys :: key !in rest
        decreases rest
      {
        var key :| key in rest;
        keys := keys + [key];
        rest := rest - {key};
      }
    }

    // The destination's half of one object's copy: created, or skipped where the name exists; in the label pass read
    // and given the listed labels. False where a call fails or there is nothing to label.
    method CopyObject(p: Pass, dst: Location, key: Key, item: Object, faults: Faults) returns (ok: bool)
      requires !p.Copied? && (key.kind == KindOf(p))
      modifies this`objects
      ensures var at := At(dst, key);
              var content := CopiedObject(p, item, Get(old(objects), at));
              && (ok <==> (p, key) !in faults.calls && content.Some?)
              && objects == if ok then old(objects)[at := content.value] else old(objects)
    {
      var at := At(dst, key);
      if (p, key) in faults.calls {
        return false;
      }
      if p.CopyLabels? {
        if at !in objects {
          return false;
        }
        if objects[at].labels != item.labels {
          objects := objects[at := objects[at].(labels := item.labels)];
        }
        assert objects == old(objects)[at := objects[at]];
        return true;
      }
      if at in objects {
        assert objects == old(objects)[at := objects[at]];
        return true;
      }
      var labels := if p.CopyClusters? then map[] else item.labels;
      var delete := item.delete || (p.CopyClusters? && item.deleting);
      objects := objects[at := Object(item.spec, labels, delete, false)];
      return true;
    }

    ghost predicate Copying(was: State, taken: seq<Action>, id: OrgID)
      reads this
    {
      CopyTo(was, taken, id, Stored()) && id in jobs
    }

    // One object of the pass under way; false where its copy fails.
    method CopyNextObject(p: Pass, id: OrgID, dst: Location, key: Key, item: Object, faults: Faults,
                          ghost was: State, ghost taken: seq<Action>)
      returns (ok: bool, ghost acts: seq<Action>)
      requires Copying(was, taken, id) && !p.Copied?
      requires jobs[id].pass == p && !jobs[id].failed && Place(jobs[id].target) == dst
      requires key in jobs[id].todo && jobs[id].todo[key] == item
      modifies this`objects, this`jobs
      ensures Copying(was, acts, id)
      ensures jobs[id] == old(jobs[id]).(todo := if (p, key) in faults.calls then old(jobs[id]).todo
                                                 else old(jobs[id]).todo - {key})
      ensures ok <==> Works(p, key, faults, Get(old(objects), At(dst, key)))
      ensures forall at | at != At(dst, key) :: Get(objects, at) == Get(old(objects), at)
    {
      acts := taken;
      ghost var s := Stored();
      CopyIsDue(was, taken, id, s, key);
      var absent := At(dst, key) !in objects;
      ok := CopyObject(p, dst, key, item, faults);
      if ok {
        CopyStep(s, id, key, objects[At(dst, key)]);
        jobs := jobs[id := jobs[id].(todo := jobs[id].todo - {key})];
        CopyGoesOn(was, taken, id, s, CopyNext(id, key), Stored());
        acts := taken + [CopyNext(id, key)];
        ok := !(p.CopyClusters? && absent && key in faults.status);
      }
    }

    // Over a listing. An object whose copy fails is noted and the others are still copied, but for the label pass,
    // which stops there.
    method CopyListing(p: Pass, id: OrgID, dst: Location, keys: seq<Key>, listing: map<Key, Object>, faults: Faults,
                       ghost was: State, ghost taken: seq<Action>)
      returns (failed: set<Key>, ghost acts: seq<Action>)
      requires Copying(was, taken, id) && !p.Copied?
      requires jobs[id].pass == p && !jobs[id].failed && Place(jobs[id].target) == dst && jobs[id].todo == listing
      requires forall i, k | 0 <= i < k < |keys| :: keys[i] != keys[k]
      requires forall key :: key in keys <==> key in listing
      modifies this`objects, this`jobs
      ensures Copying(was, acts, id) && jobs[id] == old(jobs[id]).(todo := jobs[id].todo)
      ensures failed == {} <==> forall key <- listing :: Works(p, key, faults, Get(old(objects), At(dst, key)))
      ensures !p.CopyLabels? ==> forall key :: key in failed <==>
                key in listing && !Works(p, key, faults, Get(old(objects), At(dst, key)))
      ensures failed == {} ==> jobs[id].todo == map[]
      ensures !p.CopyLabels? ==> forall key :: key in jobs[id].todo <==> key in listing && (p, key) in faults.calls
    {
      acts, failed := taken, {};
      for i := 0 to |keys|
        invariant Copying(was, acts, id) && jobs[id] == old(jobs[id]).(todo := jobs[id].todo)
        invariant ListedTo(p, dst, keys, i, faults, old(objects), objects)
        invariant TodoAt(p, keys, i, faults, listing, jobs[id].todo)
        invariant FailedAt(p, dst, keys, i, faults, old(objects), failed)
        invariant p.CopyLabels? ==> failed == {}
      {
        var key := keys[i];
        KeyIsNext(p, dst, keys, i, faults, old(objects), objects, listing, jobs[id].todo);
        ghost var mid, todo, bad := objects, jobs[id].todo, failed;
        var ok;
        ok, acts := CopyNextObject(p, id, dst, key, listing[key], faults, was, acts);
        if !ok {
          failed := failed + {key};
        }
        ListedOn(p, dst, keys, i, faults, old(objects), mid, objects);
        TodoOn(p, keys, i, faults, listing, todo);
        FailedOn(p, dst, keys, i, faults, old(objects), bad);
        if !ok && p.CopyLabels? {
          return;
        }
      }
      assert keys[..|keys|] == keys && keys[|keys|..] == [];
    }

    method GiveUp(id: OrgID, ghost was: State, ghost taken: seq<Action>) returns (ghost acts: seq<Action>)
      requires Copying(was, taken, id) && !jobs[id].failed && !jobs[id].pass.Copied?
      modifies this`jobs
      ensures Copying(was, acts, id) && jobs[id] == old(jobs[id]).(failed := true)
    {
      FailStep(Stored(), id);
      ghost var s := Stored();
      jobs := jobs[id := jobs[id].(failed := true)];
      CopyGoesOn(was, taken, id, s, FailCopy(id), Stored());
      acts := taken + [FailCopy(id)];
    }

    method BeginNext(id: OrgID, ghost was: State, ghost taken: seq<Action>) returns (ghost acts: seq<Action>)
      requires Copying(was, taken, id) && !jobs[id].failed && !jobs[id].pass.Copied? && jobs[id].todo == map[]
      modifies this`jobs
      ensures Copying(was, acts, id)
      ensures var j := old(jobs[id]);
              jobs[id] == InPass(j, After(j.pass), TodoOf(After(j.pass), objects, j.src, j.ns))
    {
      ghost var s, j := Stored(), jobs[id];
      NextPassStep(s, id);
      jobs := jobs[id := InPass(j, After(j.pass), TodoOf(After(j.pass), objects, j.src, j.ns))];
      CopyGoesOn(was, taken, id, s, NextPass(id), Stored());
      acts := taken + [NextPass(id)];
    }

    // One pass, from its listing: migrate.ClusterDefinitions, copyClusterDefinitionLabels, migrate.Templates, Workflows
    // and Resources, with the check of its summary.
    method CopyPass(p: Pass, id: OrgID, src: Location, dst: Location, ns: Namespace, faults: Faults,
                    ghost was: State, ghost taken: seq<Action>)
      returns (ok: bool, ghost acts: seq<Action>)
      requires Copying(was, taken, id) && !p.Copied?
      requires jobs[id].pass == p && !jobs[id].failed && Place(jobs[id].target) == dst
      requires jobs[id].todo == Listing(objects, src, ns, KindOf(p))
      modifies this`objects, this`jobs
      ensures Copying(was, acts, id) && jobs[id] == old(jobs[id]).(todo := jobs[id].todo, failed := jobs[id].failed)
      ensures ok <==> PassWorks(p, old(objects), src, dst, ns, faults)
      ensures if ok then !jobs[id].failed && jobs[id].todo == map[] else jobs[id].failed
    {
      ok, acts := p !in faults.listings, taken;
      if ok {
        var keys := List(src, ns, KindOf(p));
        var failed;
        failed, acts := CopyListing(p, id, dst, keys, Listing(objects, src, ns, KindOf(p)), faults, was, acts);
        ok := failed == {};
      }
      if !ok {
        acts := GiveUp(id, was, acts);
      }
    }

    // Where a pass begins.
    ghost predicate Beginning(p: Pass, id: OrgID, src: Location, dst: Location, ns: Namespace)
      reads this
    {
      && id in jobs && jobs[id].pass == p && !jobs[id].failed && Place(jobs[id].target) == dst
      && jobs[id].src == src && jobs[id].ns == ns && jobs[id].todo == TodoOf(p, objects, src, ns)
    }

    // A pass, and the beginning of the next. Whether it works was settled before the copy.
    method PassAndNext(p: Pass, id: OrgID, src: Location, dst: Location, ns: Namespace, faults: Faults, last: bool,
                       ghost was: State, ghost taken: seq<Action>)
      returns (ok: bool, ghost acts: seq<Action>)
      requires Copying(was, taken, id) && !p.Copied? && Beginning(p, id, src, dst, ns)
      modifies this`objects, this`jobs
      ensures Copying(was, acts, id)
      ensures ok <==> PassWorks(p, was.objects, src, dst, ns, faults) && !(last && faults.secrets)
      ensures if ok then Beginning(After(p), id, src, dst, ns) else jobs[id].failed && !jobs[id].pass.Copied?
    {
      CopyUndisturbed(was, taken, id, Stored());
      PassWorksAsBefore(was.objects, Stored(), id, faults);
      ok, acts := CopyPass(p, id, src, dst, ns, faults, was, taken);
      if !ok {
        return;
      }
      if last && faults.secrets {
        acts := GiveUp(id, was, acts);
        return false, acts;
      }
      acts := BeginNext(id, was, acts);
    }

    // The whole copy. It succeeds exactly when nothing fails; then the destination is what Merged says. Whether or not
    // it does, the source is untouched, nothing that was on the destination is lost or given another spec, and no other
    // namespace changes.
    method RunOrganizationMigration(id: OrgID, src: Location, dst: Location, ns: Namespace, faults: Faults)
      returns (ok: bool, ghost acts: seq<Action>)
      requires Undisturbed(objects, Stored(), id) && Beginning(CopyClusters, id, src, dst, ns)
      modifies this`objects, this`jobs
      ensures Copying(old(Stored()), acts, id)
      ensures ok <==> GoesThrough(old(objects), src, dst, ns, faults)
      ensures if ok then !jobs[id].failed && jobs[id].pass.Copied? else jobs[id].failed && !jobs[id].pass.Copied?
      ensures CopiedInto(old(objects), objects, src, dst, ns, ok)
    {
      ghost var was := Stored();
      ok, acts := CopyAll(id, src, dst, ns, faults, was);
      CopyUndisturbed(was, acts, id, Stored());
      CopyIsInto(was, acts, id, Stored());
    }

    method CopyAll(id: OrgID, src: Location, dst: Location, ns: Namespace, faults: Faults, ghost was: State)
      returns (ok: bool, ghost acts: seq<Action>)
      requires was == Stored() && Undisturbed(was.objects, was, id) && Beginning(CopyClusters, id, src, dst, ns)
      modifies this`objects, this`jobs
      ensures Copying(was, acts, id)
      ensures ok <==> GoesThrough(was.objects, src, dst, ns, faults)
      ensures if ok then !jobs[id].failed && jobs[id].pass.Copied? else jobs[id].failed && !jobs[id].pass.Copied?
    {
      acts := [];
      if faults.setup {
        acts := GiveUp(id, was, acts);
        return false, acts;
      }
      ok, acts := PassAndNext(CopyClusters, id, src, dst, ns, faults, false, was, acts);
      if !ok {
        return;
      }
      ok, acts := PassAndNext(CopyLabels, id, src, dst, ns, faults, false, was, acts);
      if !ok {
        return;
      }
      ok, acts := CopyRest(id, src, dst, ns, faults, was, acts);
    }

    // Templates, workflows and resources, and the credentials Secrets.
    method CopyRest(id: OrgID, src: Location, dst: Location, ns: Namespace, faults: Faults, ghost was: State,
                    ghost taken: seq<Action>)
      returns (ok: bool, ghost acts: seq<Action>)
      requires Copying(was, taken, id) && Beginning(CopyTemplates, id, src, dst, ns)
      modifies this`objects, this`jobs
      ensures Copying(was, acts, id)
      ensures ok <==> && PassWorks(CopyTemplates, was.objects, src, dst, ns, faults)
                      && PassWorks(CopyWorkflows, was.objects, src, dst, ns, faults)
                      && PassWorks(CopyResources, was.objects, src, dst, ns, faults) && !faults.secrets
      ensures if ok then !jobs[id].failed && jobs[id].pass.Copied? else jobs[id].failed && !jobs[id].pass.Copied?
    {
      ok, acts := PassAndNext(CopyTemplates, id, src, dst, ns, faults, false, was, taken);
      if !ok {
        return;
      }
      ok, acts := PassAndNext(CopyWorkflows, id, src, dst, ns, faults, false, was, acts);
      if !ok {
        return;
      }
      ok, acts := PassAndNext(CopyResources, id, src, dst, ns, faults, true, was, acts);
    }

    // ---- A switch ----

    method WriteLock(id: OrgID, target: Option<ClusterID>) returns (ghost started: State)
      requires Enabled(Stored(), Start(id, target))
      modifies this`orgs, this`jobs
      ensures started == Stored() && Step(old(Stored()), Start(id, target)) == Some(started)
      ensures orgs == old(orgs)[id := old(orgs)[id].(migrating := true)]
      ensures jobs == old(jobs)[id := NewJob(old(Stored()), id, target)]
    {
      StartStep(Stored(), id, target);
      SetMigrationStatus(id, NewJob(Stored(), id, target));
      started := Stored();
    }

    method SetMigrationStatus(id: OrgID, ghost job: Job)
      requires id in orgs
      modifies this`orgs, this`jobs
      ensures orgs == old(orgs)[id := old(orgs)[id].(migrating := true)] && jobs == old(jobs)[id := job]
    {
      orgs := orgs[id := orgs[id].(migrating := true)];
      jobs := jobs[id := job];
    }

    // The lock and the copy.
    method LockAndCopy(id: OrgID, target: Option<ClusterID>, src: Location, copy: Faults)
      returns (copied: bool, ghost started: State, ghost more: seq<Action>)
      requires Init(Stored()) && Enabled(Stored(), Start(id, target)) && src == Route(Stored(), orgs[id].ns)
      modifies this`orgs, this`objects, this`jobs
      ensures Ran(old(Stored()), id, target, started, more, Stored(), copied)
      ensures copied <==> GoesThrough(old(objects), src, Place(target), old(orgs)[id].ns, copy)
    {
      StartsUndisturbed(Stored(), id, target);
      started := WriteLock(id, target);
      copied, more := RunOrganizationMigration(id, src, Place(target), orgs[id].ns, copy);
    }

    // Lock, copy, and the write that ends it.
    method SwitchUnderLock(id: OrgID, target: Option<ClusterID>, src: Location, copy: Faults, endFault: bool)
      returns (landed: bool, ghost acts: seq<Action>)
      requires Init(Stored()) && Enabled(Stored(), Start(id, target)) && src == Route(Stored(), orgs[id].ns)
      modifies this`orgs, this`objects, this`jobs
      ensures Run(Step, old(Stored()), acts) == Some(Stored()) && Init(Stored())
      ensures Switched(old(Stored()), id, target, landed, Stored())
      ensures landed <==> GoesThrough(old(objects), src, Place(target), old(orgs)[id].ns, copy) && !endFault
    {
      ghost var s := Stored();
      var copied, started, more := LockAndCopy(id, target, src, copy);
      ghost var t := Stored();
      RanTo(s, id, target, started, more, t, copied);
      acts := EndedSwitches(s, id, target, started, more, t, copied, endFault);
      EndMigration(id, target, copied, endFault);
      landed := copied && !endFault;
      EndedState(s, id, target, t, copied, endFault, Stored());
    }

    // SetOrganizationReconcilingCluster after a whole copy, the cleared status after a failed one.
    method EndMigration(id: OrgID, target: Option<ClusterID>, copied: bool, fault: bool)
      requires id in orgs
      modifies this`orgs, this`jobs
      ensures orgs == old(orgs)[id := AfterEnd(old(orgs)[id], target, copied, fault)] && jobs == old(jobs) - {id}
    {
      if !fault {
        orgs := orgs[id := if copied then orgs[id].(cluster := target, migrating := false)
                           else orgs[id].(migrating := false)];
      }
      jobs := jobs - {id};
    }

    // A switch, whatever fails in it, is a run of the steps of Organizations; so all that is proved of their runs holds
    // of it and of whatever follows. A check that refuses it leaves everything as it was, and so does a target that is
    // the placement already. Otherwise its flip lands exactly if nothing failed up to there, and Switched says what
    // comes of it: an answer of failure leaves the placement as it was, but for the one after the flip, when only
    // reloading the organization failed.
    method MigrateOrganizationToTarget(id: OrgID, target: Option<ClusterID>, failing: Failing)
      returns (failed: Option<Status>, ghost landed: bool, ghost acts: seq<Action>)
      requires Valid() && id in orgs && Selectable(Stored(), id, target)
      modifies this`orgs, this`objects, this`jobs
      ensures Valid() && Run(Step, old(Stored()), acts) == Some(Stored())
      ensures if Lets(old(Stored()), id, target) && target != old(orgs)[id].cluster
              then Switched(old(Stored()), id, target, landed, Stored()) else Stored() == old(Stored())
      ensures landed <==> GetsMoved(old(Stored()), id, target, failing)
      ensures failed.None? <==> GetsAnswered(old(Stored()), id, target, failing)
      ensures old(orgs)[id].pendingDeletion ==> failed == Some(Conflict)
      ensures !old(orgs)[id].pendingDeletion && old(orgs)[id].migrating ==> failed == Some(Locked)
      ensures !old(orgs)[id].pendingDeletion && !old(orgs)[id].migrating && !Lets(old(Stored()), id, target) ==>
                failed == Some(BadRequest)
      ensures Lets(old(Stored()), id, target) && failed.Some? ==>
                failed.value == if !failing.lookup && (Route(old(Stored()), old(orgs)[id].ns).Home? ==> config.hasHome)
                                   && target.None? && !config.hasHome then BadRequest else Internal
      ensures failed.Some? ==> FailsWith(old(Stored()), id, target, failing, failed.value)
    {
      acts, landed := [], false;
      var o := orgs[id];
      if o.pendingDeletion {
        return Some(Conflict), landed, acts;
      }
      if o.migrating {
        return Some(Locked), landed, acts;
      }
      if config.requireCluster && target.None? && o.ns != config.control {
        return Some(BadRequest), landed, acts;
      }
      if o.cluster == target {
        return None, landed, acts;
      }
      failed, landed, acts := ReachAndSwitch(id, target, failing);
    }

    // Both clients, the lock, the copy and the flip.
    method ReachAndSwitch(id: OrgID, target: Option<ClusterID>, failing: Failing)
      returns (failed: Option<Status>, ghost landed: bool, ghost acts: seq<Action>)
      requires Init(Stored()) && id in orgs && Selectable(Stored(), id, target)
      requires Lets(Stored(), id, target) && target != orgs[id].cluster
      modifies this`orgs, this`objects, this`jobs
      ensures Init(Stored()) && Run(Step, old(Stored()), acts) == Some(Stored())
      ensures Switched(old(Stored()), id, target, landed, Stored())
      ensures landed <==> GetsThere(old(Stored()), id, target, failing)
      ensures failed.None? <==> landed && !failing.reload
      ensures failed.Some? ==> FailsWith(old(Stored()), id, target, failing, failed.value)
    {
      acts, landed := [], false;
      NothingSwitched(Stored(), id, target);
      var src := ResourceClient(orgs[id].ns, failing.lookup);
      if src.None? {
        return Some(Internal), landed, acts;
      }
      if target.None? && !config.hasHome {
        return Some(BadRequest), landed, acts;
      }
      if failing.lock {
        return Some(Internal), landed, acts;
      }
      SourceAvailable(Stored(), orgs[id].ns);
      var ok;
      ok, acts := SwitchUnderLock(id, target, src.value, failing.copy, failing.end);
      landed := ok;
      failed := if ok && !failing.reload then None else Some(Internal);
    }

    // ---- Its own clusters ----

    // GetOrgReconcilingClusterByName.
    method OwnByName(id: OrgID, name: string) returns (found: Option<ClusterID>)
      ensures match found
              case Some(c) => IsOwn(rows, id, name, c)
              case None => forall c :: !IsOwn(rows, id, name, c)
    {
      if c :| c in rows && IsOwn(rows, id, name, c) {
        return Some(c);
      }
      return None;
    }

    // Rotates the organization's cluster of that name, or registers `unused` as that. Unless the write fails, the
    // kubeconfig stored under the name is the one given, and no other cluster's changes; the answer is None also where
    // only reading the row back fails.
    method UpsertOrgReconcilingCluster(id: OrgID, name: string, kubeconfig: Kubeconfig, unused: ClusterID,
                                       writeFault: bool, readFault: bool)
      returns (c: Option<ClusterID>, ghost stored: ClusterID, ghost acts: seq<Action>)
      requires Valid() && id in orgs && unused !in rowIDs
      modifies this`rows, this`kubeconfigs, this`rowIDs
      ensures Valid() && Run(Step, old(Stored()), acts) == Some(Stored())
      ensures c == if writeFault || readFault then None else Some(stored)
      ensures writeFault ==> Stored() == old(Stored()) && kubeconfigs == old(kubeconfigs)
      ensures !writeFault ==> IsOwn(rows, id, name, stored) && kubeconfigs == old(kubeconfigs)[stored := kubeconfig]
      ensures !writeFault ==> rows == if stored == unused then old(rows)[unused := Row(name, Some(id))] else old(rows)
    {
      acts, stored := [], unused;
      if writeFault {
        return None, stored, acts;
      }
      c := OwnByName(id, name);
      if c.Some? {
        kubeconfigs := kubeconfigs[c.value := kubeconfig];
        return if readFault then None else c, c.value, acts;
      }
      ghost var s := Stored();
      forall o <- rows | rows[o].owner == Some(id) ensures rows[o].name != name {
        assert !IsOwn(rows, id, name, o);
      }
      rows := rows[unused := Row(name, Some(id))];
      rowIDs := rowIDs + {unused};
      kubeconfigs := kubeconfigs[unused := kubeconfig];
      Took(s, [], s, RegisterRow(unused, name, Some(id)), Stored());
      acts := [] + [RegisterRow(unused, name, Some(id))];
      ReachableRows(s, acts);
      c := if readFault then None else Some(unused);
    }

    // Its own cluster of that name, and failing that the one it stands on.
    method ResolveOrgSelectableCluster(id: OrgID, name: string) returns (found: Option<ClusterID>)
      requires Valid() && id in orgs
      ensures match found
              case Some(c) =>
                && c in rows && rows[c].name == name && Selectable(Stored(), id, found)
                && (rows[c].owner == Some(id) || orgs[id].cluster == Some(c))
                && (forall o :: IsOwn(rows, id, name, o) ==> o == c)
              case None =>
                && (forall o :: !IsOwn(rows, id, name, o))
                && !(orgs[id].cluster.Some? && rows[orgs[id].cluster.value].name == name)
    {
      found := OwnByName(id, name);
      assert Selectable(Stored(), id, orgs[id].cluster);
      var current := orgs[id].cluster;
      if found.None? && current.Some? && rows[current.value].name == name {
        return current;
      }
    }

    // PUT: a kubeconfig is stored as the organization's own cluster and switched to; a name alone picks a cluster it
    // has; neither is the home cluster. `parses` is whether the kubeconfig does. What it answers success to stands on
    // the cluster asked for. An answer of failure leaves it where it stood, unless the flip had landed and what failed
    // was reloading the organization or resolving its placement for the answer; and an accepted kubeconfig stays stored
    // whatever becomes of the switch.
    method HandlePutOrgReconcilingCluster(id: OrgID, name: string, kubeconfig: Kubeconfig, parses: bool,
                                          unused: ClusterID, writeFault: bool, readFault: bool, failing: Failing)
      returns (failed: Option<Status>, ghost landed: bool, ghost acts: seq<Action>)
      requires Valid() && id in orgs && unused !in rowIDs
      modifies this
      ensures Valid() && Run(Step, old(Stored()), acts) == Some(Stored()) && id in orgs
      ensures kubeconfig == "" ==> forall target | AsksFor(old(Stored()), id, name, target) ::
                && (landed <==> GetsMoved(old(Stored()), id, target, failing))
                && (failed.None? <==> GetsAnswered(old(Stored()), id, target, failing) && !failing.answer)
                && (failed.Some? ==> if GetsAnswered(old(Stored()), id, target, failing) then failed == Some(Internal)
                                     else FailsWith(old(Stored()), id, target, failing, failed.value))
                && (failed.None? || landed ==> orgs[id].cluster == target)
      ensures kubeconfig == "" && (forall target :: !AsksFor(old(Stored()), id, name, target)) ==>
                failed == Some(NotFound) && !landed && Stored() == old(Stored())
      ensures var own, stored := if name == "" then old(orgs)[id].ns else name,
                                 old(Stored()).(rows := rows, rowIDs := rowIDs);
              kubeconfig != "" ==>
                && (!parses || !IsLabel(own) ==> failed == Some(BadRequest) && !landed && stored == old(Stored()))
                && (parses && IsLabel(own) && (writeFault || readFault) ==> failed == Some(Internal) && !landed)
                && (parses && IsLabel(own) && !writeFault && !readFault ==>
                      forall c | IsOwn(rows, id, own, c) ::
                        && (landed <==> GetsMoved(stored, id, Some(c), failing))
                        && (failed.None? <==> GetsAnswered(stored, id, Some(c), failing) && !failing.answer)
                        && (failed.Some? ==> if GetsAnswered(stored, id, Some(c), failing) then failed == Some(Internal)
                                             else FailsWith(stored, id, Some(c), failing, failed.value))
                        && (failed.None? || landed ==> orgs[id].cluster == Some(c)))
      ensures landed <==> orgs[id].cluster != old(orgs)[id].cluster
      ensures landed ==> Switched(old(Stored()).(rows := rows, rowIDs := rowIDs), id, orgs[id].cluster, true, Stored())
      ensures var own := if name == "" then old(orgs)[id].ns else name;
              if kubeconfig != "" && parses && IsLabel(own) && !writeFault
              then exists c :: IsOwn(rows, id, own, c) && kubeconfigs == old(kubeconfigs)[c := kubeconfig]
                               && rows == if c == unused then old(rows)[unused := Row(own, Some(id))] else old(rows)
              else rows == old(rows) && kubeconfigs == old(kubeconfigs)
      ensures old(orgs)[id].migrating ==> failed.Some? && orgs == old(orgs) && objects == old(objects)
    {
      acts, landed := [], false;
      if kubeconfig != "" {
        var own := if name == "" then orgs[id].ns else name;
        failed, landed, acts := PutKubeconfig(id, own, kubeconfig, parses, unused, writeFault, readFault, failing);
      } else {
        failed, landed, acts := PutName(id, name, failing);
      }
      failed := WriteOrgPlacement(failed, failing.answer);
    }

    // The answer to a switch.
    method WriteOrgPlacement(failed: Option<Status>, fault: bool) returns (answer: Option<Status>)
      ensures answer == if failed.None? && fault then Some(Internal) else failed
    {
      answer := if failed.None? && fault then Some(Internal) else failed;
    }

    // A name alone, or none.
    method PutName(id: OrgID, name: string, failing: Failing)
      returns (failed: Option<Status>, ghost landed: bool, ghost acts: seq<Action>)
      requires Valid() && id in orgs
      modifies this`orgs, this`objects, this`jobs
      ensures Valid() && Run(Step, old(Stored()), acts) == Some(Stored()) && id in orgs
      ensures forall target | AsksFor(old(Stored()), id, name, target) ::
                && (landed <==> GetsMoved(old(Stored()), id, target, failing))
                && (failed.None? <==> GetsAnswered(old(Stored()), id, target, failing))
                && (failed.Some? ==> FailsWith(old(Stored()), id, target, failing, failed.value))
                && (failed.None? || landed ==> orgs[id].cluster == target)
      ensures (forall target :: !AsksFor(old(Stored()), id, name, target)) ==>
                failed == Some(NotFound) && !landed && Stored() == old(Stored())
      ensures landed <==> orgs[id].cluster != old(orgs)[id].cluster
      ensures landed ==> Switched(old(Stored()), id, orgs[id].cluster, true, Stored())
      ensures old(orgs)[id].migrating ==> failed.Some? && orgs == old(orgs) && objects == old(objects)
    {
      var target := None;
      if name != "" {
        target := ResolveOrgSelectableCluster(id, name);
        ResolvedIsAsked(Stored(), id, name, target);
        if target.None? {
          return Some(NotFound), false, [];
        }
      }
      assert AsksFor(Stored(), id, name, target);
      failed, landed, acts := MigrateOrganizationToTarget(id, target, failing);
    }

    method PutKubeconfig(id: OrgID, own: string, kubeconfig: Kubeconfig, parses: bool, unused: ClusterID,
                         writeFault: bool, readFault: bool, failing: Failing)
      returns (failed: Option<Status>, ghost landed: bool, ghost acts: seq<Action>)
      requires Valid() && id in orgs && unused !in rowIDs
      modifies this
      ensures Valid() && Run(Step, old(Stored()), acts) == Some(Stored()) && id in orgs
      ensures !parses || !IsLabel(own) ==> failed == Some(BadRequest) && !landed && Stored() == old(Stored())
      ensures parses && IsLabel(own) && (writeFault || readFault) ==> failed == Some(Internal) && !landed
      ensures var stored := old(Stored()).(rows := rows, rowIDs := rowIDs);
              parses && IsLabel(own) && !writeFault && !readFault ==>
                forall c | IsOwn(rows, id, own, c) ::
                  && (landed <==> GetsMoved(stored, id, Some(c), failing))
                  && (failed.None? <==> GetsAnswered(stored, id, Some(c), failing))
                  && (failed.Some? ==> FailsWith(stored, id, Some(c), failing, failed.value))
                  && (failed.None? || landed ==> orgs[id].cluster == Some(c))
      ensures landed <==> orgs[id].cluster != old(orgs)[id].cluster
      ensures landed ==> Switched(old(Stored()).(rows := rows, rowIDs := rowIDs), id, orgs[id].cluster, true, Stored())
      ensures if parses && IsLabel(own) && !writeFault
              then exists c :: IsOwn(rows, id, own, c) && kubeconfigs == old(kubeconfigs)[c := kubeconfig]
                               && rows == if c == unused then old(rows)[unused := Row(own, Some(id))] else old(rows)
              else rows == old(rows) && kubeconfigs == old(kubeconfigs)
      ensures old(orgs)[id].migrating ==> failed.Some? && orgs == old(orgs) && objects == old(objects)
    {
      acts, landed := [], false;
      if !IsLabel(own) || !parses {
        return Some(BadRequest), landed, acts;
      }
      ghost var s := Stored();
      var c, stored, first := UpsertOrgReconcilingCluster(id, own, kubeconfig, unused, writeFault, readFault);
      if c.None? {
        return Some(Internal), landed, first;
      }
      ghost var more;
      failed, landed, more := MigrateOrganizationToTarget(id, c, failing);
      Continued(Step, s, first, more);
      acts := first + more;
      assert IsOwn(rows, id, own, c.value);
    }

    // DELETE of the placement: back to the home cluster, or where it stood; answered with failure, it is at home only
    // if what failed came after the flip.
    method HandleDeleteOrgReconcilingCluster(id: OrgID, failing: Failing)
      returns (failed: Option<Status>, ghost landed: bool, ghost acts: seq<Action>)
      requires Valid() && id in orgs
      modifies this`orgs, this`objects, this`jobs
      ensures Valid() && Run(Step, old(Stored()), acts) == Some(Stored()) && id in orgs
      ensures landed <==> GetsMoved(old(Stored()), id, None, failing)
      ensures failed.None? <==> GetsAnswered(old(Stored()), id, None, failing) && !failing.answer
      ensures failed.Some? ==> if GetsAnswered(old(Stored()), id, None, failing) then failed == Some(Internal)
                               else FailsWith(old(Stored()), id, None, failing, failed.value)
      ensures orgs[id].cluster == if failed.None? || landed then None else old(orgs)[id].cluster
      ensures landed ==> Switched(old(Stored()), id, None, true, Stored()) && old(orgs)[id].cluster.Some?
    {
      failed, landed, acts := MigrateOrganizationToTarget(id, None, failing);
      failed := WriteOrgPlacement(failed, failing.answer);
    }

    // DELETE of one of its clusters, never the one it stands on; and nobody else can stand on it.
    method HandleRemoveOrgReconcilingCluster(id: OrgID, name: string, fault: bool)
      returns (failed: Option<Status>, ghost acts: seq<Action>)
      requires Valid() && id in orgs
      modifies this`rows, this`kubeconfigs
      ensures Valid() && Run(Step, old(Stored()), acts) == Some(Stored())
      ensures failed == if forall c :: !IsOwn(old(rows), id, name, c) then Some(NotFound)
                        else if orgs[id].cluster.Some? && IsOwn(old(rows), id, name, orgs[id].cluster.value)
                        then Some(Conflict)
                        else if fault then Some(Internal) else None
      ensures if failed.None? then (forall c :: !IsOwn(rows, id, name, c))
                                   && exists c :: IsOwn(old(rows), id, name, c) && rows == old(rows) - {c}
                                                  && kubeconfigs == old(kubeconfigs) - {c}
              else rows == old(rows) && kubeconfigs == old(kubeconfigs)
    {
      acts := [];
      var found := OwnByName(id, name);
      if found.None? {
        return Some(NotFound), [];
      }
      var c := found.value;
      if orgs[id].cluster == found {
        return Some(Conflict), [];
      }
      if fault {
        return Some(Internal), [];
      }
      ghost var s := Stored();
      OwnersStandOnTheirOwn(s, id, c);
      rows := rows - {c};
      kubeconfigs := kubeconfigs - {c};
      Took(s, [], s, RemoveRow(id, c), Stored());
      acts := [] + [RemoveRow(id, c)];
      ReachableRows(s, acts);
      return None, acts;
    }
  }
}
