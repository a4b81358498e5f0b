/**
What a migration delivers (internal/api/organizations.go, internal/migrate/migrate.go): the objects of the
tenant's namespace on the old and the new cluster, step by step and at the end, with every other handler and the
controllers beside it.
 */
module Migration {
  import opened Wrappers
  import opened Runs
  import opened Organizations
  import opened Placement

  // ---- The outcome, said without the passes ----

  // A ClusterDefinition right after its copy, before the label pass.
  function Unlabelled(src: Option<Object>, there: Option<Object>): Option<Object> {
    if src.None? || there.Some? then there else Some(Carried(ClusterDefinition, src.value).(labels := map[]))
  }

  // The destination's object of one key after a whole migration, from what both clusters held before it.
  function Merged(kind: Kind, src: Option<Object>, there: Option<Object>): Option<Object> {
    if src.None? then there
    else if there.None? then Some(Carried(kind, src.value))
    else if kind.ClusterDefinition? then Some(there.value.(labels := src.value.labels))
    else there
  }

  // The same when the source changed meanwhile: `listed` is what it held when the kind's pass listed it, `relisted`
  // when the label pass did.
  function Arrived(kind: Kind, listed: Option<Object>, relisted: Option<Object>, there: Option<Object>): Option<Object>
  {
    if !kind.ClusterDefinition? then Merged(kind, listed, there)
    else
      var base := Unlabelled(listed, there);
      if base.None? || relisted.None? then base else Some(base.value.(labels := relisted.value.labels))
  }

  function Rank(p: Pass): nat {
    match p
    case CopyClusters => 0
    case CopyLabels => 1
    case CopyTemplates => 2
    case CopyWorkflows => 3
    case CopyResources => 4
    case Copied => 5
  }

  function PassOf(kind: Kind): Pass {
    match kind
    case ClusterDefinition => CopyClusters
    case Template => CopyTemplates
    case Workflow => CopyWorkflows
    case Resource => CopyResources
  }

  // What pass p listed under key.
  function Snap(j: Job, p: Pass, key: Key): Option<Object> {
    if p in j.snaps then Get(j.snaps[p], key) else None
  }

  // The destination's object of one key while the migration stands in a pass with `todo` left.
  function Expected(j: Job, key: Key, there: Option<Object>): Option<Object> {
    var own := PassOf(key.kind);
    if Rank(j.pass) < Rank(own) || (j.pass == own && key in j.todo) then there
    else if key.kind.ClusterDefinition? && (j.pass.CopyClusters? || (j.pass.CopyLabels? && key in j.todo))
      then Unlabelled(Snap(j, own, key), there)
    else Arrived(key.kind, Snap(j, own, key), Snap(j, CopyLabels, key), there)
  }

  // ---- What holds of every migration ----

  // What is left to do is of the namespace and the pass's kind, as the pass's listing has it.
  ghost predicate Listed(j: Job, key: Key) {
    key in j.todo ==>
      key.ns == j.ns && !j.pass.Copied? && key.kind == KindOf(j.pass) && Snap(j, j.pass, key) == Some(j.todo[key])
  }

  ghost predicate TodoInv(j: Job) {
    forall key: Key :: Listed(j, key)
  }

  ghost predicate CourseInv(s: State) {
    RowsInv(s) && forall j <- s.jobs :: TodoInv(s.jobs[j])
  }

  lemma ListedOnTodo(j: Job, key: Key)
    requires TodoInv(j) && key in j.todo
    ensures key.ns == j.ns && !j.pass.Copied? && key.kind == KindOf(j.pass)
    ensures Snap(j, j.pass, key) == Some(j.todo[key])
  {
    assert Listed(j, key);
  }

  lemma InPassListed(objects: map<At, Object>, j: Job, p: Pass)
    ensures TodoInv(InPass(j, p, TodoOf(p, objects, j.src, j.ns)))
  {
  }

  lemma NewJobListed(s: State, id: OrgID, target: Option<ClusterID>)
    requires id in s.orgs
    ensures TodoInv(NewJob(s, id, target))
  {
  }

  // Every other step leaves a job's pass, its listings and what is left of them alone.
  lemma OthersLeaveTheJob(t: State, a: Action, id: OrgID)
    requires Enabled(t, a) && id in t.jobs && !Ends(a, id)
    requires !((a.Start? || a.CopyNext? || a.NextPass?) && a.id == id)
    ensures id in Apply(t, a).jobs && Apply(t, a).jobs[id] == t.jobs[id].(failed := Apply(t, a).jobs[id].failed)
  {
  }

  // What one copied key leaves of its job and of the destination.
  lemma CopyTakesOne(s: State, id: OrgID, key: Key)
    requires Enabled(s, CopyNext(id, key))
    ensures var t, j := Apply(s, CopyNext(id, key)), s.jobs[id];
            var at := At(Place(j.target), key);
            && id in t.jobs && t.jobs[id] == j.(todo := j.todo - {key})
            && Get(t.objects, at) == CopiedObject(j.pass, j.todo[key], Get(s.objects, at))
  {
  }

  lemma FewerStayListed(j: Job, k: Job)
    requires TodoInv(j) && k == j.(todo := k.todo, failed := k.failed)
    requires forall key <- k.todo :: key in j.todo && j.todo[key] == k.todo[key]
    ensures TodoInv(k)
  {
    forall key: Key ensures Listed(k, key) {
      assert Listed(j, key);
    }
  }

  lemma NextPassIs(s: State, id: OrgID)
    requires Enabled(s, NextPass(id))
    ensures var t, j := Apply(s, NextPass(id)), s.jobs[id];
            var p := After(j.pass);
            id in t.jobs && t.jobs[id] == InPass(j, p, TodoOf(p, s.objects, j.src, j.ns)) && t.objects == s.objects
  {
  }

  lemma StartIs(s: State, id: OrgID, target: Option<ClusterID>)
    requires Enabled(s, Start(id, target))
    ensures var t := Apply(s, Start(id, target));
            id in t.jobs && t.jobs[id] == NewJob(s, id, target) && t.objects == s.objects
  {
  }

  lemma StepKeepsListed(s: State, a: Action, id: OrgID)
    requires Enabled(s, a) && id in Apply(s, a).jobs
    requires id in s.jobs ==> TodoInv(s.jobs[id])
    ensures TodoInv(Apply(s, a).jobs[id])
  {
    if a.Start? && a.id == id {
      StartIs(s, id, a.target);
      NewJobListed(s, id, a.target);
    } else {
      JobComesFrom(s, a, id);
      if a.NextPass? && a.id == id {
        NextPassIs(s, id);
        InPassListed(s.objects, s.jobs[id], After(s.jobs[id].pass));
      } else {
        if a.CopyNext? && a.id == id {
          CopyTakesOne(s, id, a.key);
        } else {
          OthersLeaveTheJob(s, a, id);
        }
        FewerStayListed(s.jobs[id], Apply(s, a).jobs[id]);
      }
    }
  }

  lemma StepKeepsCourse(s: State, a: Action)
    requires Enabled(s, a) && CourseInv(s)
    ensures CourseInv(Apply(s, a))
  {
    StepKeepsRows(s, a);
    var t := Apply(s, a);
    forall j <- t.jobs ensures TodoInv(t.jobs[j]) {
      StepKeepsListed(s, a, j);
    }
  }

  // Where some run from a state with no migration under way ends.
  ghost predicate Reachable(s: State) {
    exists s0: State, acts :: Init(s0) && Run(Step, s0, acts) == Some(s)
  }

  lemma {:induction false} ReachableCourse(s: State)
    requires Reachable(s)
    ensures CourseInv(s)
  {
    forall t, a | CourseInv(t) && Step(t, a).Some? ensures CourseInv(Step(t, a).value) {
      StepKeepsCourse(t, a);
    }
    var s0, acts :| Init(s0) && Run(Step, s0, acts) == Some(s);
    Invariant(Step, CourseInv, s0, acts);
  }

  lemma ReachableOn(s: State, acts: seq<Action>, t: State)
    requires Reachable(s) && Run(Step, s, acts) == Some(t)
    ensures Reachable(t)
  {
    var s0, first :| Init(s0) && Run(Step, s0, first) == Some(s);
    Continued(Step, s0, first, acts);
  }

  // ---- One key ----

  // The destination's object of key is, in t, what the migration should have made of it by then, from `before`.
  ghost predicate AtDestination(before: map<At, Object>, t: State, id: OrgID, key: Key)
    requires id in t.jobs
  {
    var at := At(Place(t.jobs[id].target), key);
    Get(t.objects, at) == Expected(t.jobs[id], key, Get(before, at))
  }

  // Every listing of the key's kind taken so far found it so.
  ghost predicate ListedAs(j: Job, key: Key, was: Option<Object>) {
    && (Rank(PassOf(key.kind)) <= Rank(j.pass) ==> Snap(j, PassOf(key.kind), key) == was)
    && (key.kind.ClusterDefinition? && Rank(CopyLabels) <= Rank(j.pass) ==> Snap(j, CopyLabels, key) == was)
  }

  // The source's object of key is as it was before, and every listing of its kind says so.
  ghost predicate AtSource(before: map<At, Object>, t: State, id: OrgID, key: Key)
    requires id in t.jobs
  {
    var at := At(t.jobs[id].src, key);
    Get(t.objects, at) == Get(before, at) && ListedAs(t.jobs[id], key, Get(before, at))
  }

  // What an action does to the object of one key at one place.
  ghost predicate Touches(s: State, a: Action, l: Location, key: Key) {
    match a
    case CopyNext(id, k) => k == key && id in s.jobs && l == Place(s.jobs[id].target)
    case Terminate(at) => at == At(l, key)
    case Request(k, _, _) => k == key && l == Route(s, key.ns)
    case Mark(at) => at == At(l, key)
    case Reap(at) => at == At(l, key)
    case _ => false
  }

  lemma OthersDoNotTouch(s: State, a: Action, l: Location, key: Key)
    requires Enabled(s, a) && !Touches(s, a, l, key)
    ensures Get(Apply(s, a).objects, At(l, key)) == Get(s.objects, At(l, key))
  {
  }

  // The key just copied is where the pass leaves it.
  lemma CopiedAsExpected(j: Job, key: Key, there: Option<Object>)
    requires TodoInv(j) && key in j.todo && !j.pass.Copied?
    requires CopiedObject(j.pass, j.todo[key], Expected(j, key, there)).Some?
    ensures CopiedObject(j.pass, j.todo[key], Expected(j, key, there))
            == Expected(j.(todo := j.todo - {key}), key, there)
  {
    ListedOnTodo(j, key);
  }

  lemma OtherKeysExpectTheSame(j: Job, key: Key, other: Key, there: Option<Object>)
    requires key != other
    ensures Expected(j.(todo := j.todo - {other}), key, there) == Expected(j, key, there)
  {
  }

  lemma NextPassExpectsTheSame(j: Job, objects: map<At, Object>, key: Key, there: Option<Object>)
    requires j.todo == map[] && !j.pass.Copied? && key.ns == j.ns
    ensures Expected(InPass(j, After(j.pass), TodoOf(After(j.pass), objects, j.src, j.ns)), key, there)
            == Expected(j, key, there)
  {
  }

  lemma SameJobExpectsTheSame(j: Job, k: Job, key: Key, there: Option<Object>)
    requires k == j.(failed := k.failed)
    ensures Expected(k, key, there) == Expected(j, key, there)
  {
  }

  // A step that does not touch the key's place leaves it where it is expected, its own job's or another's.
  lemma UntouchedAtDestination(before: map<At, Object>, t: State, id: OrgID, a: Action, key: Key)
    requires Enabled(t, a) && id in t.jobs && t.jobs[id].ns == key.ns && AtDestination(before, t, id, key)
    requires !Ends(a, id) && !(a.Start? && a.id == id) && !Touches(t, a, Place(t.jobs[id].target), key)
    requires a.CopyNext? && a.id == id ==> a.key != key
    ensures id in Apply(t, a).jobs && AtDestination(before, Apply(t, a), id, key)
  {
    var j, there := t.jobs[id], Get(before, At(Place(t.jobs[id].target), key));
    OthersDoNotTouch(t, a, Place(j.target), key);
    if a.NextPass? && a.id == id {
      NextPassIs(t, id);
      NextPassExpectsTheSame(j, t.objects, key, there);
    } else if a.CopyNext? && a.id == id {
      CopyTakesOne(t, id, a.key);
      OtherKeysExpectTheSame(j, key, a.key, there);
    } else {
      OthersLeaveTheJob(t, a, id);
      SameJobExpectsTheSame(j, Apply(t, a).jobs[id], key, there);
    }
  }

  lemma CopiedAtDestination(before: map<At, Object>, t: State, id: OrgID, key: Key)
    requires Enabled(t, CopyNext(id, key)) && TodoInv(t.jobs[id]) && AtDestination(before, t, id, key)
    ensures var u := Apply(t, CopyNext(id, key)); id in u.jobs && AtDestination(before, u, id, key)
  {
    CopyTakesOne(t, id, key);
    CopiedAsExpected(t.jobs[id], key, Get(before, At(Place(t.jobs[id].target), key)));
  }

  lemma NextPassListsAs(j: Job, objects: map<At, Object>, key: Key, was: Option<Object>)
    requires ListedAs(j, key, was) && j.ns == key.ns && !j.pass.Copied? && Get(objects, At(j.src, key)) == was
    ensures ListedAs(InPass(j, After(j.pass), TodoOf(After(j.pass), objects, j.src, j.ns)), key, was)
  {
  }

  lemma SameJobListsTheSame(j: Job, k: Job, key: Key, was: Option<Object>)
    requires k == j.(failed := k.failed, todo := k.todo)
    ensures ListedAs(k, key, was) == ListedAs(j, key, was)
  {
  }

  // A step that leaves the source's object as it is leaves every listing of it true.
  lemma UntouchedAtSource(before: map<At, Object>, t: State, id: OrgID, a: Action, key: Key)
    requires Enabled(t, a) && id in t.jobs && t.jobs[id].ns == key.ns && AtSource(before, t, id, key)
    requires !Ends(a, id) && !(a.Start? && a.id == id)
    requires Get(Apply(t, a).objects, At(t.jobs[id].src, key)) == Get(t.objects, At(t.jobs[id].src, key))
    ensures id in Apply(t, a).jobs && AtSource(before, Apply(t, a), id, key)
  {
    var j, was := t.jobs[id], Get(before, At(t.jobs[id].src, key));
    if a.NextPass? && a.id == id {
      NextPassIs(t, id);
      NextPassListsAs(j, t.objects, key, was);
    } else {
      if a.CopyNext? && a.id == id {
        CopyTakesOne(t, id, a.key);
      } else {
        OthersLeaveTheJob(t, a, id);
      }
      SameJobListsTheSame(j, Apply(t, a).jobs[id], key, was);
    }
  }

  // ---- A copy left to itself ----

  // The copy's own steps.
  predicate Copies(a: Action, id: OrgID) {
    (a.CopyNext? || a.NextPass? || a.FailCopy?) && a.id == id
  }

  // Nothing but the copy has happened to the namespace's keys since `before`, on either cluster.
  ghost predicate Undisturbed(before: map<At, Object>, t: State, id: OrgID) {
    && id in t.jobs && TodoInv(t.jobs[id])
    && forall key: Key | key.ns == t.jobs[id].ns :: AtDestination(before, t, id, key) && AtSource(before, t, id, key)
  }

  lemma StartsAtBoth(s: State, id: OrgID, target: Option<ClusterID>, key: Key)
    requires Enabled(s, Start(id, target)) && key.ns == s.orgs[id].ns
    ensures var t := Apply(s, Start(id, target));
            id in t.jobs && AtDestination(s.objects, t, id, key) && AtSource(s.objects, t, id, key)
  {
    StartIs(s, id, target);
  }

  lemma StartsUndisturbed(s: State, id: OrgID, target: Option<ClusterID>)
    requires Enabled(s, Start(id, target))
    ensures Undisturbed(s.objects, Apply(s, Start(id, target)), id)
  {
    StartIs(s, id, target);
    NewJobListed(s, id, target);
    var t := Apply(s, Start(id, target));
    forall key: Key | key.ns == t.jobs[id].ns
      ensures AtDestination(s.objects, t, id, key) && AtSource(s.objects, t, id, key)
    {
      StartsAtBoth(s, id, target, key);
    }
  }

  // A copy onto its own source changes nothing.
  lemma SelfCopyIsNothing(j: Job, key: Key, was: Option<Object>)
    requires ListedAs(j, key, was)
    ensures Expected(j, key, was) == was
  {
  }

  lemma CopyStepAtDestination(before: map<At, Object>, t: State, id: OrgID, a: Action, key: Key)
    requires Enabled(t, a) && Copies(a, id) && TodoInv(t.jobs[id]) && key.ns == t.jobs[id].ns
    requires AtDestination(before, t, id, key)
    ensures id in Apply(t, a).jobs && AtDestination(before, Apply(t, a), id, key)
  {
    if a == CopyNext(id, key) {
      CopiedAtDestination(before, t, id, key);
    } else {
      UntouchedAtDestination(before, t, id, a, key);
    }
  }

  // The source keeps its object: it is another cluster, or the copy puts there what is there.
  lemma CopyStepLeavesSource(before: map<At, Object>, t: State, id: OrgID, a: Action, key: Key)
    requires Enabled(t, a) && Copies(a, id) && TodoInv(t.jobs[id]) && key.ns == t.jobs[id].ns
    requires AtDestination(before, t, id, key) && AtSource(before, t, id, key)
    ensures Get(Apply(t, a).objects, At(t.jobs[id].src, key)) == Get(t.objects, At(t.jobs[id].src, key))
  {
    var j, was := t.jobs[id], Get(before, At(t.jobs[id].src, key));
    if a == CopyNext(id, key) && j.src == Place(j.target) {
      CopyTakesOne(t, id, key);
      CopiedAsExpected(j, key, was);
      SameJobListsTheSame(j, j.(todo := j.todo - {key}), key, was);
      SelfCopyIsNothing(j.(todo := j.todo - {key}), key, was);
    } else {
      OthersDoNotTouch(t, a, j.src, key);
    }
  }

  lemma CopyStepStaysAtBoth(before: map<At, Object>, t: State, id: OrgID, a: Action, key: Key)
    requires Enabled(t, a) && Copies(a, id) && TodoInv(t.jobs[id]) && key.ns == t.jobs[id].ns
    requires AtDestination(before, t, id, key) && AtSource(before, t, id, key)
    ensures id in Apply(t, a).jobs
    ensures AtDestination(before, Apply(t, a), id, key) && AtSource(before, Apply(t, a), id, key)
  {
    CopyStepAtDestination(before, t, id, a, key);
    CopyStepLeavesSource(before, t, id, a, key);
    UntouchedAtSource(before, t, id, a, key);
  }

  // What a copy's step leaves of its job and of everything else.
  lemma CopyStepKeeps(t: State, a: Action, id: OrgID)
    requires Enabled(t, a) && Copies(a, id)
    ensures var u := Apply(t, a);
            && id in u.jobs && u == t.(objects := u.objects, jobs := t.jobs[id := u.jobs[id]])
            && u.jobs[id].ns == t.jobs[id].ns && u.jobs[id].target == t.jobs[id].target
            && u.jobs[id].src == t.jobs[id].src
  {
  }

  lemma StepStaysUndisturbed(before: map<At, Object>, t: State, id: OrgID, a: Action)
    requires Undisturbed(before, t, id) && Enabled(t, a) && Copies(a, id)
    ensures Undisturbed(before, Apply(t, a), id)
  {
    CopyStepKeeps(t, a, id);
    StepKeepsListed(t, a, id);
    forall key: Key | key.ns == t.jobs[id].ns
      ensures AtDestination(before, Apply(t, a), id, key) && AtSource(before, Apply(t, a), id, key)
    {
      CopyStepStaysAtBoth(before, t, id, a, key);
    }
  }

  // The objects a copy may change.
  predicate CopyReaches(j: Job, at: At) {
    at.location == Place(j.target) && at.key.ns == j.ns
  }

  lemma CopyStepLeavesOthers(t: State, a: Action, id: OrgID, at: At)
    requires Enabled(t, a) && Copies(a, id) && TodoInv(t.jobs[id]) && !CopyReaches(t.jobs[id], at)
    ensures Get(Apply(t, a).objects, at) == Get(t.objects, at)
  {
    if a.CopyNext? {
      ListedOnTodo(t.jobs[id], a.key);
    }
    OthersDoNotTouch(t, a, at.location, at.key);
  }

  // What a copy's steps leave of everything else, and that none of them ends the migration.
  lemma {:induction false} CopyRunKeeps(t: State, acts: seq<Action>, id: OrgID)
    requires id in t.jobs && Run(Step, t, acts).Some? && forall a <- acts :: Copies(a, id)
    ensures var u := Run(Step, t, acts).value;
            && id in u.jobs && u == t.(objects := u.objects, jobs := t.jobs[id := u.jobs[id]])
            && u.jobs[id].ns == t.jobs[id].ns && u.jobs[id].target == t.jobs[id].target
            && u.jobs[id].src == t.jobs[id].src
  {
    if acts == [] {
      assert t.jobs[id := t.jobs[id]] == t.jobs;
    } else {
      var n := |acts| - 1;
      assert acts[n] in acts && forall a <- acts[..n] :: a in acts;
      CopyRunKeeps(t, acts[..n], id);
      var u := Run(Step, t, acts[..n]).value;
      CopyStepKeeps(u, acts[n], id);
      OnlyTheJob(t, u, Apply(u, acts[n]), id);
    }
  }

  lemma OnlyTheJob(s: State, u: State, t: State, id: OrgID)
    requires id in u.jobs && id in t.jobs && u == s.(objects := u.objects, jobs := s.jobs[id := u.jobs[id]])
    requires t == u.(objects := t.objects, jobs := u.jobs[id := t.jobs[id]])
    ensures t == s.(objects := t.objects, jobs := s.jobs[id := t.jobs[id]])
  {
    assert u.jobs[id := t.jobs[id]] == s.jobs[id := t.jobs[id]];
  }

  lemma {:induction false} CopiesStayUndisturbed(before: map<At, Object>, t: State, acts: seq<Action>, id: OrgID)
    requires Undisturbed(before, t, id) && Run(Step, t, acts).Some? && forall a <- acts :: Copies(a, id)
    ensures Undisturbed(before, Run(Step, t, acts).value, id)
  {
    if acts != [] {
      var n := |acts| - 1;
      assert acts[n] in acts && forall a <- acts[..n] :: a in acts;
      CopiesStayUndisturbed(before, t, acts[..n], id);
      StepStaysUndisturbed(before, Run(Step, t, acts[..n]).value, id, acts[n]);
    }
  }

  lemma {:induction false} CopiesLeaveOthers(t: State, acts: seq<Action>, id: OrgID, at: At)
    requires id in t.jobs && TodoInv(t.jobs[id]) && !CopyReaches(t.jobs[id], at)
    requires Run(Step, t, acts).Some? && forall a <- acts :: Copies(a, id)
    ensures Get(Run(Step, t, acts).value.objects, at) == Get(t.objects, at)
    ensures var u := Run(Step, t, acts).value;
            id in u.jobs && TodoInv(u.jobs[id]) && !CopyReaches(u.jobs[id], at)
  {
    if acts != [] {
      var n := |acts| - 1;
      assert acts[n] in acts && forall a <- acts[..n] :: a in acts;
      CopiesLeaveOthers(t, acts[..n], id, at);
      var u := Run(Step, t, acts[..n]).value;
      CopyStepLeavesOthers(u, acts[n], id, at);
      CopyStepKeeps(u, acts[n], id);
      StepKeepsListed(u, acts[n], id);
    }
  }

  // No key of a listing is then ever in the way: where the label pass needs an object, the copy pass has put one.
  lemma NextKeyCopies(before: map<At, Object>, t: State, id: OrgID, key: Key)
    requires Undisturbed(before, t, id) && !t.jobs[id].failed && key in t.jobs[id].todo
    ensures !t.jobs[id].pass.Copied? && Enabled(t, CopyNext(id, key))
  {
    ListedOnTodo(t.jobs[id], key);
    assert AtDestination(before, t, id, key) && AtSource(before, t, id, key);
  }

  // The measure of what is left to copy.
  predicate Nearer(j: Job, k: Job) {
    Rank(k.pass) > Rank(j.pass) || (k.pass == j.pass && k.todo.Keys < j.todo.Keys)
  }

  lemma CopyStepMoves(s: State, a: Action, id: OrgID)
    requires Enabled(s, a) && (a.NextPass? || a.CopyNext?) && a.id == id
    ensures var t := Apply(s, a);
            id in t.jobs && t.jobs[id].failed == s.jobs[id].failed && Nearer(s.jobs[id], t.jobs[id])
  {
  }

  lemma NextCopyStep(before: map<At, Object>, t: State, id: OrgID) returns (a: Action, u: State)
    requires Undisturbed(before, t, id) && !t.jobs[id].failed && !t.jobs[id].pass.Copied?
    ensures Step(t, a) == Some(u) && Copies(a, id) && Undisturbed(before, u, id)
    ensures !u.jobs[id].failed && Nearer(t.jobs[id], u.jobs[id])
  {
    if key :| key in t.jobs[id].todo {
      NextKeyCopies(before, t, id, key);
      a := CopyNext(id, key);
    } else {
      a := NextPass(id);
    }
    u := Apply(t, a);
    CopyStepMoves(t, a, id);
    StepStaysUndisturbed(before, t, id, a);
  }

  // A step and a run after it.
  lemma First(s: State, a: Action, u: State, rest: seq<Action>) returns (acts: seq<Action>)
    requires Step(s, a) == Some(u)
    ensures acts == [a] + rest && Run(Step, s, acts) == Run(Step, u, rest)
  {
    Then(Step, s, [], a);
    acts := [] + [a];
    Continued(Step, s, acts, rest);
    acts := acts + rest;
  }

  // So a copy can always be finished.
  lemma CopyCanFinish(before: map<At, Object>, t: State, id: OrgID) returns (acts: seq<Action>, u: State)
    requires Undisturbed(before, t, id) && !t.jobs[id].failed
    ensures Run(Step, t, acts) == Some(u) && (forall a <- acts :: Copies(a, id))
    ensures Undisturbed(before, u, id) && !u.jobs[id].failed && u.jobs[id].pass.Copied?
    decreases 5 - Rank(t.jobs[id].pass), t.jobs[id].todo.Keys
  {
    if t.jobs[id].pass.Copied? {
      return [], t;
    }
    var a, next := NextCopyStep(before, t, id);
    var rest;
    rest, u := CopyCanFinish(before, next, id);
    acts := First(t, a, next, rest);
  }

  lemma UnchangedArrivesMerged(j: Job, key: Key, was: Option<Object>, there: Option<Object>)
    requires j.pass.Copied? && ListedAs(j, key, was)
    ensures Expected(j, key, there) == Merged(key.kind, was, there)
  {
  }

  // And finished it has merged the one cluster into the other.
  lemma CopiedMerges(before: map<At, Object>, t: State, id: OrgID, key: Key)
    requires Undisturbed(before, t, id) && t.jobs[id].pass.Copied? && key.ns == t.jobs[id].ns
    ensures var j := t.jobs[id];
            && Get(t.objects, At(Place(j.target), key))
               == Merged(key.kind, Get(before, At(j.src, key)), Get(before, At(Place(j.target), key)))
            && Get(t.objects, At(j.src, key)) == Get(before, At(j.src, key))
  {
    assert AtDestination(before, t, id, key) && AtSource(before, t, id, key);
    UnchangedArrivesMerged(t.jobs[id], key, Get(before, At(t.jobs[id].src, key)),
                           Get(before, At(Place(t.jobs[id].target), key)));
  }

  // Wherever it stops, it has lost nothing of what was at the destination, nor changed more of it than labels.
  lemma CopyLosesNothing(before: map<At, Object>, t: State, id: OrgID, key: Key)
    requires Undisturbed(before, t, id) && key.ns == t.jobs[id].ns
    requires At(Place(t.jobs[id].target), key) in before
    ensures var at := At(Place(t.jobs[id].target), key);
            at in t.objects && t.objects[at] == before[at].(labels := t.objects[at].labels)
  {
    assert AtDestination(before, t, id, key);
  }

  // ---- One clean migration, from s ----

  ghost predicate Alive(t: State, id: OrgID) {
    id in t.orgs && !t.orgs[id].pendingDeletion
  }

  // The migration of tenant id that began in s, a clean start, and stands in t.
  ghost predicate UnderWay(s: State, id: OrgID, target: Option<ClusterID>, t: State) {
    && CourseInv(s) && Enabled(s, Start(id, target)) && CleanStart(s, id)
    && CourseInv(t) && t.config == s.config && id in t.jobs
    && t.jobs[id].ns == s.orgs[id].ns && t.jobs[id].target == target && t.jobs[id].src == Place(s.orgs[id].cluster)
    && (Alive(t, id) ==> t.orgs[id] == s.orgs[id].(migrating := true))
    && (forall k <- t.jobs :: k != id ==> t.jobs[k].ns != s.orgs[id].ns)
  }

  lemma StartsUnderWay(s: State, id: OrgID, target: Option<ClusterID>)
    requires CourseInv(s) && Enabled(s, Start(id, target)) && CleanStart(s, id)
    ensures UnderWay(s, id, target, Apply(s, Start(id, target)))
  {
    StepKeepsCourse(s, Start(id, target));
    NamedIsTheBearer(s, id);
  }

  // Under its lock an organization's row stays as it is, unless the organization is deleted; and that is for good.
  lemma LockedRowStays(s: State, a: Action, id: OrgID)
    requires Enabled(s, a) && RowsInv(s) && id in s.jobs && !Ends(a, id) && Alive(Apply(s, a), id)
    ensures Alive(s, id) && Apply(s, a).orgs[id] == s.orgs[id]
  {
    assert id in s.orgIDs;
  }

  // Under its lock no second migration of an organization starts.
  lemma LockedDoesNotStart(s: State, a: Action, id: OrgID)
    requires RowsInv(s) && Enabled(s, a) && id in s.jobs
    ensures !(a.Start? && a.id == id)
  {
  }

  // Only its own end takes a migration's job away.
  lemma StepKeepsJob(s: State, a: Action, id: OrgID)
    requires Enabled(s, a) && id in s.jobs && !Ends(a, id) && !(a.Start? && a.id == id)
    ensures id in Apply(s, a).jobs
    ensures var j, j' := s.jobs[id], Apply(s, a).jobs[id];
            j'.ns == j.ns && j'.target == j.target && j'.src == j.src
  {
  }

  // Nobody else begins to migrate a live organization's namespace.
  lemma OthersStayElsewhere(s: State, a: Action, id: OrgID, ns: Namespace)
    requires Enabled(s, a) && Unique(s) && id in s.orgs && s.orgs[id].ns == ns && !(a.Start? && a.id == id)
    requires forall k <- s.jobs :: k != id ==> s.jobs[k].ns != ns
    ensures forall k <- Apply(s, a).jobs :: k != id ==> Apply(s, a).jobs[k].ns != ns
  {
    if a.Start? {
      assert s.orgs[a.id].ns != ns;
    }
  }

  // A namespace is one organization's for ever: ids and namespaces of deleted ones do not matter to its jobs.
  lemma StepStaysUnderWay(s: State, id: OrgID, target: Option<ClusterID>, t: State, a: Action)
    requires UnderWay(s, id, target, t) && Enabled(t, a) && !Ends(a, id) && Alive(Apply(t, a), id)
    ensures UnderWay(s, id, target, Apply(t, a)) && Alive(t, id)
  {
    StepKeepsCourse(t, a);
    StepKeepsConfig(t, a);
    LockedDoesNotStart(t, a, id);
    StepKeepsJob(t, a, id);
    LockedRowStays(t, a, id);
    OthersStayElsewhere(t, a, id, s.orgs[id].ns);
  }

  // A controller acts on the object there.
  predicate Acts(a: Action, at: At) {
    (a.Mark? || a.Reap?) && a.at == at
  }

  // A write of key whose lock look-up failed.
  predicate Slips(a: Action, key: Key) {
    a.Request? && a.key == key && a.fault
  }

  // No controller acted on the key there.
  ghost predicate SparedAt(more: seq<Action>, l: Location, key: Key) {
    forall a <- more :: !Acts(a, At(l, key))
  }

  ghost predicate NoSlip(more: seq<Action>, key: Key) {
    forall a <- more :: !Slips(a, key)
  }

  lemma TerminatesElsewhere(t: State, id: OrgID, at: At)
    requires Unique(t) && Alive(t, id) && Enabled(t, Terminate(at))
    ensures at.key.ns != t.orgs[id].ns
  {
  }

  lemma RequestSlips(t: State, id: OrgID, key: Key, content: Option<Object>, fault: bool)
    requires Unique(t) && id in t.orgs && t.orgs[id].name == key.ns != t.config.control && t.orgs[id].migrating
    requires Enabled(t, Request(key, content, fault))
    ensures fault
  {
    NamedIsTheBearer(t, id);
  }

  lemma StaysApart(s: State, id: OrgID, target: Option<ClusterID>, t: State)
    requires UnderWay(s, id, target, t) && Alive(t, id)
    ensures Route(t, s.orgs[id].ns) == Place(s.orgs[id].cluster) && Place(target) != Place(s.orgs[id].cluster)
    ensures t.orgs[id].name == t.orgs[id].ns == s.orgs[id].ns != t.config.control && t.orgs[id].migrating
  {
    NamedIsTheBearer(t, id);
  }

  lemma OnlyOwnCopy(t: State, id: OrgID, other: OrgID, key: Key)
    requires Enabled(t, CopyNext(other, key)) && TodoInv(t.jobs[other])
    requires forall k <- t.jobs :: k != id ==> t.jobs[k].ns != key.ns
    ensures other == id
  {
    ListedOnTodo(t.jobs[other], key);
  }

  lemma WhoTouchesIn(t: State, id: OrgID, src: Location, dst: Location, a: Action, key: Key)
    requires Unique(t) && Alive(t, id) && t.orgs[id].name == t.orgs[id].ns == key.ns != t.config.control
    requires t.orgs[id].migrating && Enabled(t, a) && Route(t, key.ns) == src && src != dst
    requires id in t.jobs && Place(t.jobs[id].target) == dst
    requires forall k <- t.jobs :: k != id ==> t.jobs[k].ns != key.ns
    requires a.CopyNext? ==> TodoInv(t.jobs[a.id])
    ensures Touches(t, a, dst, key) ==> Acts(a, At(dst, key)) || a == CopyNext(id, key)
    ensures Touches(t, a, src, key) ==> Acts(a, At(src, key)) || Slips(a, key)
  {
    match a
    case CopyNext(other, k) =>
      if k == key {
        OnlyOwnCopy(t, id, other, key);
      }
    case Terminate(at) => TerminatesElsewhere(t, id, at);
    case Request(k, content, fault) =>
      if k == key {
        RequestSlips(t, id, key, content, fault);
      }
    case _ =>
  }

  // Of the tenant's keys only its own copy touches the destination, and only what slips through the lock the source,
  // besides the controllers.
  lemma WhoTouches(s: State, id: OrgID, target: Option<ClusterID>, t: State, a: Action, key: Key)
    requires UnderWay(s, id, target, t) && Alive(t, id) && Enabled(t, a) && key.ns == s.orgs[id].ns
    ensures Touches(t, a, Place(target), key) ==> Acts(a, At(Place(target), key)) || a == CopyNext(id, key)
    ensures Touches(t, a, Place(s.orgs[id].cluster), key) ==>
              Acts(a, At(Place(s.orgs[id].cluster), key)) || Slips(a, key)
  {
    StaysApart(s, id, target, t);
    WhoTouchesIn(t, id, Place(s.orgs[id].cluster), Place(target), a, key);
  }

  lemma StepAtDestination(s: State, id: OrgID, target: Option<ClusterID>, t: State, a: Action, key: Key)
    requires UnderWay(s, id, target, t) && Alive(t, id) && key.ns == s.orgs[id].ns
    requires Enabled(t, a) && !Ends(a, id) && !Acts(a, At(Place(target), key))
    requires AtDestination(s.objects, t, id, key)
    ensures id in Apply(t, a).jobs && AtDestination(s.objects, Apply(t, a), id, key)
  {
    if a == CopyNext(id, key) {
      CopiedAtDestination(s.objects, t, id, key);
    } else {
      LockedDoesNotStart(t, a, id);
      WhoTouches(s, id, target, t, a, key);
      UntouchedAtDestination(s.objects, t, id, a, key);
    }
  }

  lemma StepAtSource(s: State, id: OrgID, target: Option<ClusterID>, t: State, a: Action, key: Key)
    requires UnderWay(s, id, target, t) && Alive(t, id) && key.ns == s.orgs[id].ns
    requires Enabled(t, a) && !Ends(a, id) && !Acts(a, At(Place(s.orgs[id].cluster), key)) && !Slips(a, key)
    requires AtSource(s.objects, t, id, key)
    ensures id in Apply(t, a).jobs && AtSource(s.objects, Apply(t, a), id, key)
  {
    LockedDoesNotStart(t, a, id);
    WhoTouches(s, id, target, t, a, key);
    OthersDoNotTouch(t, a, Place(s.orgs[id].cluster), key);
    UntouchedAtSource(s.objects, t, id, a, key);
  }

  // ---- Whole migrations ----

  // What a request for key.ns sees under key, wherever resourceClient sends it.
  ghost function Read(s: State, key: Key): Option<Object> {
    Get(s.objects, At(Route(s, key.ns), key))
  }

  // Nothing of these ends the migration of id.
  ghost predicate NeverEnds(more: seq<Action>, id: OrgID) {
    forall a <- more :: !Ends(a, id)
  }

  // s starts a clean migration of tenant id; `more` is everything that happens until it is about to end in t.
  ghost predicate Moves(s: State, id: OrgID, target: Option<ClusterID>, more: seq<Action>, t: State) {
    && id in s.orgs && CleanStart(s, id)
    && Run(Step, s, [Start(id, target)] + more) == Some(t) && NeverEnds(more, id)
    && Alive(t, id)
  }

  // The same from the state with the lock.
  ghost predicate MovesFrom(s: State, id: OrgID, target: Option<ClusterID>, more: seq<Action>, t: State) {
    && Enabled(s, Start(id, target)) && CleanStart(s, id)
    && Run(Step, Apply(s, Start(id, target)), more) == Some(t) && NeverEnds(more, id)
    && Alive(t, id)
  }

  lemma MovesIff(s: State, id: OrgID, target: Option<ClusterID>, more: seq<Action>, t: State)
    ensures Moves(s, id, target, more, t) <==> MovesFrom(s, id, target, more, t)
  {
    var start := Start(id, target);
    assert [] + [start] == [start];
    Then(Step, s, [], start);
    if Run(Step, s, [start] + more).Some? {
      Begins(Step, s, [start], more);
    }
    if Enabled(s, start) {
      Continued(Step, s, [start], more);
    }
  }

  lemma {:induction false} MoveIsUnderWay(s: State, id: OrgID, target: Option<ClusterID>, more: seq<Action>, t: State)
    requires CourseInv(s) && MovesFrom(s, id, target, more, t)
    ensures UnderWay(s, id, target, t)
  {
    if more == [] {
      StartsUnderWay(s, id, target);
    } else {
      var n := |more| - 1;
      var u := Run(Step, Apply(s, Start(id, target)), more[..n]).value;
      assert more[n] in more && forall a <- more[..n] :: a in more;
      AliveBefore(s, id, target, more, t);
      MoveIsUnderWay(s, id, target, more[..n], u);
      StepStaysUnderWay(s, id, target, u, more[n]);
    }
  }

  // Who is alive at the end was so all along.
  lemma AliveBefore(s: State, id: OrgID, target: Option<ClusterID>, more: seq<Action>, t: State)
    requires CourseInv(s) && MovesFrom(s, id, target, more, t) && more != []
    ensures Alive(Run(Step, Apply(s, Start(id, target)), more[..|more| - 1]).value, id)
  {
    var n := |more| - 1;
    var u := Run(Step, Apply(s, Start(id, target)), more[..n]).value;
    assert more[n] in more;
    StepKeepsRows(s, Start(id, target));
    RunKeepsIDs(Apply(s, Start(id, target)), more[..n], id);
    AliveStepsBack(u, more[n], id);
  }

  lemma StepKeepsID(s: State, a: Action, id: OrgID)
    requires Enabled(s, a) && id in s.orgIDs
    ensures id in Apply(s, a).orgIDs
  {
  }

  lemma {:induction false} RunKeepsIDs(s: State, acts: seq<Action>, id: OrgID)
    requires id in s.orgIDs && Run(Step, s, acts).Some?
    ensures id in Run(Step, s, acts).value.orgIDs
  {
    var inv := (t: State) => id in t.orgIDs;
    forall t, a | inv(t) && Step(t, a).Some? ensures inv(Step(t, a).value) {
      StepKeepsID(t, a, id);
    }
    Invariant(Step, inv, s, acts);
  }

  lemma AliveStepsBack(s: State, a: Action, id: OrgID)
    requires Enabled(s, a) && id in s.orgIDs && Alive(Apply(s, a), id)
    ensures Alive(s, id)
  {
  }

  // A key no controller touched on the destination is there as the listings make it; if none touched it at the source
  // either, and no write of it slipped through the lock, they found it as it was.
  lemma {:induction false} MoveStandsWhereExpected(s: State, id: OrgID, target: Option<ClusterID>, more: seq<Action>,
                                                   t: State, key: Key)
    requires CourseInv(s) && MovesFrom(s, id, target, more, t) && key.ns == s.orgs[id].ns
    ensures UnderWay(s, id, target, t)
    ensures SparedAt(more, Place(target), key) ==> AtDestination(s.objects, t, id, key)
    ensures SparedAt(more, Place(s.orgs[id].cluster), key) && NoSlip(more, key) ==> AtSource(s.objects, t, id, key)
  {
    MoveIsUnderWay(s, id, target, more, t);
    if more == [] {
      StartsAtBoth(s, id, target, key);
    } else {
      var n := |more| - 1;
      var u := Run(Step, Apply(s, Start(id, target)), more[..n]).value;
      assert more[n] in more && forall a <- more[..n] :: a in more;
      AliveBefore(s, id, target, more, t);
      MoveStandsWhereExpected(s, id, target, more[..n], u, key);
      if SparedAt(more, Place(target), key) {
        StepAtDestination(s, id, target, u, more[n], key);
      }
      if SparedAt(more, Place(s.orgs[id].cluster), key) && NoSlip(more, key) {
        StepAtSource(s, id, target, u, more[n], key);
      }
    }
  }

  lemma RoutedHome(s: State, id: OrgID)
    requires Unique(s) && id in s.orgs && s.orgs[id].name == s.orgs[id].ns
    ensures Route(s, s.orgs[id].ns) == Place(s.orgs[id].cluster)
  {
    NamedIsTheBearer(s, id);
  }

  // The flip, when it lands.
  ghost predicate Lands(t: State, id: OrgID) {
    && id in t.jobs && !t.jobs[id].failed && t.jobs[id].pass.Copied?
    && (t.jobs[id].target.Some? ==> t.jobs[id].target.value in t.rows)
  }

  lemma FlipLands(s: State, id: OrgID, target: Option<ClusterID>, t: State)
    requires UnderWay(s, id, target, t) && Alive(t, id) && Lands(t, id)
    ensures var u := Apply(t, Flip(id, false));
            && u.objects == t.objects
            && id in u.orgs && u.orgs[id] == s.orgs[id].(cluster := target, migrating := false)
            && Route(u, s.orgs[id].ns) == Place(target) && !Refused(u, s.orgs[id].ns)
  {
    var u := Apply(t, Flip(id, false));
    StepKeepsRows(t, Flip(id, false));
    NamedIsTheBearer(u, id);
  }

  // At the flip every key reads as it stands on the destination.
  lemma FlipReads(s: State, id: OrgID, target: Option<ClusterID>, t: State, key: Key)
    requires UnderWay(s, id, target, t) && Alive(t, id) && Lands(t, id) && key.ns == s.orgs[id].ns
    ensures Read(Apply(t, Flip(id, false)), key) == Get(t.objects, At(Place(target), key))
  {
    FlipLands(s, id, target, t);
  }

  lemma ExpectedAtTheEnd(j: Job, key: Key, there: Option<Object>)
    requires j.pass.Copied?
    ensures Expected(j, key, there)
            == Arrived(key.kind, Snap(j, PassOf(key.kind), key), Snap(j, CopyLabels, key), there)
  {
  }

  lemma FlipReadsListed(s: State, id: OrgID, target: Option<ClusterID>, t: State, key: Key)
    requires UnderWay(s, id, target, t) && Alive(t, id) && Lands(t, id) && key.ns == s.orgs[id].ns
    requires AtDestination(s.objects, t, id, key)
    ensures var u, j := Apply(t, Flip(id, false)), t.jobs[id];
            && id in u.orgs && u.orgs[id].cluster == target && !u.orgs[id].migrating && !Refused(u, key.ns)
            && Read(u, key) == Arrived(key.kind, Snap(j, PassOf(key.kind), key), Snap(j, CopyLabels, key),
                                       Get(s.objects, At(Place(target), key)))
  {
    FlipLands(s, id, target, t);
    FlipReads(s, id, target, t, key);
    ExpectedAtTheEnd(t.jobs[id], key, Get(s.objects, At(Place(target), key)));
  }

  // At the flip the tenant's requests go to the new cluster and the lock is off. Each key no controller touched there
  // reads as Arrived says of what the listings found at the source, whatever happened to the source meanwhile.
  lemma {:induction false} MigrationDeliversListed(s: State, id: OrgID, target: Option<ClusterID>,
                                                   more: seq<Action>, t: State, key: Key)
    requires Reachable(s) && Moves(s, id, target, more, t) && Lands(t, id)
    requires key.ns == s.orgs[id].ns && SparedAt(more, Place(target), key)
    ensures var u, j := Apply(t, Flip(id, false)), t.jobs[id];
            && id in u.orgs && u.orgs[id].cluster == target && !u.orgs[id].migrating && !Refused(u, key.ns)
            && Read(u, key) == Arrived(key.kind, Snap(j, PassOf(key.kind), key), Snap(j, CopyLabels, key),
                                       Get(s.objects, At(Place(target), key)))
  {
    MovesIff(s, id, target, more, t);
    ReachableCourse(s);
    MoveStandsWhereExpected(s, id, target, more, t, key);
    FlipReadsListed(s, id, target, t, key);
  }

  lemma FlipReadsMerged(s: State, id: OrgID, target: Option<ClusterID>, t: State, key: Key)
    requires UnderWay(s, id, target, t) && Alive(t, id) && Lands(t, id) && key.ns == s.orgs[id].ns
    requires AtDestination(s.objects, t, id, key) && AtSource(s.objects, t, id, key)
    ensures Read(Apply(t, Flip(id, false)), key)
            == Merged(key.kind, Read(s, key), Get(s.objects, At(Place(target), key)))
    ensures Get(Apply(t, Flip(id, false)).objects, At(Route(s, key.ns), key)) == Read(s, key)
  {
    FlipReads(s, id, target, t, key);
    RoutedHome(s, id);
    UnchangedArrivesMerged(t.jobs[id], key, Read(s, key), Get(s.objects, At(Place(target), key)));
  }

  // Left alone by controllers on both clusters, and by writes that slip through the lock.
  ghost predicate LeftAlone(s: State, id: OrgID, target: Option<ClusterID>, more: seq<Action>, key: Key)
    requires id in s.orgs
  {
    forall a <- more ::
      !Acts(a, At(Place(target), key)) && !Acts(a, At(Place(s.orgs[id].cluster), key)) && !Slips(a, key)
  }

  // And of one left alone on both, as Merged says of the two clusters when the migration began; the source
  // still has it.
  lemma {:induction false} MigrationDelivers(s: State, id: OrgID, target: Option<ClusterID>,
                                             more: seq<Action>, t: State, key: Key)
    requires Reachable(s) && Moves(s, id, target, more, t) && Lands(t, id)
    requires key.ns == s.orgs[id].ns && LeftAlone(s, id, target, more, key)
    ensures var u := Apply(t, Flip(id, false));
            && Read(u, key) == Merged(key.kind, Read(s, key), Get(s.objects, At(Place(target), key)))
            && Get(u.objects, At(Route(s, key.ns), key)) == Read(s, key)
  {
    MovesIff(s, id, target, more, t);
    ReachableCourse(s);
    MoveStandsWhereExpected(s, id, target, more, t, key);
    FlipReadsMerged(s, id, target, t, key);
  }

  // Every object of the old cluster exists on the new one, and a ClusterDefinition carries the old cluster's labels. It
  // is identical where the name was absent there, exactly unless it is being deleted: the new one of such a
  // ClusterDefinition has spec.delete set instead.
  lemma {:induction false} MigrationLosesNothing(s: State, id: OrgID, target: Option<ClusterID>,
                                                 more: seq<Action>, t: State, key: Key)
    requires Reachable(s) && Moves(s, id, target, more, t) && Lands(t, id)
    requires key.ns == s.orgs[id].ns && LeftAlone(s, id, target, more, key) && Read(s, key).Some?
    ensures var u, was := Apply(t, Flip(id, false)), Read(s, key).value;
            && Read(u, key).Some?
            && (key.kind.ClusterDefinition? ==> Read(u, key).value.labels == was.labels)
            && (At(Place(target), key) !in s.objects ==>
                  && (Read(u, key) == Some(was) <==> !was.deleting)
                  && (key.kind.ClusterDefinition? && was.deleting ==>
                        Read(u, key) == Some(was.(delete := true, deleting := false))))
  {
    MigrationDelivers(s, id, target, more, t, key);
  }

  lemma UnlockLands(s: State, id: OrgID, target: Option<ClusterID>, t: State)
    requires UnderWay(s, id, target, t) && Alive(t, id) && Enabled(t, Unlock(id, false))
    ensures var u := Apply(t, Unlock(id, false));
            && u.objects == t.objects && id in u.orgs && u.orgs[id] == s.orgs[id]
            && Route(u, s.orgs[id].ns) == Place(s.orgs[id].cluster) && !Refused(u, s.orgs[id].ns)
  {
    var u := Apply(t, Unlock(id, false));
    StepKeepsRows(t, Unlock(id, false));
    NamedIsTheBearer(u, id);
  }

  // After a failed copy the placement is what it was and the lock is off; every read returns what it did, of a key no
  // controller and no write that slipped through the lock touched.
  lemma {:induction false} FailedMigrationChangesNothing(s: State, id: OrgID, target: Option<ClusterID>,
                                                         more: seq<Action>, t: State, key: Key)
    requires Reachable(s) && Moves(s, id, target, more, t)
    requires Enabled(t, Unlock(id, false)) && key.ns == s.orgs[id].ns
    ensures var u := Apply(t, Unlock(id, false));
            && id in u.orgs && u.orgs[id] == s.orgs[id] && Route(u, key.ns) == Route(s, key.ns) && !Refused(u, key.ns)
            && (SparedAt(more, Place(s.orgs[id].cluster), key) && NoSlip(more, key) ==> Read(u, key) == Read(s, key))
  {
    MovesIff(s, id, target, more, t);
    ReachableCourse(s);
    MoveStandsWhereExpected(s, id, target, more, t, key);
    UnlockLands(s, id, target, t);
    RoutedHome(s, id);
  }

  // ---- Such migrations exist ----

  lemma StartKeepsRows(s: State, id: OrgID, target: Option<ClusterID>)
    requires Enabled(s, Start(id, target))
    ensures Apply(s, Start(id, target)).rows == s.rows && (target.Some? ==> target.value in s.rows)
    ensures var t := Apply(s, Start(id, target));
            id in t.jobs && !t.jobs[id].failed && t.jobs[id].target == target && Alive(t, id)
  {
  }

  lemma FinishedLands(s: State, id: OrgID, target: Option<ClusterID>, t: State)
    requires id in t.jobs && t.jobs[id].target == target && !t.jobs[id].failed && t.jobs[id].pass.Copied?
    requires target.Some? ==> target.value in t.rows
    ensures Lands(t, id)
  {
  }

  lemma CanComplete(s: State, id: OrgID, target: Option<ClusterID>) returns (more: seq<Action>, t: State)
    requires CourseInv(s) && Enabled(s, Start(id, target)) && CleanStart(s, id)
    ensures MovesFrom(s, id, target, more, t) && Lands(t, id) && (forall a <- more :: Copies(a, id))
  {
    StartsUndisturbed(s, id, target);
    StartKeepsRows(s, id, target);
    more, t := CopyCanFinish(s.objects, Apply(s, Start(id, target)), id);
    CopyRunKeeps(Apply(s, Start(id, target)), more, id);
    FinishedLands(s, id, target, t);
  }

  // Any clean migration that may start can run to its flip: the theorems above are never about nothing.
  lemma MigrationCanComplete(s: State, id: OrgID, target: Option<ClusterID>)
    returns (more: seq<Action>, t: State)
    requires Reachable(s) && Enabled(s, Start(id, target)) && CleanStart(s, id)
    ensures Moves(s, id, target, more, t) && Lands(t, id) && (forall a <- more :: Copies(a, id))
  {
    ReachableCourse(s);
    more, t := CanComplete(s, id, target);
    MovesIff(s, id, target, more, t);
  }

  // ---- What slips through the lock ----

  lemma SlippedWriteLands(s: State, id: OrgID, target: Option<ClusterID>, t: State, key: Key, content: Option<Object>)
    requires UnderWay(s, id, target, t) && Alive(t, id) && key.ns == s.orgs[id].ns
    requires Available(t, Place(s.orgs[id].cluster))
    ensures Enabled(t, Request(key, content, true))
    ensures var u := Apply(t, Request(key, content, true));
            Read(u, key) == content && u == t.(objects := Put(t.objects, At(Place(s.orgs[id].cluster), key), content))
  {
    NamedIsTheBearer(t, id);
  }

  lemma MovesOn(s: State, id: OrgID, target: Option<ClusterID>, more: seq<Action>, t: State, a: Action)
    requires MovesFrom(s, id, target, more, t) && Enabled(t, a) && !Ends(a, id) && Alive(Apply(t, a), id)
    ensures MovesFrom(s, id, target, more + [a], Apply(t, a))
  {
    Then(Step, Apply(s, Start(id, target)), more, a);
  }

  // It leaves the destination as it was.
  lemma SlippedWriteStaysBehind(s: State, id: OrgID, target: Option<ClusterID>, t: State, key: Key,
                                content: Option<Object>)
    requires UnderWay(s, id, target, t) && Alive(t, id) && Lands(t, id) && key.ns == s.orgs[id].ns
    requires AtDestination(s.objects, t, id, key) && AtSource(s.objects, t, id, key)
    requires Available(t, Place(s.orgs[id].cluster))
    ensures Enabled(t, Request(key, content, true))
    ensures var u := Apply(t, Request(key, content, true));
            && Alive(u, id) && Lands(u, id) && Read(u, key) == content
            && Read(Apply(u, Flip(id, false)), key)
               == Merged(key.kind, Read(s, key), Get(s.objects, At(Place(target), key)))
  {
    SlippedWriteLands(s, id, target, t, key, content);
    var u := Apply(t, Request(key, content, true));
    StepStaysUnderWay(s, id, target, t, Request(key, content, true));
    FlipReads(s, id, target, u, key);
    StaysApart(s, id, target, t);
    RoutedHome(s, id);
    UnchangedArrivesMerged(t.jobs[id], key, Read(s, key), Get(s.objects, At(Place(target), key)));
  }

  lemma SourceStaysAvailable(s: State, id: OrgID, target: Option<ClusterID>, more: seq<Action>, t: State)
    requires Unique(s) && MovesFrom(s, id, target, more, t) && forall a <- more :: Copies(a, id)
    ensures Available(t, Place(s.orgs[id].cluster))
  {
    RoutedHome(s, id);
    StartKeepsRows(s, id, target);
    StepKeepsConfig(s, Start(id, target));
    CopyRunKeeps(Apply(s, Start(id, target)), more, id);
  }

  lemma SlipsAtTheEnd(s: State, id: OrgID, target: Option<ClusterID>, more: seq<Action>, t: State, key: Key,
                      content: Option<Object>)
    returns (slipped: State)
    requires CourseInv(s) && MovesFrom(s, id, target, more, t) && Lands(t, id)
    requires key.ns == s.orgs[id].ns && forall a <- more :: Copies(a, id)
    ensures Step(t, Request(key, content, true)) == Some(slipped)
    ensures MovesFrom(s, id, target, more + [Request(key, content, true)], slipped) && Read(slipped, key) == content
    ensures Lands(slipped, id)
    ensures Read(Apply(slipped, Flip(id, false)), key)
            == Merged(key.kind, Read(s, key), Get(s.objects, At(Place(target), key)))
  {
    MoveStandsWhereExpected(s, id, target, more, t, key);
    SourceStaysAvailable(s, id, target, more, t);
    SlippedWriteStaysBehind(s, id, target, t, key, content);
    slipped := Apply(t, Request(key, content, true));
    MovesOn(s, id, target, more, t, Request(key, content, true));
  }

  // A write of any key whose lock look-up fails after the last listing is answered with success and read back, and is
  // gone at the flip: the key then reads as if it had never been made. So from every state in which a clean migration
  // may start.
  lemma SlippedWriteIsLost(s: State, id: OrgID, target: Option<ClusterID>, key: Key,
                           content: Option<Object>)
    returns (more: seq<Action>, t: State, slipped: State)
    requires Reachable(s) && Enabled(s, Start(id, target)) && CleanStart(s, id)
    requires key.ns == s.orgs[id].ns
    ensures Moves(s, id, target, more, t) && Step(t, Request(key, content, true)) == Some(slipped)
    ensures Moves(s, id, target, more + [Request(key, content, true)], slipped) && Read(slipped, key) == content
    ensures Lands(slipped, id)
    ensures Read(Apply(slipped, Flip(id, false)), key)
            == Merged(key.kind, Read(s, key), Get(s.objects, At(Place(target), key)))
  {
    more, t := MigrationCanComplete(s, id, target);
    MovesIff(s, id, target, more, t);
    ReachableCourse(s);
    slipped := SlipsAtTheEnd(s, id, target, more, t, key, content);
    MovesIff(s, id, target, more + [Request(key, content, true)], slipped);
  }

  // ---- When a migration leaves every read as it was ----

  // What the destination already held agrees with the source, up to a ClusterDefinition's labels; and what it did not
  // hold is not being deleted.
  ghost predicate Agrees(s: State, target: Option<ClusterID>, key: Key) {
    match (Read(s, key), Get(s.objects, At(Place(target), key)))
    case (None, there) => there.None?
    case (Some(o), None) => !o.deleting
    case (Some(o), Some(there)) => if key.kind.ClusterDefinition? then there.(labels := o.labels) == o else there == o
  }

  // A completed migration preserves what requests read of a key exactly when the two clusters agreed on it before: an
  // object already there under the same name wins over the source's, a leftover of a former stay comes back, and a
  // deletion under way becomes spec.delete.
  lemma {:induction false} ReadsPreservedIff(s: State, id: OrgID, target: Option<ClusterID>,
                                             more: seq<Action>, t: State)
    requires Reachable(s) && Moves(s, id, target, more, t) && Lands(t, id)
    ensures forall key: Key | key.ns == s.orgs[id].ns && LeftAlone(s, id, target, more, key) ::
              Read(Apply(t, Flip(id, false)), key) == Read(s, key) <==> Agrees(s, target, key)
  {
    forall key: Key | key.ns == s.orgs[id].ns && LeftAlone(s, id, target, more, key)
      ensures Read(Apply(t, Flip(id, false)), key) == Read(s, key) <==> Agrees(s, target, key)
    {
      MigrationDelivers(s, id, target, more, t, key);
    }
  }

  // ---- There and back ----

  // An action that leaves organization id where it is, under its name.
  predicate LeavesInPlace(a: Action, id: OrgID) {
    !((a.Start? || a.Rename? || a.MarkDeletion?) && a.id == id)
  }

  // id stands on a cluster, bears its namespace as its name, and nobody is migrating that namespace.
  ghost predicate Settled(s: State, id: OrgID, o: Organization) {
    && CourseInv(s) && id in s.orgs && s.orgs[id] == o
    && o.name == o.ns && o.ns != s.config.control && !o.pendingDeletion
    && (forall j <- s.jobs :: s.jobs[j].ns != o.ns) && id !in s.jobs
  }

  lemma SettledRowStays(s: State, a: Action, id: OrgID, o: Organization)
    requires Enabled(s, a) && LeavesInPlace(a, id) && id in s.orgs && s.orgs[id] == o
    requires !o.pendingDeletion && id in s.orgIDs && id !in s.jobs
    ensures id in Apply(s, a).orgs && Apply(s, a).orgs[id] == o
  {
  }

  lemma NobodyElseStarts(s: State, a: Action, id: OrgID, ns: Namespace)
    requires Enabled(s, a) && Unique(s) && LeavesInPlace(a, id) && id in s.orgs && s.orgs[id].ns == ns
    requires id !in s.jobs && forall j <- s.jobs :: s.jobs[j].ns != ns
    ensures var t := Apply(s, a); id !in t.jobs && forall j <- t.jobs :: t.jobs[j].ns != ns
  {
    OthersStayElsewhere(s, a, id, ns);
    if id in Apply(s, a).jobs {
      JobComesFrom(s, a, id);
    }
  }

  lemma StepStaysSettled(s: State, a: Action, id: OrgID, o: Organization)
    requires Enabled(s, a) && Settled(s, id, o) && LeavesInPlace(a, id)
    ensures Settled(Apply(s, a), id, o)
  {
    StepKeepsCourse(s, a);
    StepKeepsConfig(s, a);
    SettledRowStays(s, a, id, o);
    NobodyElseStarts(s, a, id, o.ns);
  }

  // Requests for the namespace go to its placement only, and nothing but a controller touches its objects elsewhere.
  lemma StepLeavesElsewhere(s: State, a: Action, id: OrgID, o: Organization, l: Location, key: Key)
    requires Enabled(s, a) && Settled(s, id, o) && key.ns == o.ns && l != Place(o.cluster) && !Acts(a, At(l, key))
    ensures Get(Apply(s, a).objects, At(l, key)) == Get(s.objects, At(l, key))
  {
    NamedIsTheBearer(s, id);
    assert a.Terminate? ==> a.at.key.ns != o.ns;
    if a.CopyNext? {
      ListedOnTodo(s.jobs[a.id], a.key);
    }
    OthersDoNotTouch(s, a, l, key);
  }

  lemma {:induction false} ElsewhereUntouched(s: State, acts: seq<Action>, id: OrgID, o: Organization, l: Location,
                                              key: Key)
    requires Settled(s, id, o) && Run(Step, s, acts).Some? && forall a <- acts :: LeavesInPlace(a, id)
    requires key.ns == o.ns && l != Place(o.cluster) && SparedAt(acts, l, key)
    ensures Settled(Run(Step, s, acts).value, id, o)
    ensures Get(Run(Step, s, acts).value.objects, At(l, key)) == Get(s.objects, At(l, key))
  {
    if acts != [] {
      var n := |acts| - 1;
      assert acts[n] in acts && forall a <- acts[..n] :: a in acts;
      ElsewhereUntouched(s, acts[..n], id, o, l, key);
      var t := Run(Step, s, acts[..n]).value;
      StepStaysSettled(t, acts[n], id, o);
      StepLeavesElsewhere(t, acts[n], id, o, l, key);
    }
  }

  lemma {:induction false} FlipSettles(s: State, id: OrgID, target: Option<ClusterID>, more: seq<Action>, t: State)
    requires Reachable(s) && Moves(s, id, target, more, t) && Lands(t, id)
    ensures Settled(Apply(t, Flip(id, false)), id, s.orgs[id].(cluster := target, migrating := false))
    ensures Reachable(Apply(t, Flip(id, false)))
    ensures Route(s, s.orgs[id].ns) == Place(s.orgs[id].cluster) && target != s.orgs[id].cluster
  {
    MovesIff(s, id, target, more, t);
    ReachableCourse(s);
    MoveIsUnderWay(s, id, target, more, t);
    RoutedHome(s, id);
    var acts := First(s, Start(id, target), Apply(s, Start(id, target)), more);
    Then(Step, s, acts, Flip(id, false));
    ReachableOn(s, acts + [Flip(id, false)], Apply(t, Flip(id, false)));
    FlipLands(s, id, target, t);
    StepKeepsCourse(t, Flip(id, false));
    StepKeepsConfig(t, Flip(id, false));
  }

  // Moved to another cluster and later back, a tenant reads of each key what the way back makes of the old cluster's
  // object, which no handler touched meanwhile: whatever was there before the first move is there again. An edit made
  // on the other cluster is lost (but for a ClusterDefinition's labels), and a deletion made there is undone. All this
  // of a key that controllers and slipped writes left alone: during both moves, and on the old cluster in between.
  lemma {:induction false} MovedBack(s: State, id: OrgID, target: Option<ClusterID>, more: seq<Action>, t: State,
                                     stay: seq<Action>, s2: State, more2: seq<Action>, t2: State, key: Key)
    requires Reachable(s) && Moves(s, id, target, more, t) && Lands(t, id)
    requires Run(Step, Apply(t, Flip(id, false)), stay) == Some(s2) && forall a <- stay :: LeavesInPlace(a, id)
    requires var home := s.orgs[id].cluster;
             && Moves(s2, id, home, more2, t2) && Lands(t2, id)
             && LeftAlone(s2, id, home, more2, key) && SparedAt(stay, Place(home), key)
    requires key.ns == s.orgs[id].ns && LeftAlone(s, id, target, more, key)
    ensures var v := Apply(t2, Flip(id, false));
            && Read(v, key) == Merged(key.kind, Read(s2, key), Read(s, key))
            && (Read(s, key).Some? && !key.kind.ClusterDefinition? ==> Read(v, key) == Read(s, key))
            && (Read(s, key).Some? && Read(s2, key).None? ==> Read(v, key) == Read(s, key))
            && (Read(s, key).Some? && key.kind.ClusterDefinition? ==>
                  Read(v, key).Some? && Read(v, key).value == Read(s, key).value.(labels := Read(v, key).value.labels))
  {
    var home := s.orgs[id].cluster;
    var u := Apply(t, Flip(id, false));
    MigrationDelivers(s, id, target, more, t, key);
    FlipSettles(s, id, target, more, t);
    var o := s.orgs[id].(cluster := target, migrating := false);
    ElsewhereUntouched(u, stay, id, o, Place(home), key);
    ReachableOn(u, stay, s2);
    MigrationDelivers(s2, id, home, more2, t2, key);
  }

  // ---- Why a migration must start clean ----

  lemma EmptyPass(s: State, id: OrgID) returns (t: State)
    requires id in s.jobs && s.jobs[id].todo == map[] && !s.jobs[id].failed && Rank(s.jobs[id].pass) < 5
    requires forall at <- s.objects :: at.location != s.jobs[id].src
    ensures Step(s, NextPass(id)) == Some(t) && id in t.jobs && t == s.(jobs := s.jobs[id := t.jobs[id]])
    ensures t.jobs[id] == s.jobs[id].(pass := t.jobs[id].pass, todo := map[], snaps := t.jobs[id].snaps)
    ensures Rank(t.jobs[id].pass) == Rank(s.jobs[id].pass) + 1
  {
    NextPassIs(s, id);
    t := Apply(s, NextPass(id));
  }

  lemma {:induction false} EmptyPasses(s: State, id: OrgID, n: nat) returns (acts: seq<Action>, t: State)
    requires id in s.jobs && s.jobs[id].todo == map[] && !s.jobs[id].failed && Rank(s.jobs[id].pass) + n == 5
    requires forall at <- s.objects :: at.location != s.jobs[id].src
    ensures Run(Step, s, acts) == Some(t) && id in t.jobs && t == s.(jobs := s.jobs[id := t.jobs[id]])
    ensures !t.jobs[id].failed && t.jobs[id].pass.Copied? && t.jobs[id].target == s.jobs[id].target
    decreases n
  {
    if n == 0 {
      acts, t := [], s;
      assert s.jobs[id := s.jobs[id]] == s.jobs;
    } else {
      var u := EmptyPass(s, id);
      var rest;
      rest, t := EmptyPasses(u, id, n - 1);
      acts := First(s, NextPass(id), u, rest);
      OnlyTheJob(s, u, t, id);
    }
  }

  // An organization that bears another name than its namespace, with nothing on the home cluster.
  ghost predicate RenamedAway(s: State, id: OrgID) {
    && id in s.orgs && id !in s.jobs && !s.orgs[id].pendingDeletion && !s.orgs[id].migrating
    && Named(s, s.orgs[id].ns) == None && s.config.hasHome
    && (forall at <- s.objects :: at.location != Home)
  }

  lemma StartsEmpty(s: State, id: OrgID, c: ClusterID) returns (acts: seq<Action>, t: State)
    requires RenamedAway(s, id) && c in s.rows && s.rows[c].owner.None? && s.orgs[id].cluster != Some(c)
    ensures Run(Step, s, acts) == Some(t) && id in t.jobs
    ensures t == s.(orgs := s.orgs[id := s.orgs[id].(migrating := true)], jobs := s.jobs[id := t.jobs[id]])
    ensures t.jobs[id].todo == map[] && !t.jobs[id].failed && t.jobs[id].pass == CopyClusters
    ensures t.jobs[id].src == Home && t.jobs[id].target == Some(c)
  {
    Then(Step, s, [], Start(id, Some(c)));
    acts := [] + [Start(id, Some(c))];
    t := Apply(s, Start(id, Some(c)));
    assert t.jobs[id].todo == map[];
  }

  lemma FlipEnds(s: State, id: OrgID, jobs: map<OrgID, Job>, orgs: map<OrgID, Organization>, o: Organization)
    requires id in s.jobs && !s.jobs[id].failed && s.jobs[id].pass.Copied? && s.jobs[id].target.Some?
    requires s.jobs[id].target.value in s.rows && id !in jobs && s.jobs == jobs[id := s.jobs[id]]
    requires s.orgs == orgs[id := o]
    ensures Enabled(s, Flip(id, false))
    ensures Apply(s, Flip(id, false))
            == s.(jobs := jobs, orgs := orgs[id := o.(cluster := s.jobs[id].target, migrating := false)])
  {
    assert s.jobs - {id} == jobs;
  }

  lemma CopiesNothing(s: State, id: OrgID, c: ClusterID) returns (acts: seq<Action>)
    requires RenamedAway(s, id) && c in s.rows && s.rows[c].owner.None? && s.orgs[id].cluster != Some(c)
    ensures Run(Step, s, acts).Some?
    ensures var t := Run(Step, s, acts).value;
            && id in t.jobs
            && t == s.(orgs := s.orgs[id := s.orgs[id].(migrating := true)], jobs := s.jobs[id := t.jobs[id]])
            && !t.jobs[id].failed && t.jobs[id].pass.Copied? && t.jobs[id].target == Some(c)
  {
    var start, s1 := StartsEmpty(s, id, c);
    var passes, t := EmptyPasses(s1, id, 5);
    acts := start + passes;
    Continued(Step, s, start, passes);
    assert s1.jobs[id := t.jobs[id]] == s.jobs[id := t.jobs[id]];
  }

  // Moved from its own cluster to another of the pool, without any failure, it arrives with nothing: the copy
  // read the home cluster, where its namespace as a name leads.
  lemma RenamedTenantLeftBehind(s: State, id: OrgID, c: ClusterID) returns (acts: seq<Action>)
    requires RenamedAway(s, id) && c in s.rows && s.rows[c].owner.None? && s.orgs[id].cluster != Some(c)
    ensures Run(Step, s, acts)
            == Some(s.(orgs := s.orgs[id := s.orgs[id].(cluster := Some(c), migrating := false)]))
  {
    acts := CopiesNothing(s, id, c);
    var t := Run(Step, s, acts).value;
    Then(Step, s, acts, Flip(id, false));
    FlipEnds(t, id, s.jobs, s.orgs, s.orgs[id].(migrating := true));
    acts := acts + [Flip(id, false)];
  }
}
