/**
Environments of one namespace, and the clusters named and labelled after them (internal/api/environmentnaming.go,
internal/api/clusters.go, internal/api/organizations.go), on every physical cluster the namespace has been on. A
cluster's stored name is its environment and its short name joined; one older than the namespace's organization has no
label and its short name only.
 */
module Environments {
  import opened Wrappers
  import opened Runs
  import O = Organizations
  import M = Migration

  const DEFAULT := "default"

  // None is the control plane's own home cluster.
  type Place = Option<string>

  // tag is the environment label, "" without one; delete is spec.delete; deleting is a deletion timestamp.
  datatype Cluster = Cluster(tag: string, spec: string, delete: bool, deleting: bool)

  type Clusters = map<string, Cluster>

  // `org` is whether an organization owns the namespace, `named` whether it bears it as its name, `place` where it is
  // placed; envs are its environments in table order; stores are the namespace's clusters on each physical cluster.
  datatype State = State(org: bool, named: bool, place: Place, envs: seq<string>, stores: map<Place, Clusters>)

  function Held(s: State, l: Place): Clusters {
    if l in s.stores then s.stores[l] else map[]
  }

  // GetOrganizationByName finds the organization by the namespace: not one that was renamed.
  predicate LookedUp(s: State) {
    s.org && s.named
  }

  // resourceClient: a renamed organization's requests go to the home cluster.
  function Where(s: State): Place {
    if LookedUp(s) then s.place else None
  }

  // What requests for the namespace see.
  function Seen(s: State): Clusters {
    Held(s, Where(s))
  }

  function Rewritten(s: State, clusters: Clusters): State {
    s.(stores := s.stores[Where(s) := clusters])
  }

  datatype Status = BadRequest | NotFound | Conflict | Internal

  // ---- Names ----

  function Join(env: string, short: string): string {
    env + "-" + short
  }

  function Split(stored: string, env: string): string {
    if env + "-" <= stored then stored[|env| + 1..] else stored
  }

  predicate PrefixPair(a: string, b: string) {
    a + "-" <= b || b + "-" <= a
  }

  lemma SplitUndoesJoin(env: string, short: string)
    ensures Split(Join(env, short), env) == short
    ensures env + "-" <= Join(env, short)
    ensures |Join(env, short)| == |env| + 1 + |short|
  {
    assert Join(env, short) == (env + "-") + short;
  }

  lemma JoinUndoesSplit(stored: string, env: string)
    requires env + "-" <= stored
    ensures Join(env, Split(stored, env)) == stored
  {
    assert stored == stored[..|env| + 1] + stored[|env| + 1..];
  }

  // Two prefixes of one string are prefixes of one another.
  lemma PrefixesNest(a: string, b: string, s: string)
    requires a <= s && b <= s && |a| <= |b|
    ensures a <= b
  {
    assert a == s[..|a|] && b == s[..|b|];
  }

  lemma SharedNamePrefix(a: string, b: string, s: string)
    requires a != b && a + "-" <= s && b + "-" <= s
    ensures PrefixPair(a, b)
  {
    if |a| <= |b| {
      PrefixesNest(a + "-", b + "-", s);
      assert (b + "-")[..|b|] == b;
      assert a + "-" == (b + "-")[..|a| + 1];
    } else {
      PrefixesNest(b + "-", a + "-", s);
      assert (a + "-")[..|a|] == a;
      assert b + "-" == (a + "-")[..|b| + 1];
    }
  }

  // Different environments can name one object exactly when one's name and a dash start the other's.
  lemma CollisionIff(a: string, b: string)
    requires a != b
    ensures (exists x, y :: x != "" && y != "" && Join(a, x) == Join(b, y)) <==> PrefixPair(a, b)
  {
    if x, y :| x != "" && y != "" && Join(a, x) == Join(b, y) {
      SplitUndoesJoin(a, x);
      SplitUndoesJoin(b, y);
      SharedNamePrefix(a, b, Join(a, x));
    }
    if a + "-" <= b {
      Extends(a, b, "x");
    } else if b + "-" <= a {
      Extends(b, a, "x");
    }
  }

  lemma Extends(a: string, b: string, short: string)
    requires a + "-" <= b && short != ""
    ensures Join(a, Split(b, a) + "-" + short) == Join(b, short)
  {
    JoinUndoesSplit(b, a);
    assert Join(a, Split(b, a) + "-" + short) == Join(a, Split(b, a)) + "-" + short;
  }

  // One short name never collides with itself.
  lemma SameShortNameNeverCollides(a: string, b: string, short: string)
    ensures Join(a, short) == Join(b, short) <==> a == b
  {
    if Join(a, short) == Join(b, short) {
      assert a == Join(a, short)[..|a|] && b == Join(b, short)[..|b|];
    }
  }

  // ---- Which environment ----

  // resolveResourceEnvironment: None without an organization.
  function ResolveEnvironment(s: State, requested: string): Result<Option<string>, Status> {
    if !LookedUp(s) then Ok(None)
    else if requested != "" then (if requested in s.envs then Ok(Some(requested)) else Err(BadRequest))
    else if |s.envs| == 1 then Ok(Some(s.envs[0]))
    else Err(BadRequest)
  }

  // effectiveEnvironmentLabel.
  function Effective(s: State, tag: string): string {
    if tag != "" || !LookedUp(s) then tag
    else if |s.envs| == 1 then s.envs[0]
    else if DEFAULT in s.envs then DEFAULT
    else tag
  }

  // resolveAddressedName: the stored name a request means.
  function Addressed(s: State, requested: string, name: string): string {
    if !LookedUp(s) then name
    else if requested != "" then (if requested in s.envs then Join(requested, name) else name)
    else if name in Seen(s) then name
    else if Effective(s, "") != "" then Join(Effective(s, ""), name)
    else name
  }

  // A cluster as listed: toClusterDTO and the backfilled environment.
  datatype DTO = DTO(name: string, environment: string, spec: string, pendingDeletion: bool)

  function ToDTO(s: State, stored: string): DTO
    requires stored in Seen(s)
  {
    var cd := Seen(s)[stored];
    DTO(if cd.tag != "" then Split(stored, cd.tag) else stored, Effective(s, cd.tag), cd.spec, cd.deleting)
  }

  // ---- Handlers ----

  function CreateEnvironment(s: State, name: string): Result<State, Status> {
    if !s.org then Err(NotFound)
    else if name == "" then Err(BadRequest)
    else if name in s.envs then Ok(s)
    else Ok(s.(envs := s.envs + [name]))
  }

  predicate InUse(s: State, env: string) {
    exists stored <- Seen(s) :: Seen(s)[stored].tag == env
  }

  function Removed(envs: seq<string>, name: string): seq<string> {
    if envs == [] then []
    else if envs[0] == name then Removed(envs[1..], name)
    else [envs[0]] + Removed(envs[1..], name)
  }

  function DeleteEnvironment(s: State, name: string): Result<State, Status> {
    if !s.org then Err(NotFound)
    else if name == DEFAULT then Err(BadRequest)
    else if name !in s.envs then Err(NotFound)
    else if |s.envs| <= 1 then Err(BadRequest)
    else if InUse(s, name) then Err(Conflict)
    else Ok(s.(envs := Removed(s.envs, name)))
  }

  function CreateCluster(s: State, requested: string, short: string, spec: string): Result<State, Status> {
    if short == "" then Err(BadRequest)
    else match ResolveEnvironment(s, requested)
      case Err(e) => Err(e)
      case Ok(env) =>
        var stored := if env.Some? then Join(env.value, short) else short;
        var tag := if env.Some? then env.value else "";
        if stored in Seen(s) then Err(Conflict)
        else Ok(Rewritten(s, Seen(s)[stored := Cluster(tag, spec, false, false)]))
  }

  function UpdateCluster(s: State, requested: string, name: string, spec: string): Result<State, Status> {
    var stored := Addressed(s, requested, name);
    if stored !in Seen(s) then Err(NotFound)
    else Ok(Rewritten(s, Seen(s)[stored := Seen(s)[stored].(spec := spec)]))
  }

  // An object with a finalizer stays until the controller is done with it.
  function DeleteCluster(s: State, requested: string, name: string, finalizer: bool): Result<State, Status> {
    var stored := Addressed(s, requested, name);
    if stored !in Seen(s) then Err(NotFound)
    else if finalizer then Ok(Rewritten(s, Seen(s)[stored := Seen(s)[stored].(deleting := true)]))
    else Ok(Rewritten(s, Seen(s) - {stored}))
  }

  // A whole migration's outcome on the clusters, the copy of module Migration: what the source does not have stays,
  // what both have takes the source's label, the rest is copied, a deletion under way as spec.delete.
  function Merge(src: Clusters, dst: Clusters): Clusters {
    map stored | stored in src.Keys + dst.Keys ::
      if stored !in src then dst[stored]
      else if stored in dst then dst[stored].(tag := src[stored].tag)
      else src[stored].(delete := src[stored].delete || src[stored].deleting, deleting := false)
  }

  function Moved(s: State, target: Place): State {
    s.(place := target, stores := s.stores[target := Merge(Seen(s), Held(s, target))])
  }

  // What a migration that failed has left at its destination: some of the clusters created, some labelled.
  function PartCopied(src: Clusters, dst: Clusters, created: set<string>, labelled: set<string>): Clusters {
    map stored | stored in dst.Keys + (src.Keys * created) ::
      var copy := if stored in dst then dst[stored]
                  else src[stored].(tag := "", delete := src[stored].delete || src[stored].deleting, deleting := false);
      if stored in labelled && stored in src then copy.(tag := src[stored].tag) else copy
  }

  function PartMoved(s: State, target: Place, created: set<string>, labelled: set<string>): State {
    s.(stores := s.stores[target := PartCopied(Seen(s), Held(s, target), created, labelled)])
  }

  datatype Action =
    | CreateOrg(place: Place)          // the namespace gets its organization, with the environment "default"
    | Rename(named: bool)              // the organization takes another name, or its namespace's again
    | Move(place: Place)               // a migration, its copy and its flip
    | FailMove(place: Place, created: set<string>, labelled: set<string>)
    | CreateEnv(name: string)
    | DeleteEnv(name: string)
    | Create(env: string, short: string, spec: string)
    | Update(env: string, name: string, spec: string)
    | Delete(env: string, name: string, finalizer: bool)
    | Expire(at: Place, stored: string)  // a controller deletes one that expired, or has spec.delete
    | Reap(at: Place, stored: string)    // a controller removes the finalizer

  function Step(s: State, a: Action): Option<State> {
    match a
    case CreateOrg(place) =>
      if s.org then None else Some(s.(org := true, named := true, place := place, envs := [DEFAULT]))
    case Rename(named) => if s.org then Some(s.(named := named)) else None
    case Move(place) => if s.org && place != s.place then Some(Moved(s, place)) else None
    case FailMove(place, created, labelled) =>
      if s.org && place != s.place then Some(PartMoved(s, place, created, labelled)) else None
    case CreateEnv(name) => Success(CreateEnvironment(s, name))
    case DeleteEnv(name) => Success(DeleteEnvironment(s, name))
    case Create(env, short, spec) => Success(CreateCluster(s, env, short, spec))
    case Update(env, name, spec) => Success(UpdateCluster(s, env, name, spec))
    case Delete(env, name, finalizer) => Success(DeleteCluster(s, env, name, finalizer))
    case Expire(at, stored) =>
      if stored in Held(s, at)
      then Some(s.(stores := s.stores[at := Held(s, at)[stored := Held(s, at)[stored].(deleting := true)]]))
      else None
    case Reap(at, stored) =>
      if stored in Held(s, at) && Held(s, at)[stored].deleting
      then Some(s.(stores := s.stores[at := Held(s, at) - {stored}]))
      else None
  }

  function Success(r: Result<State, Status>): Option<State> {
    if r.Ok? then Some(r.value) else None
  }

  // ---- The invariant ----

  predicate Distinct(envs: seq<string>) {
    forall i, j | 0 <= i < j < |envs| :: envs[i] != envs[j]
  }

  predicate EnvironmentsInv(s: State) {
    && Distinct(s.envs) && "" !in s.envs
    && (if s.org then DEFAULT in s.envs else s.envs == [])
  }

  // A label and a dash begin the stored name, wherever the cluster is.
  ghost predicate JoinedInv(s: State) {
    forall l: Place, stored <- Held(s, l) :: Held(s, l)[stored].tag != "" ==> Held(s, l)[stored].tag + "-" <= stored
  }

  // The label names an environment there is not.
  predicate Dead(envs: seq<string>, tag: string) {
    tag != "" && tag !in envs
  }

  // A label where the namespace is placed names an environment there is.
  predicate LabelsLive(s: State) {
    forall stored <- Held(s, s.place) :: !Dead(s.envs, Held(s, s.place)[stored].tag)
  }

  ghost predicate BaseInv(s: State) {
    EnvironmentsInv(s) && JoinedInv(s) && (!s.org ==> s.place.None?)
  }

  ghost predicate Inv(s: State) {
    BaseInv(s) && LabelsLive(s)
  }

  lemma {:induction false} RemovedContents(envs: seq<string>, name: string)
    requires Distinct(envs)
    ensures var left := Removed(envs, name);
            Distinct(left) && forall e :: e in left <==> e in envs && e != name
  {
    if envs != [] {
      RemovedContents(envs[1..], name);
      assert envs == [envs[0]] + envs[1..];
      assert envs[0] !in envs[1..];
    }
  }

  // ---- What keeps labels live ----

  // The steps after which a label can name an environment there is not, where the namespace is placed. Deleting an
  // environment is one only of a renamed organization on a cluster of its own: the check for clusters that bear the
  // label looks at the home cluster. A migration is one that finds such a label on a leftover of a former stay; or, of
  // a renamed organization, on the home cluster it copies from.
  predicate Strays(s: State, a: Action) {
    match a
    case CreateOrg(place) => exists stored <- Held(s, place) :: Dead([DEFAULT], Held(s, place)[stored].tag)
    case DeleteEnv(name) =>
      Where(s) != s.place && exists stored <- Held(s, s.place) :: Held(s, s.place)[stored].tag == name
    case Move(place) => Leftover(s, place) || (Where(s) != s.place && SourceDead(s))
    case _ => false
  }

  // A cluster of the namespace already there, not among those requests see, bears the label of no environment.
  predicate Leftover(s: State, place: Place) {
    exists stored <- Held(s, place) :: stored !in Seen(s) && Dead(s.envs, Held(s, place)[stored].tag)
  }

  predicate SourceDead(s: State) {
    exists stored <- Seen(s) :: Dead(s.envs, Seen(s)[stored].tag)
  }

  // A deletion keeps the labels live exactly when requests for the namespace reach its placement or no cluster there
  // bears the label.
  lemma DeletionKeepsLabelsIff(s: State, name: string)
    requires Inv(s) && DeleteEnvironment(s, name).Ok?
    ensures LabelsLive(DeleteEnvironment(s, name).value) <==>
              Where(s) == s.place || forall stored <- Held(s, s.place) :: Held(s, s.place)[stored].tag != name
  {
    RemovedContents(s.envs, name);
    var t := DeleteEnvironment(s, name).value;
    assert Held(t, t.place) == Held(s, s.place);
    if Where(s) == s.place {
      assert Seen(s) == Held(s, s.place) && !InUse(s, name);
    }
    forall stored <- Held(s, s.place)
      ensures Dead(t.envs, Held(s, s.place)[stored].tag) <==> Held(s, s.place)[stored].tag == name
    {
      assert !Dead(s.envs, Held(s, s.place)[stored].tag);
      assert name != "";
    }
    if stored :| stored in Held(s, s.place) && Held(s, s.place)[stored].tag == name {
      assert Dead(t.envs, Held(t, t.place)[stored].tag);
    }
  }

  // A migration keeps the labels live exactly when none of the destination's leftovers bears a dead one, and none of
  // what is copied: which only a renamed organization's can.
  lemma MoveKeepsLabelsIff(s: State, place: Place)
    requires Inv(s) && s.org && place != s.place
    ensures LabelsLive(Moved(s, place)) <==> !Leftover(s, place) && !(Where(s) != s.place && SourceDead(s))
  {
    var after := Merge(Seen(s), Held(s, place));
    assert Held(Moved(s, place), place) == after;
    if stored :| stored in Held(s, place) && stored !in Seen(s) && Dead(s.envs, Held(s, place)[stored].tag) {
      assert stored in after;
    }
    if stored :| stored in Seen(s) && Dead(s.envs, Seen(s)[stored].tag) {
      assert stored in after;
    }
  }

  // Moved is what Migration proves of a whole migration of the ClusterDefinitions, their environment label the only
  // one.
  function AsObject(c: Cluster): O.Object {
    O.Object(c.spec, if c.tag == "" then map[] else map["hyve.io/environment" := c.tag], c.delete, c.deleting)
  }

  function Objects(clusters: Clusters, stored: string): Option<O.Object> {
    if stored in clusters then Some(AsObject(clusters[stored])) else None
  }

  lemma MoveIsMerged(s: State, place: Place, stored: string)
    ensures Objects(Held(Moved(s, place), place), stored)
            == M.Merged(O.ClusterDefinition, Objects(Seen(s), stored), Objects(Held(s, place), stored))
  {
  }

  // And what a failed one leaves is what Migration's passes make of each cluster as far as they got: left alone,
  // created without labels, or labelled.
  lemma PartMovedIsPartOfACopy(s: State, place: Place, created: set<string>, labelled: set<string>, stored: string)
    ensures var src, there := Objects(Seen(s), stored), Objects(Held(s, place), stored);
            var base := if stored in created then M.Unlabelled(src, there) else there;
            Objects(Held(PartMoved(s, place, created, labelled), place), stored)
            == if stored in labelled && src.Some? && base.Some? then Some(base.value.(labels := src.value.labels))
               else base
    ensures forall l: Place :: l != place ==> Held(PartMoved(s, place, created, labelled), l) == Held(s, l)
  {
  }

  // ---- Every step ----

  // An organization begins under its namespace's name, with the one environment "default", and changes no cluster.
  lemma OrganizationBegins(s: State, place: Place)
    requires !s.org
    ensures Step(s, CreateOrg(place)).Some?
    ensures var t := Step(s, CreateOrg(place)).value;
            LookedUp(t) && t.envs == [DEFAULT] && Where(t) == t.place == place && t.stores == s.stores
  {
  }

  // A request is a step exactly if its handler answers success, with the state that leaves.
  lemma RequestsAreSteps(s: State, env: string, name: string, spec: string, finalizer: bool)
    ensures Step(s, CreateEnv(name)) == Success(CreateEnvironment(s, name))
    ensures Step(s, DeleteEnv(name)) == Success(DeleteEnvironment(s, name))
    ensures Step(s, Create(env, name, spec)) == Success(CreateCluster(s, env, name, spec))
    ensures Step(s, Update(env, name, spec)) == Success(UpdateCluster(s, env, name, spec))
    ensures Step(s, Delete(env, name, finalizer)) == Success(DeleteCluster(s, env, name, finalizer))
    ensures forall place :: s.org && place != s.place ==> Step(s, Move(place)) == Some(Moved(s, place))
    ensures forall named :: s.org ==> Step(s, Rename(named)) == Some(s.(named := named))
  {
  }

  // A controller marks a cluster it deletes, on whatever cluster it finds it, and removes one that is marked.
  lemma ControllersChange(s: State, at: Place, stored: string)
    requires stored in Held(s, at)
    ensures Step(s, Expire(at, stored)).Some?
    ensures var t := Step(s, Expire(at, stored)).value;
            && Held(t, at) == Held(s, at)[stored := Held(s, at)[stored].(deleting := true)]
            && t == s.(stores := t.stores)
            && Step(t, Reap(at, stored)).Some?
            && var u := Step(t, Reap(at, stored)).value;
               Held(u, at) == Held(s, at) - {stored} && u == s.(stores := u.stores)
               && forall l: Place :: l != at ==> Held(u, l) == Held(s, l)
    ensures Step(s, Reap(at, stored)).Some? <==> Held(s, at)[stored].deleting
  {
    var t := Step(s, Expire(at, stored)).value;
    assert Held(t, at) - {stored} == Held(s, at) - {stored};
  }

  lemma StepKeepsEnvironments(s: State, a: Action)
    requires BaseInv(s) && Step(s, a).Some?
    ensures EnvironmentsInv(Step(s, a).value) && (!Step(s, a).value.org ==> Step(s, a).value.place.None?)
  {
    if a.DeleteEnv? {
      RemovedContents(s.envs, a.name);
    }
  }

  // A cluster a step leaves bears no label, the one it bore, or another's of the same stored name; or was just created.
  lemma LabelComesFrom(s: State, a: Action, l: Place, stored: string)
    requires Step(s, a).Some? && stored in Held(Step(s, a).value, l)
    ensures var tag := Held(Step(s, a).value, l)[stored].tag;
            || tag == ""
            || (exists k: Place :: stored in Held(s, k) && Held(s, k)[stored].tag == tag)
            || (a.Create? && exists env <- s.envs :: tag == env && stored == Join(env, a.short))
  {
    assert stored in Held(s, l) || stored in Held(s, Where(s)) || a.Create?;
  }

  lemma StepKeepsJoined(s: State, a: Action)
    requires BaseInv(s) && Step(s, a).Some?
    ensures JoinedInv(Step(s, a).value)
  {
    var t := Step(s, a).value;
    forall l: Place, stored | stored in Held(t, l) && Held(t, l)[stored].tag != ""
      ensures Held(t, l)[stored].tag + "-" <= stored
    {
      LabelComesFrom(s, a, l, stored);
      if a.Create? {
        SplitUndoesJoin(Held(t, l)[stored].tag, a.short);
      }
    }
  }

  lemma CreateKeepsLabels(s: State, env: string, short: string, spec: string)
    requires LabelsLive(s) && CreateCluster(s, env, short, spec).Ok?
    ensures LabelsLive(CreateCluster(s, env, short, spec).value)
  {
    var e := ResolveEnvironment(s, env).value;
    assert e.Some? ==> e.value in s.envs;
    var t := CreateCluster(s, env, short, spec).value;
    forall stored <- Held(t, t.place) ensures !Dead(t.envs, Held(t, t.place)[stored].tag) {
      if stored in Held(s, s.place) && Held(t, t.place)[stored] == Held(s, s.place)[stored] {
        assert !Dead(s.envs, Held(s, s.place)[stored].tag);
      }
    }
  }

  lemma ClusterStepKeepsLabels(s: State, a: Action)
    requires LabelsLive(s) && Step(s, a).Some? && (a.Update? || a.Delete? || a.Expire? || a.Reap?)
    ensures LabelsLive(Step(s, a).value)
  {
    var t := Step(s, a).value;
    forall stored <- Held(t, t.place) ensures !Dead(t.envs, Held(t, t.place)[stored].tag) {
      assert stored in Held(s, s.place) && !Dead(s.envs, Held(s, s.place)[stored].tag);
    }
  }

  lemma OtherStepsKeepLabels(s: State, a: Action)
    requires LabelsLive(s) && Step(s, a).Some? && (a.Rename? || a.FailMove? || a.CreateEnv?)
    ensures LabelsLive(Step(s, a).value)
  {
    var t := Step(s, a).value;
    assert Held(t, t.place) == Held(s, s.place);
  }

  lemma CreateOrgKeepsIff(s: State, place: Place)
    requires Inv(s) && !s.org
    ensures LabelsLive(Step(s, CreateOrg(place)).value) <==> !Strays(s, CreateOrg(place))
  {
    var t := Step(s, CreateOrg(place)).value;
    assert Held(t, t.place) == Held(s, place);
  }

  // Labels stay live through every step but those, and never through one of those.
  lemma StepKeepsIff(s: State, a: Action)
    requires Inv(s) && Step(s, a).Some?
    ensures Inv(Step(s, a).value) <==> !Strays(s, a)
  {
    StepKeepsEnvironments(s, a);
    StepKeepsJoined(s, a);
    match a
    case CreateOrg(place) => CreateOrgKeepsIff(s, place);
    case DeleteEnv(name) => DeletionKeepsLabelsIff(s, name);
    case Move(place) => MoveKeepsLabelsIff(s, place);
    case Create(env, short, spec) => CreateKeepsLabels(s, env, short, spec);
    case Rename(_) => OtherStepsKeepLabels(s, a);
    case FailMove(_, _, _) => OtherStepsKeepLabels(s, a);
    case CreateEnv(_) => OtherStepsKeepLabels(s, a);
    case _ => ClusterStepKeepsLabels(s, a);
  }

  // No step of the run is one of those.
  predicate Straight(s: State, acts: seq<Action>) {
    acts == []
    || (var n := |acts| - 1;
        Straight(s, acts[..n]) && Run(Step, s, acts[..n]).Some? && !Strays(Run(Step, s, acts[..n]).value, acts[n]))
  }

  lemma {:induction false} StraightKeeps(s: State, acts: seq<Action>)
    requires Inv(s) && Run(Step, s, acts).Some? && Straight(s, acts)
    ensures Inv(Run(Step, s, acts).value)
  {
    if acts != [] {
      var n := |acts| - 1;
      StraightKeeps(s, acts[..n]);
      StepKeepsIff(Run(Step, s, acts[..n]).value, acts[n]);
    }
  }

  // Labels are live at the beginning and after every step.
  ghost predicate LiveAllAlong(s: State, acts: seq<Action>) {
    && (acts == [] || LiveAllAlong(s, acts[..|acts| - 1]))
    && Run(Step, s, acts).Some? && Inv(Run(Step, s, acts).value)
  }

  // So they are all along a run exactly if no step of it is one of those.
  lemma {:induction false} LabelsLiveAllAlongIff(s: State, acts: seq<Action>)
    requires Inv(s) && Run(Step, s, acts).Some?
    ensures LiveAllAlong(s, acts) <==> Straight(s, acts)
  {
    if acts != [] {
      var n := |acts| - 1;
      LabelsLiveAllAlongIff(s, acts[..n]);
      if Straight(s, acts[..n]) {
        StraightKeeps(s, acts[..n]);
        StepKeepsIff(Run(Step, s, acts[..n]).value, acts[n]);
      }
    }
  }

  // The stored names ?env= lists; all of them without one.
  function Listed(s: State, env: string): set<string> {
    set stored | stored in Seen(s) && (env == "" || Effective(s, Seen(s)[stored].tag) == env)
  }

  // A cluster some environment's listing shows.
  predicate HasEnvironment(s: State, stored: string)
    requires stored in Seen(s)
  {
    if Seen(s)[stored].tag == "" then LookedUp(s) else Seen(s)[stored].tag in s.envs
  }

  // Over every run of environment and cluster requests, renames, migrations, failed migrations and controllers in which
  // no step strays: "default" stays and every label where the namespace is placed names an environment there is; no
  // cluster is in two environments' listings, and each is in one, unless it has no label and the organization does not
  // bear the namespace's name, or that organization sees a leftover; and an environment can be deleted exactly when it
  // is not "default" and labels no cluster that requests see.
  lemma {:induction false} EnvironmentsStayConsistent(s: State, acts: seq<Action>)
    requires Inv(s) && Run(Step, s, acts).Some? && Straight(s, acts)
    ensures var t := Run(Step, s, acts).value;
            && Inv(t)
            && (forall a, b | a in t.envs && b in t.envs && a != b :: Listed(t, a) !! Listed(t, b))
            && (forall stored <- Seen(t) ::
                  HasEnvironment(t, stored) <==> exists env <- t.envs :: stored in Listed(t, env))
            && (Where(t) == t.place ==>
                  forall stored <- Seen(t) :: HasEnvironment(t, stored) <==> Seen(t)[stored].tag != "" || LookedUp(t))
            && (forall name :: DeleteEnvironment(t, name).Ok? <==>
                  name in t.envs && name != DEFAULT && forall stored <- Seen(t) :: Seen(t)[stored].tag != name)
  {
    StraightKeeps(s, acts);
    var t := Run(Step, s, acts).value;
    forall stored <- Seen(t)
      ensures HasEnvironment(t, stored) <==> exists env <- t.envs :: stored in Listed(t, env)
    {
      ListedSomewhereIff(t, stored);
    }
    forall name ensures DeleteEnvironment(t, name).Ok? <==>
        name in t.envs && name != DEFAULT && forall stored <- Seen(t) :: Seen(t)[stored].tag != name
    {
      DeletedOnlyWhenEmpty(t, name);
    }
  }

  lemma ListedSomewhereIff(s: State, stored: string)
    requires BaseInv(s) && stored in Seen(s)
    ensures HasEnvironment(s, stored) <==> exists env <- s.envs :: stored in Listed(s, env)
  {
    if HasEnvironment(s, stored) {
      var env := Effective(s, Seen(s)[stored].tag);
      assert env in s.envs && stored in Listed(s, env);
    }
  }

  lemma DeletedOnlyWhenEmpty(s: State, name: string)
    requires Inv(s)
    ensures DeleteEnvironment(s, name).Ok? <==>
              name in s.envs && name != DEFAULT && forall stored <- Seen(s) :: Seen(s)[stored].tag != name
  {
    if name in s.envs && name != DEFAULT && DEFAULT in s.envs {
      TwoEnvironments(s.envs, name, DEFAULT);
    }
  }

  lemma TwoEnvironments(envs: seq<string>, a: string, b: string)
    requires a in envs && b in envs && a != b
    ensures |envs| >= 2
  {
  }

  // A new environment can be deleted again at once, and leaves nothing behind, unless requests see a leftover with its
  // label: which an organization that bears its namespace's name never does.
  lemma DeleteUndoesCreate(s: State, name: string)
    requires BaseInv(s) && s.org && name != "" && name !in s.envs
    ensures CreateEnvironment(s, name).Ok?
    ensures DeleteEnvironment(CreateEnvironment(s, name).value, name) == if InUse(s, name) then Err(Conflict) else Ok(s)
    ensures LabelsLive(s) && LookedUp(s) ==> !InUse(s, name)
  {
    RemovedLast(s.envs, name);
    assert name != DEFAULT;
    assert |s.envs + [name]| > 1;
    var t := CreateEnvironment(s, name).value;
    assert Seen(t) == Seen(s);
    assert InUse(t, name) <==> InUse(s, name);
  }

  lemma {:induction false} RemovedLast(envs: seq<string>, name: string)
    requires name !in envs
    ensures Removed(envs + [name], name) == envs
  {
    if envs != [] {
      RemovedLast(envs[1..], name);
      assert (envs + [name])[1..] == envs[1..] + [name];
    } else {
      assert ([] + [name])[1..] == [];
    }
  }

  // ---- What requests store ----

  // The environment a request is for: the one it names or, naming none, the only one.
  predicate IsFor(s: State, requested: string, env: string) {
    LookedUp(s) && env in s.envs && (if requested == "" then s.envs == [env] else requested == env)
  }

  // Everything but the clusters that requests see is as it was.
  ghost predicate OnlySeen(s: State, t: State) {
    t == s.(stores := t.stores) && forall l: Place :: l != Where(s) ==> Held(t, l) == Held(s, l)
  }

  // Every cluster but this one is seen as it was.
  ghost predicate OnlyCluster(s: State, t: State, stored: string) {
    forall o: string :: o != stored ==>
      (o in Seen(t) <==> o in Seen(s)) && (o in Seen(s) ==> Seen(t)[o] == Seen(s)[o] && ToDTO(t, o) == ToDTO(s, o))
  }

  lemma RewritesOnly(s: State, clusters: Clusters, stored: string)
    requires forall o: string :: o != stored ==> Get(clusters, o) == Get(Seen(s), o)
    ensures var t := Rewritten(s, clusters);
            OnlySeen(s, t) && Seen(t) == clusters && OnlyCluster(s, t, stored) && Where(t) == Where(s)
  {
    var t := Rewritten(s, clusters);
    assert Seen(t) == clusters;
    forall o: string | o != stored
      ensures o in Seen(t) <==> o in Seen(s)
      ensures o in Seen(s) ==> Seen(t)[o] == Seen(s)[o] && ToDTO(t, o) == ToDTO(s, o)
    {
      assert Get(clusters, o) == Get(Seen(s), o);
    }
  }

  // In an organization, a create goes through exactly for a name whose joined form is free, in the environment it is
  // for; then the one more cluster, of that spec, is the one that name and environment address, and is listed as such.
  lemma CreatesInEnvironment(s: State, requested: string, env: string, short: string, spec: string)
    requires BaseInv(s) && IsFor(s, requested, env)
    ensures var r, stored := CreateCluster(s, requested, short, spec), env + "-" + short;
            && (r.Ok? <==> short != "" && stored !in Seen(s))
            && (r.Err? ==> r.error == if short == "" then BadRequest else Conflict)
            && (r.Ok? ==>
                  var t := r.value;
                  && OnlySeen(s, t) && stored in Seen(t) && OnlyCluster(s, t, stored)
                  && Seen(t)[stored] == Cluster(env, spec, false, false)
                  && Addressed(t, env, short) == stored && ToDTO(t, stored) == DTO(short, env, spec, false)
                  && forall e: string ::
                       Listed(t, e) == if e == env || e == "" then Listed(s, e) + {stored} else Listed(s, e))
  {
    var r, stored := CreateCluster(s, requested, short, spec), env + "-" + short;
    if r.Ok? {
      var t := r.value;
      var made := Cluster(env, spec, false, false);
      RewritesOnly(s, Seen(s)[stored := made], stored);
      SplitUndoesJoin(env, short);
      forall e: string
        ensures Listed(t, e) == if e == env || e == "" then Listed(s, e) + {stored} else Listed(s, e)
      {
        ListingGrows(s, t, e, stored, made);
      }
    }
  }

  lemma ListingGrows(s: State, t: State, e: string, stored: string, made: Cluster)
    requires t == s.(stores := t.stores) && stored !in Seen(s) && Seen(t) == Seen(s)[stored := made] && made.tag != ""
    ensures Listed(t, e) == if e == made.tag || e == "" then Listed(s, e) + {stored} else Listed(s, e)
  {
  }

  // Without a looked-up organization it is under its own name, with no label; wherever it is not clear which
  // environment a request is for, none is made.
  lemma CreatesElsewhere(s: State, requested: string, short: string, spec: string)
    requires forall env <- s.envs :: !IsFor(s, requested, env)
    ensures var r := CreateCluster(s, requested, short, spec);
            && (r.Ok? <==> !LookedUp(s) && short != "" && short !in Seen(s))
            && (r.Err? ==> r.error == if short == "" || LookedUp(s) then BadRequest else Conflict)
            && (r.Ok? ==>
                  var t := r.value;
                  && OnlySeen(s, t) && short in Seen(t) && OnlyCluster(s, t, short)
                  && Seen(t)[short] == Cluster("", spec, false, false)
                  && Addressed(t, requested, short) == short && ToDTO(t, short) == DTO(short, "", spec, false))
  {
    var r := CreateCluster(s, requested, short, spec);
    if LookedUp(s) {
      assert requested in s.envs ==> requested == "" || IsFor(s, requested, requested);
      assert |s.envs| == 1 ==> s.envs == [s.envs[0]] && s.envs[0] in s.envs;
    }
    if r.Ok? {
      RewritesOnly(s, Seen(s)[short := Cluster("", spec, false, false)], short);
    }
  }

  // A listed cluster, addressed as listed, is updated to the spec given and nothing else; deleted, it is pending while
  // a finalizer holds it and otherwise gone. Every other one stays.
  lemma ChangesAsListed(s: State, stored: string, spec: string, finalizer: bool)
    requires Inv(s) && stored in Seen(s) && (LookedUp(s) <==> Seen(s)[stored].tag != "")
    ensures var dto := ToDTO(s, stored);
            var u, d := UpdateCluster(s, dto.environment, dto.name, spec),
                        DeleteCluster(s, dto.environment, dto.name, finalizer);
            && u.Ok? && OnlySeen(s, u.value) && OnlyCluster(s, u.value, stored)
            && stored in Seen(u.value) && Seen(u.value)[stored] == Seen(s)[stored].(spec := spec)
            && ToDTO(u.value, stored) == dto.(spec := spec)
            && d.Ok? && OnlySeen(s, d.value) && OnlyCluster(s, d.value, stored)
            && (stored in Seen(d.value) <==> finalizer)
            && (finalizer ==> Seen(d.value)[stored] == Seen(s)[stored].(deleting := true)
                              && ToDTO(d.value, stored) == dto.(pendingDeletion := true))
  {
    ReachedAsListedIff(s, stored);
    var was := Seen(s)[stored];
    RewritesOnly(s, Seen(s)[stored := was.(spec := spec)], stored);
    RewritesOnly(s, Seen(s)[stored := was.(deleting := true)], stored);
    RewritesOnly(s, Seen(s) - {stored}, stored);
  }

  // A request that addresses no cluster there is changes nothing.
  lemma NothingToChange(s: State, requested: string, name: string, spec: string, finalizer: bool)
    requires Addressed(s, requested, name) !in Seen(s)
    ensures UpdateCluster(s, requested, name, spec) == Err(NotFound)
    ensures DeleteCluster(s, requested, name, finalizer) == Err(NotFound)
  {
  }

  // An unlabelled cluster of an organization is listed in "default"; a labelled one in its label's environment, under
  // its stored name without the label and a dash.
  lemma ListedAs(s: State, stored: string)
    requires BaseInv(s) && stored in Seen(s)
    ensures var dto, c := ToDTO(s, stored), Seen(s)[stored];
            && dto.spec == c.spec && (dto.pendingDeletion <==> c.deleting)
            && (if c.tag != "" then dto.environment == c.tag && c.tag + "-" + dto.name == stored
                else dto.name == stored && dto.environment == if LookedUp(s) then DEFAULT else "")
  {
    LabelledIsJoined(s, stored);
    if LookedUp(s) && |s.envs| == 1 {
      assert s.envs[0] == DEFAULT;
    }
  }

  // An environment is added once, and its row comes last; a deletion removes it and no other.
  lemma EnvironmentsChange(s: State, name: string)
    requires EnvironmentsInv(s)
    ensures var c, d := CreateEnvironment(s, name), DeleteEnvironment(s, name);
            && (c.Ok? <==> s.org && name != "") && (c.Err? ==> c.error == if s.org then BadRequest else NotFound)
            && (c.Ok? ==> c.value == s.(envs := c.value.envs) && Distinct(c.value.envs) && s.envs <= c.value.envs
                          && forall e :: e in c.value.envs <==> e in s.envs || e == name)
            && (d.Ok? ==> d.value == s.(envs := d.value.envs) && Distinct(d.value.envs)
                          && forall e :: e in d.value.envs <==> e in s.envs && e != name)
            && (d.Err? ==> d.error == if !s.org then NotFound else if name == DEFAULT then BadRequest
                                      else if name !in s.envs then NotFound else Conflict)
  {
    RemovedContents(s.envs, name);
    if s.org && name in s.envs && name != DEFAULT {
      TwoEnvironments(s.envs, name, DEFAULT);
    }
  }

  // A deletion never takes the last environment, whatever there is.
  lemma NeverTheLast(s: State, name: string)
    requires Distinct(s.envs)
    ensures DeleteEnvironment(s, name).Ok? ==> DeleteEnvironment(s, name).value.envs != []
    ensures s.org && s.envs == [name] && name != DEFAULT ==> DeleteEnvironment(s, name) == Err(BadRequest)
  {
    if DeleteEnvironment(s, name).Ok? {
      RemovedContents(s.envs, name);
      var other := if s.envs[0] == name then s.envs[1] else s.envs[0];
      assert other in DeleteEnvironment(s, name).value.envs;
    }
  }

  // An unlabelled cluster is an only environment's, whatever its name; and of several "default"'s, if that is one.
  lemma UnlabelledIs(s: State, env: string)
    requires LookedUp(s)
    ensures s.envs == [env] ==> Effective(s, "") == env
    ensures |s.envs| != 1 && DEFAULT in s.envs ==> Effective(s, "") == DEFAULT
    ensures |s.envs| != 1 && DEFAULT !in s.envs ==> Effective(s, "") == ""
  {
  }

  // What names an environment there is not, or a cluster where unlabelled ones have none, is taken literally.
  lemma TakenLiterally(s: State, requested: string, name: string)
    requires if requested == "" then Effective(s, "") == "" else requested !in s.envs
    ensures Addressed(s, requested, name) == name
  {
  }

  // ---- How a label dies ----

  // A cluster where the namespace is placed, seen by requests, in no environment's listing.
  predicate Orphan(s: State, stored: string, env: string) {
    && LookedUp(s) && stored in Seen(s) && Seen(s)[stored].tag == env && env !in s.envs
    && forall e <- s.envs :: stored !in Listed(s, e)
  }

  lemma DeadIsOrphan(s: State, stored: string, env: string)
    requires LookedUp(s) && stored in Seen(s) && Seen(s)[stored].tag == env != "" && env !in s.envs && "" !in s.envs
    ensures Orphan(s, stored, env)
  {
  }

  // From any state in which an organization on a cluster of its own has an environment other than "default" with a
  // cluster in it: renamed, it may delete that environment, unless some cluster at home bears the label. Under its old
  // name again, it has a cluster no environment lists.
  lemma RenamedDeletionStrays(s: State, name: string, stored: string) returns (acts: seq<Action>)
    requires Inv(s) && LookedUp(s) && s.place.Some? && name in s.envs && name != DEFAULT
    requires stored in Seen(s) && Seen(s)[stored].tag == name
    requires forall c <- Held(s, None) :: Held(s, None)[c].tag != name
    ensures Run(Step, s, acts).Some? && Orphan(Run(Step, s, acts).value, stored, name)
  {
    var renamed := s.(named := false);
    assert Seen(renamed) == Held(s, None) && !InUse(renamed, name);
    TwoEnvironments(s.envs, name, DEFAULT);
    RemovedContents(s.envs, name);
    var deleted := renamed.(envs := Removed(s.envs, name));
    var t := deleted.(named := true);
    Then(Step, s, [], Rename(false));
    acts := [] + [Rename(false)];
    Then(Step, s, acts, DeleteEnv(name));
    acts := acts + [DeleteEnv(name)];
    Then(Step, s, acts, Rename(true));
    acts := acts + [Rename(true)];
    assert Run(Step, s, acts) == Some(t) && Seen(t) == Seen(s);
    DeadIsOrphan(t, stored, name);
  }

  // A cluster of a new environment is moved to another cluster.
  lemma MadeAndMoved(s: State, env: string, short: string, target: Place) returns (acts: seq<Action>, t: State)
    requires Inv(s) && LookedUp(s) && env != "" && env !in s.envs && short != "" && target != s.place
    requires Join(env, short) !in Seen(s)
    ensures Run(Step, s, acts) == Some(t)
    ensures var here := Seen(s)[Join(env, short) := Cluster(env, "", false, false)];
            t == s.(envs := s.envs + [env], place := target,
                    stores := s.stores[s.place := here][target := Merge(here, Held(s, target))])
  {
    var stored, made := Join(env, short), Cluster(env, "", false, false);
    var s1 := s.(envs := s.envs + [env]);
    acts := Next(s, [], s, CreateEnv(env), s1);
    var here := Seen(s)[stored := made];
    var s2 := Rewritten(s1, here);
    assert env in s1.envs && Seen(s1) == Seen(s);
    acts := Next(s, acts, s1, Create(env, short, ""), s2);
    t := Moved(s2, target);
    assert Seen(s2) == here && Held(s2, target) == Held(s, target);
    acts := Next(s, acts, s2, Move(target), t);
  }

  // There it is deleted, and then the environment, if it labels nothing else there.
  lemma DeletedThere(s: State, envs: seq<string>, env: string, short: string) returns (acts: seq<Action>, t: State)
    requires LookedUp(s) && s.envs == envs + [env] && env !in envs && env != "" && DEFAULT in envs
    requires Join(env, short) in Seen(s) && forall c <- Seen(s) :: Seen(s)[c].tag == env ==> c == Join(env, short)
    ensures Run(Step, s, acts) == Some(t)
    ensures t == s.(envs := envs, stores := s.stores[s.place := Seen(s) - {Join(env, short)}])
  {
    var stored := Join(env, short);
    assert Addressed(s, env, short) == stored;
    var s1 := Rewritten(s, Seen(s) - {stored});
    acts := Next(s, [], s, Delete(env, short, false), s1);
    assert Seen(s1) == Seen(s) - {stored};
    assert !InUse(s1, env) by {
      forall c <- Seen(s1) ensures Seen(s1)[c].tag != env {
        assert c in Seen(s) && Seen(s1)[c] == Seen(s)[c];
      }
    }
    TwoEnvironments(s1.envs, env, DEFAULT);
    RemovedLast(envs, env);
    t := s1.(envs := envs);
    acts := Next(s, acts, s1, DeleteEnv(env), t);
  }

  lemma OnlyOneLabelled(s: State, env: string, stored: string, target: Place)
    requires Inv(s) && LookedUp(s) && env != "" && env !in s.envs
    requires forall c <- Held(s, target) :: Held(s, target)[c].tag != env
    ensures var there := Merge(Seen(s)[stored := Cluster(env, "", false, false)], Held(s, target));
            stored in there && forall c <- there :: there[c].tag == env ==> c == stored
  {
    forall c <- Seen(s) ensures Seen(s)[c].tag != env {
      assert !Dead(s.envs, Seen(s)[c].tag);
    }
  }

  // Moved to another cluster, a cluster of a new environment is deleted there, and then the environment.
  lemma DeletedElsewhere(s: State, env: string, short: string, target: Place) returns (acts: seq<Action>, t: State)
    requires Inv(s) && LookedUp(s) && env != "" && env !in s.envs && short != "" && target != s.place
    requires Join(env, short) !in Seen(s) && forall c <- Held(s, target) :: Held(s, target)[c].tag != env
    ensures Run(Step, s, acts) == Some(t) && LookedUp(t) && t.place == target && t.envs == s.envs
    ensures Join(env, short) !in Seen(t)
    ensures Held(t, s.place) == Seen(s)[Join(env, short) := Cluster(env, "", false, false)]
  {
    var first, u := MadeAndMoved(s, env, short, target);
    OnlyOneLabelled(s, env, Join(env, short), target);
    var more;
    more, t := DeletedThere(u, s.envs, env, short);
    Continued(Step, s, first, more);
    acts := first + more;
  }

  // One more step of a run.
  lemma Next(s: State, acts: seq<Action>, t: State, a: Action, u: State) returns (more: seq<Action>)
    requires Run(Step, s, acts) == Some(t) && Step(t, a) == Some(u)
    ensures more == acts + [a] && Run(Step, s, more) == Some(u)
  {
    Then(Step, s, acts, a);
    more := acts + [a];
  }

  // Moved back, it finds the old copy again, with the label of an environment deleted meanwhile: from any state, for
  // any environment that is new and labels nothing on the other cluster.
  lemma DeadLabelReturns(s: State, env: string, short: string, target: Place) returns (acts: seq<Action>)
    requires Inv(s) && LookedUp(s) && env != "" && env !in s.envs && short != "" && target != s.place
    requires Join(env, short) !in Seen(s) && forall c <- Held(s, target) :: Held(s, target)[c].tag != env
    ensures Run(Step, s, acts).Some?
    ensures var t := Run(Step, s, acts).value; t.place == s.place && Orphan(t, Join(env, short), env)
  {
    var u;
    acts, u := DeletedElsewhere(s, env, short, target);
    var t := Moved(u, s.place);
    acts := Next(s, acts, u, Move(s.place), t);
    DeadIsOrphan(t, Join(env, short), env);
  }

  // ---- Listings ----

  // Two rows are listed under one name and environment exactly when one has no label and the other's stored name is
  // the environment of no label joined with the first one's.
  predicate Doubles(s: State, a: string, b: string)
    requires a in Seen(s) && b in Seen(s)
  {
    Seen(s)[a].tag == "" && LookedUp(s) && Seen(s)[b].tag == Effective(s, "") && b == Join(Effective(s, ""), a)
  }

  lemma ListedTwiceIff(s: State, a: string, b: string)
    requires Inv(s) && a in Seen(s) && b in Seen(s) && a != b
    ensures ToDTO(s, a).name == ToDTO(s, b).name && ToDTO(s, a).environment == ToDTO(s, b).environment
            <==> Doubles(s, a, b) || Doubles(s, b, a)
  {
    LabelledIsJoined(s, a);
    LabelledIsJoined(s, b);
    if Seen(s)[a].tag != "" && Seen(s)[b].tag != "" {
      assert Join(Seen(s)[a].tag, ToDTO(s, a).name) == a && Join(Seen(s)[b].tag, ToDTO(s, b).name) == b;
    }
    SplitUndoesJoin(Effective(s, ""), a);
    SplitUndoesJoin(Effective(s, ""), b);
  }

  lemma LabelledIsJoined(s: State, stored: string)
    requires BaseInv(s) && stored in Seen(s)
    ensures Seen(s)[stored].tag != "" ==> Join(Seen(s)[stored].tag, ToDTO(s, stored).name) == stored
  {
    if Seen(s)[stored].tag != "" {
      JoinUndoesSplit(stored, Seen(s)[stored].tag);
    }
  }

  // ---- Addressing ----

  // A listed row is reached by its listed name and environment exactly when it is labelled and the organization is
  // found, or neither: an unlabelled row is not addressed by the environment it is listed under, and a labelled one not
  // at all once the organization has taken another name.
  lemma ReachedAsListedIff(s: State, stored: string)
    requires Inv(s) && stored in Seen(s)
    ensures var dto := ToDTO(s, stored);
            Addressed(s, dto.environment, dto.name) == stored <==> (LookedUp(s) <==> Seen(s)[stored].tag != "")
  {
    var tag := Seen(s)[stored].tag;
    if tag != "" {
      JoinUndoesSplit(stored, tag);
      SplitUndoesJoin(tag, Split(stored, tag));
    } else if LookedUp(s) {
      SplitUndoesJoin(Effective(s, ""), stored);
    }
  }

  // An unlabelled row is always reached by its name alone; a labelled one, when the organization is found, no object
  // literally has its short name, and its environment is the one of no label.
  lemma ReachedByNameAloneIff(s: State, stored: string)
    requires Inv(s) && stored in Seen(s)
    ensures var dto, tag := ToDTO(s, stored), Seen(s)[stored].tag;
            Addressed(s, "", dto.name) == stored <==>
              tag == "" || (LookedUp(s) && dto.name !in Seen(s) && tag == Effective(s, ""))
  {
    var tag := Seen(s)[stored].tag;
    if tag != "" {
      JoinUndoesSplit(stored, tag);
      var short := Split(stored, tag);
      SplitUndoesJoin(tag, short);
      SameShortNameNeverCollides(tag, Effective(s, ""), short);
    }
  }

  // A request for an environment reaches a cluster of another only where the two names are a prefix pair.
  lemma ReachesOwnEnvironment(s: State, env: string, name: string)
    requires Inv(s) && LookedUp(s) && env in s.envs && Addressed(s, env, name) in Seen(s)
    ensures var tag := Seen(s)[Addressed(s, env, name)].tag;
            tag == "" || tag == env || PrefixPair(tag, env)
  {
    var stored := Addressed(s, env, name);
    SplitUndoesJoin(env, name);
    var tag := Seen(s)[stored].tag;
    if tag != "" && tag != env {
      SharedNamePrefix(tag, env, stored);
    }
  }

  // And where they are, it does: a request naming env updates a cluster listed under another environment.
  lemma CrossEnvironmentRequest(s: State, env: string, other: string, short: string, spec: string)
    requires Inv(s) && LookedUp(s) && env in s.envs && other in s.envs && env + "-" <= other && short != ""
    requires Join(other, short) !in Seen(s)
    ensures var created := CreateCluster(s, other, short, "");
            && created.Ok?
            && var name := Split(other, env) + "-" + short;
            && ToDTO(created.value, Join(other, short)).environment == other
            && UpdateCluster(created.value, env, name, spec)
                 == Ok(Rewritten(s, Seen(s)[Join(other, short) := Cluster(other, spec, false, false)]))
  {
    JoinUndoesSplit(other, env);
    var name := Split(other, env) + "-" + short;
    assert Join(env, name) == Join(env, Split(other, env)) + "-" + short;
    var stored := Join(other, short);
    var was, updated := Cluster(other, "", false, false), Cluster(other, spec, false, false);
    assert Seen(s)[stored := was][stored := updated] == Seen(s)[stored := updated];
    var w := Where(s);
    assert s.stores[w := Seen(s)[stored := was]][w := Seen(s)[stored := updated]]
        == s.stores[w := Seen(s)[stored := updated]];
  }

  // A create refused for its name met an object of that environment and name, an unlabelled one, or one of a prefix
  // pair; where no organization is found, the one that literally has the name.
  lemma WhyConflict(s: State, env: string, short: string, spec: string)
    requires Inv(s) && CreateCluster(s, env, short, spec) == Err(Conflict)
    ensures var e := ResolveEnvironment(s, env).value;
            var stored := if e.Some? then Join(e.value, short) else short;
            && stored in Seen(s)
            && var tag := Seen(s)[stored].tag;
            e.None? || tag == "" || PrefixPair(tag, e.value) || (tag == e.value && Split(stored, tag) == short)
  {
    var e := ResolveEnvironment(s, env).value;
    if e.Some? {
      var stored := Join(e.value, short);
      SplitUndoesJoin(e.value, short);
      var tag := Seen(s)[stored].tag;
      if tag != "" && tag != e.value {
        SharedNamePrefix(tag, e.value, stored);
      }
    }
  }

  // ---- The handlers on the store ----

  // The rows listed of items, in their order.
  function ListedRows(s: State, items: seq<string>, env: string): seq<DTO>
    requires forall stored <- items :: stored in Seen(s)
  {
    if items == [] then []
    else
      var n := |items| - 1;
      var dto := ToDTO(s, items[n]);
      ListedRows(s, items[..n], env) + if env != "" && dto.environment != env then [] else [dto]
  }

  // What is listed is Listed, row for row.
  lemma {:induction false} ListedRowsContents(s: State, items: seq<string>, env: string)
    requires forall stored <- items :: stored in Seen(s)
    ensures forall dto :: dto in ListedRows(s, items, env) <==>
              exists stored <- items :: stored in Listed(s, env) && ToDTO(s, stored) == dto
  {
    if items != [] {
      var n := |items| - 1;
      assert items == items[..n] + [items[n]];
      ListedRowsContents(s, items[..n], env);
    }
  }

  class NamespaceStore {
    var org: bool
    var named: bool
    var place: Place
    var envs: seq<string>
    var stores: map<Place, Clusters>

    function Rows(): State
      reads this
    {
      State(org, named, place, envs, stores)
    }

    constructor (stores: map<Place, Clusters>)
      ensures Rows() == State(false, false, None, [], stores)
    {
      org, named, place, envs, this.stores := false, false, None, [], stores;
    }

    method HandleListClusters(items: seq<string>, onlyEnv: string) returns (dtos: seq<DTO>)
      requires forall stored <- items :: stored in Seen(Rows())
      ensures dtos == ListedRows(Rows(), items, onlyEnv)
    {
      dtos := [];
      for i := 0 to |items|
        invariant dtos == ListedRows(Rows(), items[..i], onlyEnv)
      {
        assert items[..i + 1][..i] == items[..i];
        var dto := ToDTO(Rows(), items[i]);
        if onlyEnv != "" && dto.environment != onlyEnv {
          continue;
        }
        dtos := dtos + [dto];
      }
      assert items[..|items|] == items;
    }

    method EnvironmentInUse(env: string) returns (inUse: bool)
      ensures inUse <==> InUse(Rows(), env)
    {
      var clusters := Seen(Rows());
      var labelled := set stored | stored in clusters && clusters[stored].tag == env;
      inUse := |labelled| > 0;
      if stored :| stored in clusters && clusters[stored].tag == env {
        assert stored in labelled;
      }
      assert inUse ==> exists stored :: stored in labelled;
    }

    method HandleCreateEnvironment(name: string, fault: bool) returns (failed: Option<Status>)
      modifies this
      ensures var r := CreateEnvironment(old(Rows()), name);
              && failed == (if r.Err? then Some(r.error) else if fault then Some(Internal) else None)
              && Rows() == if failed.None? then r.value else old(Rows())
    {
      if !org {
        return Some(NotFound);
      }
      if name == "" {
        return Some(BadRequest);
      }
      if fault {
        return Some(Internal);
      }
      if name !in envs {
        envs := envs + [name];
      }
      return None;
    }

    method HandleDeleteEnvironment(name: string, fault: bool) returns (failed: Option<Status>)
      modifies this
      ensures var r := DeleteEnvironment(old(Rows()), name);
              && failed == (if r.Err? then Some(r.error) else if fault then Some(Internal) else None)
              && Rows() == if failed.None? then r.value else old(Rows())
    {
      if !org {
        return Some(NotFound);
      }
      if name == DEFAULT {
        return Some(BadRequest);
      }
      if name !in envs {
        return Some(NotFound);
      }
      if |envs| <= 1 {
        return Some(BadRequest);
      }
      var inUse := EnvironmentInUse(name);
      if inUse {
        return Some(Conflict);
      }
      if fault {
        return Some(Internal);
      }
      envs := Removed(envs, name);
      return None;
    }

    method HandleCreateCluster(requested: string, short: string, spec: string, fault: bool)
      returns (failed: Option<Status>)
      modifies this
      ensures var r := CreateCluster(old(Rows()), requested, short, spec);
              && failed == (if r.Err? then Some(r.error) else if fault then Some(Internal) else None)
              && Rows() == if failed.None? then r.value else old(Rows())
    {
      if short == "" {
        return Some(BadRequest);
      }
      var resolved := ResolveEnvironment(Rows(), requested);
      if resolved.Err? {
        return Some(resolved.error);
      }
      var stored, tag := short, "";
      if resolved.value.Some? {
        tag := resolved.value.value;
        stored := Join(tag, short);
      }
      var clusters := Seen(Rows());
      if stored in clusters {
        return Some(Conflict);
      }
      if fault {
        return Some(Internal);
      }
      stores := stores[Where(Rows()) := clusters[stored := Cluster(tag, spec, false, false)]];
      return None;
    }
  }
}
