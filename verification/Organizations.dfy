/**
Organizations, the clusters they are placed on, and moving one to another cluster
(internal/api/organizations.go, internal/api/orgreconcilingclusters.go, internal/orgdb/crud.go).

A migration is many steps; every other handler is one. Kubernetes objects are those of the four kinds a
migration copies, on whichever physical cluster they live. Beside the handlers, controllers delete ClusterDefinitions
(internal/controller, internal/reconcile), under no lock.
 */
module Organizations {
  import opened Wrappers

  type OrgID = string
  type ClusterID = string
  type Namespace = string

  // reconciling_cluster_id NULL is the control plane's own home cluster.
  datatype Location = Home | On(cluster: ClusterID)

  datatype Kind = ClusterDefinition | Template | Workflow | Resource

  datatype Key = Key(ns: Namespace, kind: Kind, name: string)

  // `delete` is spec.delete, which ClusterDefinitions have; `deleting` a deletion timestamp, set on an object that a
  // finalizer still holds.
  datatype Object = Object(spec: string, labels: map<string, string>, delete: bool, deleting: bool)

  // One object's place: which physical cluster, which key there.
  datatype At = At(location: Location, key: Key)

  datatype Organization = Organization(
    name: string,
    ns: Namespace,
    cluster: Option<ClusterID>,
    migrating: bool,
    pendingDeletion: bool)

  // A reconciling_clusters row; owner None is the superadmin pool.
  datatype Row = Row(name: string, owner: Option<OrgID>)

  // What runOrganizationMigration is busy with, in its own order.
  datatype Pass = CopyClusters | CopyLabels | CopyTemplates | CopyWorkflows | CopyResources | Copied

  // One goroutine inside migrateOrganizationToTarget, after the lock was written. `todo` is what is left of the
  // listing the current pass works through. The last field is history: every pass's listing, as it was taken.
  datatype Job = Job(
    ns: Namespace,
    target: Option<ClusterID>,
    src: Location,
    pass: Pass,
    todo: map<Key, Object>,
    failed: bool,
    snaps: map<Pass, map<Key, Object>>)

  datatype Config = Config(control: Namespace, requireCluster: bool, hasHome: bool)

  datatype State = State(
    config: Config,
    orgs: map<OrgID, Organization>,
    rows: map<ClusterID, Row>,
    objects: map<At, Object>,
    jobs: map<OrgID, Job>,
    orgIDs: set<OrgID>,        // every id ever given out: ids are UUIDs and never come back
    rowIDs: set<ClusterID>)

  datatype Action =
    | CreateOrganization(id: OrgID, name: string, target: Option<ClusterID>)
    | Rename(id: OrgID, name: string)
    | Start(id: OrgID, target: Option<ClusterID>)  // all checks of migrateOrganizationToTarget, and the lock
    | CopyNext(id: OrgID, key: Key)
    | NextPass(id: OrgID)
    | FailCopy(id: OrgID)
    | Unlock(id: OrgID, fault: bool)
    | Flip(id: OrgID, fault: bool)
    | Crash(id: OrgID)        // the process dies in the middle of the migration
    | RegisterRow(cluster: ClusterID, name: string, owner: Option<OrgID>)
    | RemoveRow(id: OrgID, cluster: ClusterID)
    | MarkDeletion(id: OrgID)
    | Terminate(at: At)       // the namespace delete reaches one object
    | Sweep(id: OrgID)        // the row of a deleted organization goes
    // A wrapped write to one object of namespace key.ns; fault is a lock look-up that fails, which lets it through.
    | Request(key: Key, content: Option<Object>, fault: bool)
    | Mark(at: At)            // a controller deletes an expired ClusterDefinition, or one with spec.delete
    | Reap(at: At)            // a controller removes the finalizer of one being deleted

  // ---- Lookups ----

  // GetOrganizationByName: by the (renamable) name.
  ghost function Named(s: State, name: string): Option<OrgID> {
    if id :| id in s.orgs && s.orgs[id].name == name then Some(id) else None
  }

  function Place(cluster: Option<ClusterID>): Location {
    if cluster.Some? then On(cluster.value) else Home
  }

  // resourceClient: where a request for namespace ns goes. The namespace is looked up as a name.
  ghost function Route(s: State, ns: Namespace): Location {
    match Named(s, ns)
    case Some(id) => Place(s.orgs[id].cluster)
    case None => Home
  }

  predicate Available(s: State, l: Location) {
    match l
    case Home => s.config.hasHome
    case On(c) => c in s.rows
  }

  // requireOrganizationNotMigrating: 423 instead of the handler.
  ghost predicate Refused(s: State, ns: Namespace) {
    ns != s.config.control && Named(s, ns).Some? && s.orgs[Named(s, ns).value].migrating
  }

  function Lower(c: char): char {
    if 'A' <= c <= 'Z' then ((c as int) + 32) as char else c
  }

  // strings.EqualFold on ASCII names.
  predicate EqualFold(a: string, b: string) {
    |a| == |b| && forall i | 0 <= i < |a| :: Lower(a[i]) == Lower(b[i])
  }

  // ---- The copy ----

  function KindOf(p: Pass): Kind
    requires !p.Copied?
  {
    match p
    case CopyClusters => ClusterDefinition
    case CopyLabels => ClusterDefinition
    case CopyTemplates => Template
    case CopyWorkflows => Workflow
    case CopyResources => Resource
  }

  function After(p: Pass): Pass
    requires !p.Copied?
  {
    match p
    case CopyClusters => CopyLabels
    case CopyLabels => CopyTemplates
    case CopyTemplates => CopyWorkflows
    case CopyWorkflows => CopyResources
    case CopyResources => Copied
  }

  // client.List of one kind in one namespace.
  function Listing(objects: map<At, Object>, l: Location, ns: Namespace, kind: Kind): map<Key, Object> {
    map at | at in objects && at.location == l && at.key.ns == ns && at.key.kind == kind :: at.key := objects[at]
  }

  // What a listed object is created as on the destination. The conversion of a ClusterDefinition takes a deletion
  // timestamp for spec.delete; no new object has a timestamp of its own.
  function Carried(kind: Kind, o: Object): Object {
    o.(delete := o.delete || (kind.ClusterDefinition? && o.deleting), deleting := false)
  }

  // What one listed object makes of the destination's object of that key. A copy is made with force=false, so
  // an object already there is skipped; a copied ClusterDefinition has no labels until the label pass.
  function CopiedObject(p: Pass, item: Object, there: Option<Object>): Option<Object>
    requires !p.Copied?
  {
    match p
    case CopyClusters => if there.Some? then there else Some(Carried(ClusterDefinition, item).(labels := map[]))
    case CopyLabels => if there.Some? then Some(there.value.(labels := item.labels)) else None
    case _ => if there.Some? then there else Some(Carried(KindOf(p), item))
  }

  // ---- Steps ----

  ghost predicate CleanStart(s: State, id: OrgID)
    requires id in s.orgs
  {
    && s.orgs[id].ns != s.config.control
    && s.orgs[id].name == s.orgs[id].ns
    && forall j <- s.jobs :: s.jobs[j].ns != s.orgs[id].ns
  }

  predicate Selectable(s: State, id: OrgID, target: Option<ClusterID>) {
    target.Some? ==>
      target.value in s.rows && (s.rows[target.value].owner.None? || s.rows[target.value].owner == Some(id))
  }

  ghost predicate Enabled(s: State, a: Action) {
    match a
    case CreateOrganization(id, name, target) =>
      && id !in s.orgIDs
      && name != "" && !EqualFold(name, s.config.control)
      && (s.config.requireCluster ==> target.Some?)
      && (target.Some? ==> target.value in s.rows && s.rows[target.value].owner.None?)
      && (forall o <- s.orgs :: s.orgs[o].name != name && s.orgs[o].ns != name)
    case Rename(id, name) =>
      && id in s.orgs && !s.orgs[id].pendingDeletion && !s.orgs[id].migrating
      && name != "" && !EqualFold(name, s.config.control)
      && (forall o <- s.orgs :: o != id ==> s.orgs[o].name != name)
    case Start(id, target) =>
      && id in s.orgs && !s.orgs[id].pendingDeletion && !s.orgs[id].migrating
      && !(s.config.requireCluster && target.None? && s.orgs[id].ns != s.config.control)
      && target != s.orgs[id].cluster
      && Selectable(s, id, target)
      && Available(s, Route(s, s.orgs[id].ns)) && Available(s, Place(target))
    case CopyNext(id, key) =>
      && id in s.jobs && !s.jobs[id].failed && !s.jobs[id].pass.Copied? && key in s.jobs[id].todo
      && CopiedObject(s.jobs[id].pass, s.jobs[id].todo[key], Get(s.objects, At(Place(s.jobs[id].target), key))).Some?
    case NextPass(id) => id in s.jobs && !s.jobs[id].failed && !s.jobs[id].pass.Copied? && s.jobs[id].todo == map[]
    case FailCopy(id) => id in s.jobs && !s.jobs[id].failed && !s.jobs[id].pass.Copied?
    case Unlock(id, _) => id in s.jobs && s.jobs[id].failed
    case Flip(id, _) => id in s.jobs && !s.jobs[id].failed && s.jobs[id].pass.Copied?
    case RegisterRow(c, name, owner) =>
      && c !in s.rowIDs && (owner.Some? ==> owner.value in s.orgs)
      && (forall r <- s.rows :: s.rows[r].owner == owner ==> s.rows[r].name != name)
    case RemoveRow(id, c) =>
      && id in s.orgs && c in s.rows && s.rows[c].owner == Some(id) && s.orgs[id].cluster != Some(c)
      && (forall o <- s.orgs :: s.orgs[o].cluster != Some(c))  // the foreign key
    case MarkDeletion(id) => id in s.orgs && s.orgs[id].ns != s.config.control
    case Terminate(at) =>
      at in s.objects && exists o <- s.orgs :: s.orgs[o].pendingDeletion && s.orgs[o].ns == at.key.ns
    case Sweep(id) =>
      && id in s.orgs && s.orgs[id].pendingDeletion
      && (forall at <- s.objects :: !(at.location == Route(s, s.orgs[id].ns) && at.key.ns == s.orgs[id].ns))
    case Crash(id) => id in s.jobs
    case Request(key, _, fault) => (fault || !Refused(s, key.ns)) && Available(s, Route(s, key.ns))
    case Mark(at) => at in s.objects && at.key.kind.ClusterDefinition?
    case Reap(at) => at in s.objects && at.key.kind.ClusterDefinition? && s.objects[at].deleting
  }

  // The job written down with the lock.
  ghost function NewJob(s: State, id: OrgID, target: Option<ClusterID>): Job
    requires id in s.orgs
  {
    var ns, src := s.orgs[id].ns, Route(s, s.orgs[id].ns);
    var listing := Listing(s.objects, src, ns, ClusterDefinition);
    Job(ns, target, src, CopyClusters, listing, false, map[CopyClusters := listing])
  }

  function TodoOf(p: Pass, objects: map<At, Object>, src: Location, ns: Namespace): map<Key, Object> {
    if p.Copied? then map[] else Listing(objects, src, ns, KindOf(p))
  }

  function InPass(j: Job, p: Pass, todo: map<Key, Object>): Job {
    j.(pass := p, todo := todo, snaps := if p.Copied? then j.snaps else j.snaps[p := todo])
  }

  function Put(objects: map<At, Object>, at: At, content: Option<Object>): map<At, Object> {
    if content.Some? then objects[at := content.value] else objects - {at}
  }

  function Flipped(s: State, id: OrgID, fault: bool): map<OrgID, Organization>
    requires id in s.jobs
  {
    var target := s.jobs[id].target;
    if fault || id !in s.orgs || (target.Some? && target.value !in s.rows) then s.orgs
    else s.orgs[id := s.orgs[id].(cluster := target, migrating := false)]
  }

  ghost function Apply(s: State, a: Action): State
    requires Enabled(s, a)
  {
    match a
    case CreateOrganization(id, name, target) =>
      s.(orgs := s.orgs[id := Organization(name, name, target, false, false)], orgIDs := s.orgIDs + {id})
    case Rename(id, name) => s.(orgs := s.orgs[id := s.orgs[id].(name := name)])
    case Start(id, target) =>
      s.(orgs := s.orgs[id := s.orgs[id].(migrating := true)], jobs := s.jobs[id := NewJob(s, id, target)])
    case CopyNext(id, key) =>
      var j := s.jobs[id];
      var at := At(Place(j.target), key);
      s.(objects := Put(s.objects, at, CopiedObject(j.pass, j.todo[key], Get(s.objects, at))),
         jobs := s.jobs[id := j.(todo := j.todo - {key})])
    case NextPass(id) =>
      var j := s.jobs[id];
      var p := After(j.pass);
      s.(jobs := s.jobs[id := InPass(j, p, TodoOf(p, s.objects, j.src, j.ns))])
    case FailCopy(id) => s.(jobs := s.jobs[id := s.jobs[id].(failed := true)])
    case Unlock(id, fault) =>
      s.(jobs := s.jobs - {id},
         orgs := if fault || id !in s.orgs then s.orgs else s.orgs[id := s.orgs[id].(migrating := false)])
    case Flip(id, fault) => s.(jobs := s.jobs - {id}, orgs := Flipped(s, id, fault))
    case RegisterRow(c, name, owner) => s.(rows := s.rows[c := Row(name, owner)], rowIDs := s.rowIDs + {c})
    case RemoveRow(id, c) => s.(rows := s.rows - {c})
    case MarkDeletion(id) => s.(orgs := s.orgs[id := s.orgs[id].(pendingDeletion := true)])
    case Terminate(at) => s.(objects := s.objects - {at})
    case Sweep(id) =>
      s.(orgs := s.orgs - {id}, rows := map c | c in s.rows && s.rows[c].owner != Some(id) :: s.rows[c])
    case Crash(id) => s.(jobs := s.jobs - {id})
    case Request(key, content, _) => s.(objects := Put(s.objects, At(Route(s, key.ns), key), content))
    case Mark(at) => s.(objects := s.objects[at := s.objects[at].(deleting := true)])
    case Reap(at) => s.(objects := s.objects - {at})
  }

  ghost function Step(s: State, a: Action): Option<State> {
    if Enabled(s, a) then Some(Apply(s, a)) else None
  }

  // ---- The rows ----

  predicate Unique(s: State) {
    && (forall a, b | a in s.orgs && b in s.orgs && s.orgs[a].name == s.orgs[b].name :: a == b)
    && (forall a, b | a in s.orgs && b in s.orgs && s.orgs[a].ns == s.orgs[b].ns :: a == b)
    && s.orgs.Keys <= s.orgIDs && s.rows.Keys <= s.rowIDs && s.jobs.Keys <= s.orgIDs
  }

  // An organization's cluster, when set, is a stored cluster of the pool or of its own.
  predicate Placed(s: State) {
    forall o <- s.orgs :: Selectable(s, o, s.orgs[o].cluster)
  }

  // A migration runs under its organization's lock; its target was selectable, and may have been removed since.
  predicate JobLocked(s: State, j: OrgID)
    requires j in s.jobs
  {
    && (j in s.orgs ==> s.orgs[j].migrating && s.orgs[j].ns == s.jobs[j].ns)
    && (s.jobs[j].target.Some? ==>
          s.jobs[j].target.value in s.rowIDs
          && (s.jobs[j].target.value in s.rows ==> Selectable(s, j, s.jobs[j].target)))
  }

  predicate JobsLocked(s: State) {
    forall j <- s.jobs :: JobLocked(s, j)
  }

  predicate RowsInv(s: State) {
    Unique(s) && Placed(s) && JobsLocked(s)
  }

  // Any stored state with no migration under way; a lock may be left over.
  predicate Init(s: State) {
    Unique(s) && Placed(s) && s.jobs == map[]
  }
}
