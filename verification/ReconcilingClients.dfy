/**
The per-process cache of clients, one per reconciling cluster (internal/api/reconcilingclusters.go).

Any number of goroutines look a client up (a read under RLock, then the same check again and the build
under Lock) while others change the stored kubeconfig and afterwards invalidate. Each action below is one
step no other goroutine can see the middle of.
 */
module ReconcilingClients {
  import opened Wrappers
  import opened Runs

  type ClusterID = string
  type Kubeconfig = string
  type Pid = nat

  // A built client pair. `serial` is its identity: two builds never give the same handle.
  datatype Handle = Handle(config: Kubeconfig, serial: nat)

  datatype PC =
    | Idle
    | Looking(id: ClusterID)                        // before the read under RLock
    | Waiting(id: ClusterID)                        // missed; wants the write lock
    | Locked(id: ClusterID)                         // holds it; before the second check
    | Reading(id: ClusterID)                        // still absent; before the store read
    | Building(id: ClusterID, config: Kubeconfig)   // row read; before the build
    | Inserting(id: ClusterID, handle: Handle)      // built; before the insert
    | Releasing                                     // before the deferred Unlock
    | Writing(id: ClusterID, content: Option<Kubeconfig>) // rotation (Some) or removal (None); before the store write
    | Invalidating(id: ClusterID)                   // stored; before invalidateReconcilingClusterClient

  // What a lookup returned, and how many invalidations of that id had run by then.
  datatype Served = Served(id: ClusterID, epoch: nat, handle: Handle)

  datatype State = State(
    rows: map<ClusterID, Kubeconfig>,
    clients: map<ClusterID, Handle>,
    lock: Option<Pid>,
    pcs: map<Pid, PC>,
    serial: nat,
    epochs: map<ClusterID, nat>,
    served: set<Served>,
    retired: set<ClusterID>,  // ids whose row is gone; ids are UUIDs and never come back
    swept: set<ClusterID>     // those of them that went with their organization
  )

  datatype Action =
    | BeginLookup(p: Pid, id: ClusterID)
    | FastRead(p: Pid)
    | Acquire(p: Pid)
    | Recheck(p: Pid)
    | ReadRow(p: Pid, fault: bool)
    | Build(p: Pid, fault: bool)
    | Insert(p: Pid)
    | Release(p: Pid)
    | BeginWrite(p: Pid, id: ClusterID, content: Option<Kubeconfig>)
    | StoreWrite(p: Pid, fault: bool)
    | Invalidate(p: Pid)
    | CreateRow(id: ClusterID, config: Kubeconfig)
    | SweepOrganization(ids: set<ClusterID>)  // DeleteOrganization drops its clusters and invalidates nothing

  function Epoch(s: State, id: ClusterID): nat {
    if id in s.epochs then s.epochs[id] else 0
  }

  predicate Holding(pc: PC) {
    pc.Locked? || pc.Reading? || pc.Building? || pc.Inserting? || pc.Releasing?
  }

  predicate Enabled(s: State, a: Action) {
    match a
    case CreateRow(id, _) => id !in s.rows && id !in s.retired
    case SweepOrganization(ids) => true
    case BeginLookup(p, _) => p in s.pcs && s.pcs[p].Idle?
    case FastRead(p) => p in s.pcs && s.pcs[p].Looking? && s.lock.None?
    case Acquire(p) => p in s.pcs && s.pcs[p].Waiting? && s.lock.None?
    case Recheck(p) => p in s.pcs && s.pcs[p].Locked?
    case ReadRow(p, _) => p in s.pcs && s.pcs[p].Reading?
    case Build(p, _) => p in s.pcs && s.pcs[p].Building?
    case Insert(p) => p in s.pcs && s.pcs[p].Inserting?
    case Release(p) => p in s.pcs && s.pcs[p].Releasing?
    case BeginWrite(p, _, _) => p in s.pcs && s.pcs[p].Idle?
    case StoreWrite(p, _) => p in s.pcs && s.pcs[p].Writing?
    case Invalidate(p) => p in s.pcs && s.pcs[p].Invalidating? && s.lock.None?
  }

  function Goto(s: State, p: Pid, pc: PC): State {
    s.(pcs := s.pcs[p := pc])
  }

  function Serve(s: State, id: ClusterID, h: Handle): State {
    s.(served := s.served + {Served(id, Epoch(s, id), h)})
  }

  // UPDATE and DELETE by id: a row that is not there stays not there.
  function Stored(s: State, id: ClusterID, content: Option<Kubeconfig>): State {
    if id !in s.rows then s
    else match content
      case Some(k) => s.(rows := s.rows[id := k])
      case None => s.(rows := s.rows - {id}, retired := s.retired + {id})
  }

  function Apply(s: State, a: Action): State
    requires Enabled(s, a)
  {
    match a
    case BeginLookup(p, id) => Goto(s, p, Looking(id))
    case FastRead(p) =>
      var id := s.pcs[p].id;
      if id in s.clients then Goto(Serve(s, id, s.clients[id]), p, Idle) else Goto(s, p, Waiting(id))
    case Acquire(p) => Goto(s, p, Locked(s.pcs[p].id)).(lock := Some(p))
    case Recheck(p) =>
      var id := s.pcs[p].id;
      if id in s.clients then Goto(Serve(s, id, s.clients[id]), p, Releasing) else Goto(s, p, Reading(id))
    case ReadRow(p, fault) =>
      var id := s.pcs[p].id;
      if fault || id !in s.rows then Goto(s, p, Releasing) else Goto(s, p, Building(id, s.rows[id]))
    case Build(p, fault) =>
      if fault then Goto(s, p, Releasing)
      else Goto(s, p, Inserting(s.pcs[p].id, Handle(s.pcs[p].config, s.serial))).(serial := s.serial + 1)
    case Insert(p) =>
      var id, h := s.pcs[p].id, s.pcs[p].handle;
      Goto(Serve(s, id, h), p, Releasing).(clients := s.clients[id := h])
    case Release(p) => Goto(s, p, Idle).(lock := None)
    case BeginWrite(p, id, content) => Goto(s, p, Writing(id, content))
    case StoreWrite(p, fault) =>
      if fault then Goto(s, p, Idle)
      else Goto(Stored(s, s.pcs[p].id, s.pcs[p].content), p, Invalidating(s.pcs[p].id))
    case Invalidate(p) =>
      var id := s.pcs[p].id;
      Goto(s, p, Idle).(clients := s.clients - {id}, epochs := s.epochs[id := Epoch(s, id) + 1])
    case CreateRow(id, config) => s.(rows := s.rows[id := config])
    case SweepOrganization(ids) =>
      var gone := ids * s.rows.Keys;
      s.(rows := s.rows - gone, retired := s.retired + gone, swept := s.swept + gone)
  }

  predicate Init(s: State) {
    && s.clients == map[] && s.lock.None? && s.served == {} && s.epochs == map[]
    && s.retired == {} && s.swept == {}
    && (forall p <- s.pcs :: s.pcs[p].Idle?)
  }

  function Step(s: State, a: Action): Option<State> {
    if Enabled(s, a) then Some(Apply(s, a)) else None
  }

  // ---- The invariant ----

  // Some store write for id has happened whose invalidation has not.
  predicate Pending(s: State, id: ClusterID) {
    exists p <- s.pcs :: s.pcs[p] == Invalidating(id)
  }

  predicate Current(s: State, id: ClusterID, config: Kubeconfig) {
    Get(s.rows, id) == Some(config) || Pending(s, id) || id in s.swept
  }

  predicate LockInv(s: State) {
    forall p <- s.pcs :: Holding(s.pcs[p]) <==> s.lock == Some(p)
  }

  predicate AbsentInv(s: State) {
    forall p <- s.pcs :: s.pcs[p].Reading? || s.pcs[p].Building? || s.pcs[p].Inserting? ==> s.pcs[p].id !in s.clients
  }

  predicate Fresh(s: State, pc: PC) {
    match pc
    case Building(id, config) => Current(s, id, config)
    case Inserting(id, h) => Current(s, id, h.config)
    case _ => true
  }

  predicate FreshInv(s: State) {
    && (forall p <- s.pcs :: Fresh(s, s.pcs[p]))
    && (forall id <- s.clients :: Current(s, id, s.clients[id].config))
  }

  predicate GoneInv(s: State) {
    s.swept <= s.retired && s.retired !! s.rows.Keys
  }

  // A handle no lookup has returned yet.
  predicate Unserved(s: State, h: Handle) {
    h.serial < s.serial && forall e <- s.served :: e.handle.serial != h.serial
  }

  predicate SerialInv(s: State) {
    && (forall e <- s.served :: e.handle.serial < s.serial)
    && (forall p <- s.pcs :: s.pcs[p].Inserting? ==> Unserved(s, s.pcs[p].handle))
  }

  // Everything served in the running epoch is what is cached now.
  predicate EpochInv(s: State) {
    && (forall e <- s.served :: e.epoch <= Epoch(s, e.id))
    && (forall e <- s.served :: e.epoch == Epoch(s, e.id) ==> Get(s.clients, e.id) == Some(e.handle))
    && (forall id <- s.clients :: Served(id, Epoch(s, id), s.clients[id]) in s.served)
  }

  predicate SameHandle(e: Served, f: Served) {
    && (e.id == f.id && e.epoch == f.epoch <==> e.handle.serial == f.handle.serial)
    && (e.handle.serial == f.handle.serial ==> e.handle == f.handle)
  }

  predicate ServedInv(s: State) {
    SerialInv(s) && EpochInv(s) && forall e, f | e in s.served && f in s.served :: SameHandle(e, f)
  }

  predicate Inv(s: State) {
    LockInv(s) && AbsentInv(s) && FreshInv(s) && GoneInv(s) && ServedInv(s)
  }

  // An action moves the program counter of one goroutine, or of none.
  predicate Moves(a: Action, p: Pid) {
    !a.CreateRow? && !a.SweepOrganization? && a.p == p
  }

  lemma PcsAfter(s: State, a: Action)
    requires Enabled(s, a)
    ensures Apply(s, a).pcs == if a.CreateRow? || a.SweepOrganization? then s.pcs
                               else s.pcs[a.p := Apply(s, a).pcs[a.p]]
  {
  }

  lemma OthersStay(s: State, a: Action)
    requires Enabled(s, a)
    ensures Apply(s, a).pcs.Keys == s.pcs.Keys
    ensures forall p <- s.pcs :: !Moves(a, p) ==> Apply(s, a).pcs[p] == s.pcs[p]
  {
    PcsAfter(s, a);
  }

  // How the lock and the mover's counter go together.
  lemma LockFollowsMover(s: State, a: Action)
    requires Enabled(s, a) && !a.CreateRow? && !a.SweepOrganization?
    ensures var t := Apply(s, a);
            if a.Acquire? then s.lock.None? && t.lock == Some(a.p) && Holding(t.pcs[a.p])
            else if a.Release? then Holding(s.pcs[a.p]) && t.lock.None? && !Holding(t.pcs[a.p])
            else t.lock == s.lock && (Holding(t.pcs[a.p]) <==> Holding(s.pcs[a.p]))
  {
  }

  lemma RowsStayGone(s: State, a: Action)
    requires Enabled(s, a) && GoneInv(s)
    ensures GoneInv(Apply(s, a))
  {
  }

  lemma StepKeepsLock(s: State, a: Action)
    requires Enabled(s, a) && LockInv(s) && GoneInv(s)
    ensures LockInv(Apply(s, a)) && GoneInv(Apply(s, a))
  {
    RowsStayGone(s, a);
    OthersStay(s, a);
    if !a.CreateRow? && !a.SweepOrganization? {
      LockFollowsMover(s, a);
    }
  }

  lemma StepKeepsAbsent(s: State, a: Action)
    requires Enabled(s, a) && LockInv(s) && AbsentInv(s)
    ensures AbsentInv(Apply(s, a))
  {
    var t := Apply(s, a);
    forall p | p in t.pcs && (t.pcs[p].Reading? || t.pcs[p].Building? || t.pcs[p].Inserting?)
      ensures t.pcs[p].id !in t.clients
    {
      assert s.pcs[p].id == t.pcs[p].id;
      assert Holding(s.pcs[p]);
    }
  }

  // Only the invalidation of id itself can make a config that was current stop being so.
  lemma StepCurrent(s: State, a: Action, id: ClusterID, config: Kubeconfig)
    requires Enabled(s, a) && Current(s, id, config) && GoneInv(s)
    ensures Current(Apply(s, a), id, config) || (a.Invalidate? && s.pcs[a.p].id == id)
  {
    var t := Apply(s, a);
    if Pending(s, id) {
      var q :| q in s.pcs && s.pcs[q] == Invalidating(id);
      assert t.pcs[q] == Invalidating(id) || (a.Invalidate? && a.p == q);
    } else if a.StoreWrite? && !a.fault {
      assert t.pcs[a.p] == Invalidating(s.pcs[a.p].id);
    }
  }

  lemma StepMovesOne(s: State, a: Action, p: Pid)
    requires Enabled(s, a) && p in s.pcs
    ensures Apply(s, a).pcs.Keys == s.pcs.Keys
    ensures !Moves(a, p) ==> Apply(s, a).pcs[p] == s.pcs[p]
    ensures a.Invalidate? ==> !Moves(a, p) || Apply(s, a).pcs[p].Idle?
    ensures Moves(a, p) && Apply(s, a).pcs[p].Inserting? ==> a.Build? && !a.fault
    ensures Moves(a, p) && Apply(s, a).pcs[p].Building? ==> a.ReadRow?
  {
    OthersStay(s, a);
  }

  lemma StepKeepsBuilt(s: State, a: Action, p: Pid)
    requires Enabled(s, a) && LockInv(s) && GoneInv(s) && FreshInv(s)
    requires p in s.pcs
    ensures Fresh(Apply(s, a), Apply(s, a).pcs[p])
  {
    StepMovesOne(s, a, p);
    var pc := s.pcs[p];
    if !Moves(a, p) {
      assert Holding(pc) ==> s.lock == Some(p);
      if pc.Building? {
        StepCurrent(s, a, pc.id, pc.config);
      } else if pc.Inserting? {
        StepCurrent(s, a, pc.id, pc.handle.config);
      }
    } else if a.Build? && !a.fault {
      StepCurrent(s, a, pc.id, pc.config);
    } else if a.ReadRow? && !a.fault && pc.id in s.rows {
      assert Apply(s, a).rows == s.rows;
    } else {
      assert !Apply(s, a).pcs[p].Building? && !Apply(s, a).pcs[p].Inserting?;
    }
  }

  lemma StepKeepsCached(s: State, a: Action, id: ClusterID)
    requires Enabled(s, a) && GoneInv(s) && FreshInv(s)
    requires id in Apply(s, a).clients
    ensures Current(Apply(s, a), id, Apply(s, a).clients[id].config)
  {
    if a.Insert? && s.pcs[a.p].id == id {
      StepCurrent(s, a, id, s.pcs[a.p].handle.config);
    } else {
      assert Apply(s, a).clients[id] == s.clients[id];
      StepCurrent(s, a, id, s.clients[id].config);
    }
  }

  lemma StepKeepsFresh(s: State, a: Action)
    requires Enabled(s, a) && LockInv(s) && GoneInv(s) && FreshInv(s)
    ensures FreshInv(Apply(s, a))
  {
    var t := Apply(s, a);
    forall p | p in t.pcs ensures Fresh(t, t.pcs[p]) {
      StepKeepsBuilt(s, a, p);
    }
    forall id | id in t.clients ensures Current(t, id, t.clients[id].config) {
      StepKeepsCached(s, a, id);
    }
  }

  lemma InsertKeeps(s: State, p: Pid)
    requires Enabled(s, Insert(p)) && LockInv(s) && AbsentInv(s) && ServedInv(s)
    ensures ServedInv(Apply(s, Insert(p)))
  {
    var t := Apply(s, Insert(p));
    var id, h := s.pcs[p].id, s.pcs[p].handle;
    assert Unserved(s, h);
    assert forall q <- t.pcs :: t.pcs[q].Inserting? ==> Holding(s.pcs[q]);
    forall e, f | e in t.served && f in t.served ensures SameHandle(e, f) {
      assert e in s.served || e == Served(id, Epoch(s, id), h);
      assert f in s.served || f == Served(id, Epoch(s, id), h);
      assert forall x <- s.served :: x.id == id ==> x.epoch != Epoch(s, id);
    }
  }

  lemma BuildKeeps(s: State, p: Pid)
    requires Enabled(s, Build(p, false)) && LockInv(s) && ServedInv(s)
    ensures ServedInv(Apply(s, Build(p, false)))
  {
    var t := Apply(s, Build(p, false));
    assert forall q <- t.pcs :: q != p ==> t.pcs[q] == s.pcs[q];
    assert t.served == s.served && t.epochs == s.epochs && t.clients == s.clients;
  }

  lemma InvalidateKeeps(s: State, p: Pid)
    requires Enabled(s, Invalidate(p)) && ServedInv(s)
    ensures ServedInv(Apply(s, Invalidate(p)))
  {
    var t := Apply(s, Invalidate(p));
    assert forall q <- t.pcs :: q != p ==> t.pcs[q] == s.pcs[q];
  }

  lemma QuietKeeps(s: State, t: State)
    requires ServedInv(s)
    requires t.served == s.served && t.epochs == s.epochs && t.clients == s.clients && t.serial == s.serial
    requires forall q <- t.pcs :: t.pcs[q].Inserting? ==> q in s.pcs && t.pcs[q] == s.pcs[q]
    ensures ServedInv(t)
  {
  }

  lemma OtherStepsAreQuiet(s: State, a: Action)
    requires Enabled(s, a) && EpochInv(s)
    requires !a.Insert? && !(a.Build? && !a.fault) && !a.Invalidate?
    ensures var t := Apply(s, a);
            t.served == s.served && t.epochs == s.epochs && t.clients == s.clients && t.serial == s.serial
  {
    if (a.FastRead? || a.Recheck?) && s.pcs[a.p].id in s.clients {
      var id := s.pcs[a.p].id;
      assert Served(id, Epoch(s, id), s.clients[id]) in s.served;
    }
  }

  lemma StepKeepsServed(s: State, a: Action)
    requires Enabled(s, a) && LockInv(s) && AbsentInv(s) && ServedInv(s)
    ensures ServedInv(Apply(s, a))
  {
    if a.Insert? {
      InsertKeeps(s, a.p);
    } else if a.Build? && !a.fault {
      BuildKeeps(s, a.p);
    } else if a.Invalidate? {
      InvalidateKeeps(s, a.p);
    } else {
      OtherStepsAreQuiet(s, a);
      var t := Apply(s, a);
      forall q | q in t.pcs && t.pcs[q].Inserting? ensures q in s.pcs && t.pcs[q] == s.pcs[q] {
        StepMovesOne(s, a, q);
      }
      QuietKeeps(s, t);
    }
  }

  lemma {:induction false} ReachableInv(s: State, acts: seq<Action>)
    requires Init(s) && Run(Step, s, acts).Some?
    ensures Inv(Run(Step, s, acts).value)
  {
    forall t, a | Inv(t) && Step(t, a).Some? ensures Inv(Step(t, a).value) {
      StepKeepsLock(t, a);
      StepKeepsAbsent(t, a);
      StepKeepsFresh(t, a);
      StepKeepsServed(t, a);
    }
    Invariant(Step, Inv, s, acts);
  }

  // ---- What lookups can rely on ----

  // The handle a in state s gives its caller, if it is the step of a lookup that has one.
  function Returned(s: State, a: Action): Option<Served>
    requires Enabled(s, a)
  {
    if (a.FastRead? || a.Recheck?) && s.pcs[a.p].id in s.clients then
      Some(Served(s.pcs[a.p].id, Epoch(s, s.pcs[a.p].id), s.clients[s.pcs[a.p].id]))
    else if a.Insert? then Some(Served(s.pcs[a.p].id, Epoch(s, s.pcs[a.p].id), s.pcs[a.p].handle))
    else None
  }

  // A cached client built from another kubeconfig than the stored one exists only while a store write for
  // its id has not invalidated yet, or after the row went with its organization; and then for good.
  lemma {:induction false} StaleOnlyWhilePending(s: State, acts: seq<Action>, id: ClusterID)
    requires Init(s) && Run(Step, s, acts).Some?
    requires var t := Run(Step, s, acts).value; id in t.clients && !Pending(t, id)
    ensures var t := Run(Step, s, acts).value;
            Get(t.rows, id) != Some(t.clients[id].config) <==> id in t.swept
  {
    ReachableInv(s, acts);
    var t := Run(Step, s, acts).value;
    assert Current(t, id, t.clients[id].config);
    assert id in t.swept ==> id in t.retired && id !in t.rows;
  }

  // With no write pending for a stored id, whatever a lookup returns was built from the stored kubeconfig.
  lemma {:induction false} LookupAgreesWithStore(s: State, acts: seq<Action>, a: Action)
    requires Init(s) && Run(Step, s, acts).Some?
    requires Enabled(Run(Step, s, acts).value, a)
    ensures var t := Run(Step, s, acts).value;
            match Returned(t, a)
            case Some(e) => !Pending(t, e.id) && e.id in t.rows ==> t.rows[e.id] == e.handle.config
            case None => true
  {
    ReachableInv(s, acts);
    var t := Run(Step, s, acts).value;
    if Returned(t, a).Some? {
      var e := Returned(t, a).value;
      if a.Insert? {
        assert Fresh(t, t.pcs[a.p]);
      }
      assert Current(t, e.id, e.handle.config);
      assert e.id in t.rows ==> e.id !in t.swept;
    }
  }

  // `served` is the whole history: each return is added to it and nothing leaves it.
  lemma ServedIsComplete(s: State, a: Action)
    requires Enabled(s, a)
    ensures s.served <= Apply(s, a).served
    ensures Returned(s, a).Some? ==> Apply(s, a).served == s.served + {Returned(s, a).value}
    ensures Returned(s, a).None? ==> Apply(s, a).served == s.served
  {
  }

  // Between two invalidations of an id every lookup returns one and the same handle, and across an
  // invalidation, or for two ids, never the same.
  lemma {:induction false} OneHandleBetweenInvalidations(s: State, acts: seq<Action>, e: Served, f: Served)
    requires Init(s) && Run(Step, s, acts).Some?
    requires e in Run(Step, s, acts).value.served && f in Run(Step, s, acts).value.served
    ensures e.handle == f.handle <==> e.id == f.id && e.epoch == f.epoch
  {
    ReachableInv(s, acts);
    assert SameHandle(e, f);
  }

  // ---- The same operations, run alone ----

  // What a lookup leaves in the table and returns when nothing runs beside it.
  function Looked(clients: map<ClusterID, Handle>, rows: map<ClusterID, Kubeconfig>, serial: nat, id: ClusterID,
                  fault: bool): (map<ClusterID, Handle>, nat, Option<Handle>)
  {
    if id in clients then (clients, serial, Some(clients[id]))
    else if id !in rows || fault then (clients, serial, None)
    else (clients[id := Handle(rows[id], serial)], serial + 1, Some(Handle(rows[id], serial)))
  }

  // The steps of one lookup when nothing runs beside it: what they are depends on whether the id is cached and stored,
  // and on whether its kubeconfig fails to build.
  function LookupSteps(cached: bool, stored: bool, fault: bool, p: Pid, id: ClusterID): seq<Action> {
    [BeginLookup(p, id), FastRead(p)] + if cached then [] else MissSteps(stored, fault, p)
  }

  function MissSteps(stored: bool, fault: bool, p: Pid): seq<Action> {
    [Acquire(p), Recheck(p), ReadRow(p, false)]
    + if !stored then [Release(p)]
      else if fault then [Build(p, true), Release(p)]
      else [Build(p, false), Insert(p), Release(p)]
  }

  lemma FastPath(s: State, p: Pid, id: ClusterID)
    requires s.lock.None? && p in s.pcs && s.pcs[p].Idle?
    ensures Run(Step, s, [BeginLookup(p, id), FastRead(p)])
            == Some(if id in s.clients then Serve(s, id, s.clients[id]) else s.(pcs := s.pcs[p := Waiting(id)]))
  {
    var t := Apply(s, BeginLookup(p, id));
    Then(Step, s, [], BeginLookup(p, id));
    Then(Step, s, [] + [BeginLookup(p, id)], FastRead(p));
    assert [] + [BeginLookup(p, id)] + [FastRead(p)] == [BeginLookup(p, id), FastRead(p)];
    assert t.pcs[p := Idle] == s.pcs && t.pcs[p := Waiting(id)] == s.pcs[p := Waiting(id)];
  }

  // Alone, the double-checked steps do exactly what the plain lookup does, whether it hits, builds, or fails.
  lemma LookupStepsAloneAreALookup(s: State, p: Pid, id: ClusterID, fault: bool)
    requires s.lock.None? && p in s.pcs && s.pcs[p].Idle?
    ensures var r := Run(Step, s, LookupSteps(id in s.clients, id in s.rows, fault, p, id));
            var (clients, serial, h) := Looked(s.clients, s.rows, s.serial, id, fault);
            r == Some(s.(clients := clients, serial := serial,
                         served := s.served + (if h.Some? then {Served(id, Epoch(s, id), h.value)} else {})))
  {
    var first := [BeginLookup(p, id), FastRead(p)];
    FastPath(s, p, id);
    if id in s.clients {
      assert first + [] == first;
    } else {
      var t := s.(pcs := s.pcs[p := Waiting(id)]);
      MissedLookup(t, p, id, fault);
      Continued(Step, s, first, MissSteps(id in s.rows, fault, p));
      assert t.pcs[p := Idle] == s.pcs;
    }
  }

  // Up to the read of the row.
  lemma MissReads(s: State, p: Pid, id: ClusterID, fault: bool)
    requires s.lock.None? && p in s.pcs && s.pcs[p] == Waiting(id) && id !in s.clients
    ensures Run(Step, s, [Acquire(p), Recheck(p), ReadRow(p, fault)])
            == Some(s.(lock := Some(p),
                       pcs := s.pcs[p := if id in s.rows && !fault then Building(id, s.rows[id]) else Releasing]))
  {
    var t1 := Apply(s, Acquire(p));
    var a1 := [] + [Acquire(p)];
    Then(Step, s, [], Acquire(p));
    var t2 := Apply(t1, Recheck(p));
    var a2 := a1 + [Recheck(p)];
    Then(Step, s, a1, Recheck(p));
    assert t2 == s.(lock := Some(p), pcs := s.pcs[p := Reading(id)]);
    Then(Step, s, a2, ReadRow(p, fault));
    var pc := if id in s.rows && !fault then Building(id, s.rows[id]) else Releasing;
    assert t2.pcs[p := pc] == s.pcs[p := pc];
    assert a2 + [ReadRow(p, fault)] == [Acquire(p), Recheck(p), ReadRow(p, fault)];
  }

  function WithBuilt(s: State, p: Pid, id: ClusterID, config: Kubeconfig): State {
    var h := Handle(config, s.serial);
    s.(lock := None, clients := s.clients[id := h], serial := s.serial + 1, pcs := s.pcs[p := Idle],
       served := s.served + {Served(id, Epoch(s, id), h)})
  }

  // From there, with the row read, or not there.
  lemma MissBuilds(s: State, p: Pid, id: ClusterID, config: Kubeconfig)
    requires p in s.pcs && s.pcs[p] == Building(id, config)
    ensures Run(Step, s, [Build(p, false), Insert(p), Release(p)])
            == Some(WithBuilt(s, p, id, config))
  {
    var t1 := Apply(s, Build(p, false));
    var a1 := [] + [Build(p, false)];
    Then(Step, s, [], Build(p, false));
    var t2 := Apply(t1, Insert(p));
    var a2 := a1 + [Insert(p)];
    Then(Step, s, a1, Insert(p));
    Then(Step, s, a2, Release(p));
    assert a2 + [Release(p)] == [Build(p, false), Insert(p), Release(p)];
    assert Apply(t2, Release(p)).pcs == s.pcs[p := Idle];
  }

  lemma MissFails(s: State, p: Pid, id: ClusterID)
    requires p in s.pcs
    ensures s.pcs[p].Releasing? ==> Run(Step, s, [Release(p)]) == Some(s.(lock := None, pcs := s.pcs[p := Idle]))
    ensures s.pcs[p].Building? ==>
              Run(Step, s, [Build(p, true), Release(p)]) == Some(s.(lock := None, pcs := s.pcs[p := Idle]))
  {
    if s.pcs[p].Releasing? {
      Then(Step, s, [], Release(p));
      assert [] + [Release(p)] == [Release(p)];
    } else if s.pcs[p].Building? {
      Then(Step, s, [], Build(p, true));
      Then(Step, s, [] + [Build(p, true)], Release(p));
      assert [] + [Build(p, true)] + [Release(p)] == [Build(p, true), Release(p)];
      assert s.pcs[p := Releasing][p := Idle] == s.pcs[p := Idle];
    }
  }

  predicate Missing(s: State, p: Pid, id: ClusterID) {
    s.lock.None? && p in s.pcs && s.pcs[p] == Waiting(id) && id !in s.clients
  }

  lemma MissedAndBuilt(s: State, p: Pid, id: ClusterID)
    requires Missing(s, p, id) && id in s.rows
    ensures var h := Handle(s.rows[id], s.serial);
            Run(Step, s, MissSteps(true, false, p))
            == Some(s.(clients := s.clients[id := h], serial := s.serial + 1, pcs := s.pcs[p := Idle],
                       served := s.served + {Served(id, Epoch(s, id), h)}))
  {
    MissReads(s, p, id, false);
    var first := [Acquire(p), Recheck(p), ReadRow(p, false)];
    var t := s.(lock := Some(p), pcs := s.pcs[p := Building(id, s.rows[id])]);
    assert t.pcs[p := Idle] == s.pcs[p := Idle] && Epoch(t, id) == Epoch(s, id);
    MissBuilds(t, p, id, s.rows[id]);
    Continued(Step, s, first, [Build(p, false), Insert(p), Release(p)]);
    assert MissSteps(true, false, p) == first + [Build(p, false), Insert(p), Release(p)];
    BuiltAsBefore(s, t, p, id, s.rows[id]);
  }

  lemma BuiltAsBefore(s: State, t: State, p: Pid, id: ClusterID, config: Kubeconfig)
    requires t == s.(lock := t.lock, pcs := t.pcs) && t.pcs[p := Idle] == s.pcs[p := Idle] && s.lock.None?
    ensures WithBuilt(t, p, id, config) == WithBuilt(s, p, id, config)
    ensures var h := Handle(config, s.serial);
            WithBuilt(s, p, id, config)
            == s.(clients := s.clients[id := h], serial := s.serial + 1, pcs := s.pcs[p := Idle],
                  served := s.served + {Served(id, Epoch(s, id), h)})
  {
  }

  lemma MissedAndFailed(s: State, p: Pid, id: ClusterID, fault: bool)
    requires Missing(s, p, id) && (id in s.rows ==> fault)
    ensures Run(Step, s, MissSteps(id in s.rows, fault, p)) == Some(s.(pcs := s.pcs[p := Idle]))
  {
    MissReads(s, p, id, false);
    var first := [Acquire(p), Recheck(p), ReadRow(p, false)];
    var pc := if id in s.rows then Building(id, s.rows[id]) else Releasing;
    var t := s.(lock := Some(p), pcs := s.pcs[p := pc]);
    MissFails(t, p, id);
    Continued(Step, s, first, if id in s.rows then [Build(p, true), Release(p)] else [Release(p)]);
    assert t.pcs[p := Idle] == s.pcs[p := Idle];
  }

  lemma MissedLookup(s: State, p: Pid, id: ClusterID, fault: bool)
    requires Missing(s, p, id)
    ensures var (clients, serial, h) := Looked(s.clients, s.rows, s.serial, id, fault);
            Run(Step, s, MissSteps(id in s.rows, fault, p))
            == Some(s.(clients := clients, serial := serial, pcs := s.pcs[p := Idle],
                       served := s.served + (if h.Some? then {Served(id, Epoch(s, id), h.value)} else {})))
  {
    if id in s.rows && !fault {
      MissedAndBuilt(s, p, id);
      var h := Handle(s.rows[id], s.serial);
      assert Looked(s.clients, s.rows, s.serial, id, fault) == (s.clients[id := h], s.serial + 1, Some(h));
    } else {
      MissedAndFailed(s, p, id, fault);
      assert Looked(s.clients, s.rows, s.serial, id, fault) == (s.clients, s.serial, None);
      assert s.served + {} == s.served;
    }
  }

  lemma MissesUnread(s: State, p: Pid, id: ClusterID)
    requires Missing(s, p, id)
    ensures Run(Step, s, [Acquire(p), Recheck(p), ReadRow(p, true)] + [Release(p)]) == Some(s.(pcs := s.pcs[p := Idle]))
  {
    MissReads(s, p, id, true);
    var t := s.(lock := Some(p), pcs := s.pcs[p := Releasing]);
    MissFails(t, p, id);
    Continued(Step, s, [Acquire(p), Recheck(p), ReadRow(p, true)], [Release(p)]);
    assert t.pcs[p := Idle] == s.pcs[p := Idle];
  }

  // A lookup whose read of the row fails leaves everything as it was, the lock included.
  lemma FailedReadIsNone(s: State, p: Pid, id: ClusterID)
    requires s.lock.None? && p in s.pcs && s.pcs[p].Idle? && id !in s.clients
    ensures Run(Step, s, [BeginLookup(p, id), FastRead(p)]
                         + ([Acquire(p), Recheck(p), ReadRow(p, true)] + [Release(p)])) == Some(s)
  {
    FastPath(s, p, id);
    var t := s.(pcs := s.pcs[p := Waiting(id)]);
    MissesUnread(t, p, id);
    Continued(Step, s, [BeginLookup(p, id), FastRead(p)], [Acquire(p), Recheck(p), ReadRow(p, true)] + [Release(p)]);
    assert t.pcs[p := Idle] == s.pcs;
  }

  // A registered row is what the next look-up of its id builds its client from.
  lemma CreatedIsLookedUp(s: State, p: Pid, id: ClusterID, config: Kubeconfig)
    requires s.lock.None? && p in s.pcs && s.pcs[p].Idle? && Enabled(s, CreateRow(id, config)) && id !in s.clients
    ensures var h := Handle(config, s.serial);
            Run(Step, s, [CreateRow(id, config)] + LookupSteps(false, true, false, p, id))
            == Some(s.(rows := s.rows[id := config], clients := s.clients[id := h], serial := s.serial + 1,
                       served := s.served + {Served(id, Epoch(s, id), h)}))
  {
    Then(Step, s, [], CreateRow(id, config));
    var t := s.(rows := s.rows[id := config]);
    assert [] + [CreateRow(id, config)] == [CreateRow(id, config)];
    Continued(Step, s, [CreateRow(id, config)], LookupSteps(false, true, false, p, id));
    LookupStepsAloneAreALookup(t, p, id, false);
    assert Epoch(t, id) == Epoch(s, id);
  }

  // Up to its store write.
  lemma WriteStores(s: State, p: Pid, id: ClusterID, content: Option<Kubeconfig>) returns (t: State)
    requires p in s.pcs && s.pcs[p].Idle?
    ensures Run(Step, s, [BeginWrite(p, id, content), StoreWrite(p, false)]) == Some(t)
    ensures t == s.(rows := if content.None? then s.rows - {id}
                            else if id in s.rows then s.rows[id := content.value] else s.rows,
                    retired := s.retired + (if content.None? && id in s.rows then {id} else {}),
                    pcs := s.pcs[p := Invalidating(id)])
  {
    var acts := [] + [BeginWrite(p, id, content)];
    Then(Step, s, [], BeginWrite(p, id, content));
    Then(Step, s, acts, StoreWrite(p, false));
    assert acts + [StoreWrite(p, false)] == [BeginWrite(p, id, content), StoreWrite(p, false)];
    t := Run(Step, s, [BeginWrite(p, id, content), StoreWrite(p, false)]).value;
    assert s.pcs[p := Writing(id, content)][p := Invalidating(id)] == s.pcs[p := Invalidating(id)];
    assert id !in s.rows ==> s.rows - {id} == s.rows;
    assert s.retired + {} == s.retired;
  }

  // What a rotation or a removal leaves when nothing runs beside it: a stored row has the new kubeconfig or is gone for
  // good, a row that is not there stays not there, and no client of it is cached.
  lemma WriteStepsAloneAreAWrite(s: State, p: Pid, id: ClusterID, content: Option<Kubeconfig>)
    requires s.lock.None? && p in s.pcs && s.pcs[p].Idle?
    ensures var gone := if content.None? && id in s.rows then {id} else {};
            Run(Step, s, [BeginWrite(p, id, content), StoreWrite(p, false), Invalidate(p)])
            == Some(s.(rows := if content.None? then s.rows - {id}
                               else if id in s.rows then s.rows[id := content.value] else s.rows,
                       retired := s.retired + gone, clients := s.clients - {id},
                       epochs := s.epochs[id := Epoch(s, id) + 1]))
  {
    var t := WriteStores(s, p, id, content);
    var acts := [BeginWrite(p, id, content), StoreWrite(p, false)];
    Then(Step, s, acts, Invalidate(p));
    assert acts + [Invalidate(p)] == [BeginWrite(p, id, content), StoreWrite(p, false), Invalidate(p)];
    assert t.pcs[p := Idle] == s.pcs;
  }

  // One that fails in the store is no write: rows, clients and all else stay, and nothing is left to invalidate.
  lemma FailedWriteIsNone(s: State, p: Pid, id: ClusterID, content: Option<Kubeconfig>)
    requires p in s.pcs && s.pcs[p].Idle?
    ensures Run(Step, s, [BeginWrite(p, id, content), StoreWrite(p, true)]) == Some(s)
  {
    var first := [] + [BeginWrite(p, id, content)];
    Then(Step, s, [], BeginWrite(p, id, content));
    Then(Step, s, first, StoreWrite(p, true));
    assert first + [StoreWrite(p, true)] == [BeginWrite(p, id, content), StoreWrite(p, true)];
    assert s.pcs[p := Writing(id, content)][p := Idle] == s.pcs;
  }

  lemma StepKeepsRetired(s: State, a: Action, id: ClusterID)
    requires Enabled(s, a) && id in s.retired
    ensures id in Apply(s, a).retired
  {
  }

  // A store write that removes a stored row removes it for good, whatever interleaves: no row of that id, and so
  // nothing a lookup could build, comes back.
  lemma {:induction false} RemovedForGood(s: State, acts: seq<Action>, p: Pid, more: seq<Action>)
    requires Init(s) && Run(Step, s, acts).Some? && Run(Step, s, acts + [StoreWrite(p, false)] + more).Some?
    requires var t := Run(Step, s, acts).value;
             p in t.pcs && t.pcs[p].Writing? && t.pcs[p].content.None? && t.pcs[p].id in t.rows
    ensures Run(Step, s, acts).value.pcs[p].id !in Run(Step, s, acts + [StoreWrite(p, false)] + more).value.rows
  {
    var t := Run(Step, s, acts).value;
    var id := t.pcs[p].id;
    Then(Step, s, acts, StoreWrite(p, false));
    Continued(Step, s, acts + [StoreWrite(p, false)], more);
    var inv := (u: State) => id in u.retired;
    forall u, a | inv(u) && Step(u, a).Some? ensures inv(Step(u, a).value) {
      StepKeepsRetired(u, a, id);
    }
    Invariant(Step, inv, Apply(t, StoreWrite(p, false)), more);
    ReachableInv(s, acts + [StoreWrite(p, false)] + more);
  }

  // ---- Why the two exceptions are there ----

  // From any state with a stored id and two idle goroutines: a run after which a lookup would be served a kubeconfig
  // that is no longer the stored one.
  lemma StaleWhilePendingRun(s: State, p: Pid, q: Pid, id: ClusterID, config: Kubeconfig) returns (acts: seq<Action>)
    requires s.lock.None? && p != q && p in s.pcs && s.pcs[p].Idle? && q in s.pcs && s.pcs[q].Idle?
    requires id in s.rows && s.rows[id] != config && id !in s.clients
    ensures Run(Step, s, acts).Some?
    ensures var t := Run(Step, s, acts).value;
            id in t.clients && Get(t.rows, id) == Some(config) && t.clients[id].config == s.rows[id]
  {
    LookupStepsAloneAreALookup(s, p, id, false);
    var first := LookupSteps(false, true, false, p, id);
    var more := [BeginWrite(q, id, Some(config)), StoreWrite(q, false)];
    var t := WriteStores(Run(Step, s, first).value, q, id, Some(config));
    Continued(Step, s, first, more);
    acts := first + more;
  }

  // Deleting an organization leaves the client of its own cluster cached, with no invalidation to come.
  lemma SweptClientStaysRun(s: State, p: Pid, id: ClusterID) returns (acts: seq<Action>)
    requires s.lock.None? && p in s.pcs && (forall q <- s.pcs :: s.pcs[q].Idle?) && id in s.rows && id !in s.clients
    ensures Run(Step, s, acts).Some?
    ensures var t := Run(Step, s, acts).value;
            id in t.clients && id !in t.rows && id in t.retired && forall q <- t.pcs :: t.pcs[q].Idle?
  {
    LookupStepsAloneAreALookup(s, p, id, false);
    acts := LookupSteps(false, true, false, p, id);
    Then(Step, s, acts, SweepOrganization({id}));
    acts := acts + [SweepOrganization({id})];
  }

  /** The table as one goroutine runs its operations. */
  class ClientTable {
    var clients: map<ClusterID, Handle>
    var rows: map<ClusterID, Kubeconfig>
    var serial: nat

    constructor (rows: map<ClusterID, Kubeconfig>)
      ensures this.rows == rows && clients == map[]
    {
      this.rows := rows;
      clients := map[];
      serial := 0;
    }

    // Every cached client was built from the kubeconfig stored for its id, and is no other build's.
    predicate Agrees()
      reads this
    {
      forall id <- clients :: Get(rows, id) == Some(clients[id].config) && clients[id].serial < serial
    }

    // `fault` is a kubeconfig that does not parse or a client that cannot be built. What is returned is what every
    // lookup of that id will return until it is invalidated, whatever fails meanwhile, and what a table that agreed
    // with the store returns was built from what is stored; such a table still agrees. A new client is like none there
    // was; and there is none at all exactly for an uncached id with no row or no client that can be built of it.
    method ClientHandle(id: ClusterID, fault: bool) returns (h: Option<Handle>)
      modifies this`clients, this`serial
      ensures h.Some? ==> forall later: bool :: Looked(clients, rows, serial, id, later) == (clients, serial, h)
      ensures old(Agrees()) ==> Agrees() && (h.Some? ==> Get(rows, id) == Some(h.value.config))
      ensures h.Some? && id !in old(clients) ==>
                h.value.serial < serial && forall o <- old(clients) :: old(Agrees()) ==> old(clients)[o] != h.value
      ensures h.None? <==> id !in old(clients) && (id !in rows || fault)
      ensures forall o: ClusterID | o != id || o in old(clients) :: Get(clients, o) == Get(old(clients), o)
      ensures (clients, serial, h) == Looked(old(clients), rows, old(serial), id, fault)
    {
      if id in clients {
        return Some(clients[id]);
      }
      if id !in rows || fault {
        return None;
      }
      var built := Handle(rows[id], serial);
      serial := serial + 1;
      clients := clients[id := built];
      return Some(built);
    }

    // Whatever was cached for id, the next lookup answers with a client of its own, built from what is stored then, or
    // with nothing; no other id's lookup is affected.
    method Invalidate(id: ClusterID)
      modifies this`clients
      ensures clients == old(clients) - {id}
      ensures forall stored: map<ClusterID, Kubeconfig> ::
                Looked(clients, stored, serial, id, false).2
                == if id in stored then Some(Handle(stored[id], serial)) else None
      ensures forall o: ClusterID, fault: bool | o != id ::
                Looked(clients, rows, serial, o, fault).2 == Looked(old(clients), rows, serial, o, fault).2
      ensures old(Agrees()) ==> Agrees()
    {
      clients := clients - {id};
    }

    // A rotation (Some) or a removal (None); `fault` is a store write that fails. Whatever the outcome,
    // a table that agreed with the store before agrees with it afterwards.
    method Write(id: ClusterID, content: Option<Kubeconfig>, fault: bool)
      requires forall i <- clients :: Get(rows, i) == Some(clients[i].config)
      modifies this`clients, this`rows
      ensures forall i <- clients :: Get(rows, i) == Some(clients[i].config)
      ensures fault ==> rows == old(rows) && clients == old(clients)
      ensures !fault ==> clients == old(clients) - {id}
      ensures !fault ==> rows == if content.None? then old(rows) - {id}
                                 else if id in old(rows) then old(rows)[id := content.value] else old(rows)
    {
      if fault {
        return;
      }
      if content.None? {
        rows := rows - {id};
      } else if id in rows {
        rows := rows[id := content.value];
      }
      Invalidate(id);
    }
  }
}
