/**
The lifecycle of agent connections: the in-memory registry (internal/api/agentregistry.go) and the Connected flag
stored in the cluster's status (internal/api/agent_listener.go). Each connection has a goroutine of its own, and
the registry and the flag are two separate writes.
 */
module AgentTunnel {
  import opened Wrappers
  import opened Runs

  datatype AgentKey = AgentKey(ns: string, cluster: string)
  type ConnID = nat

  // ---- The registry's two writes, for any kind of connection ----

  function AfterRegister<C(==)>(conns: map<AgentKey, C>, key: AgentKey, conn: C): map<AgentKey, C> {
    conns[key := conn]
  }

  predicate IsCurrent<C(==)>(conns: map<AgentKey, C>, key: AgentKey, conn: C) {
    key in conns && conns[key] == conn
  }

  function AfterRemove<C(==)>(conns: map<AgentKey, C>, key: AgentKey, conn: C): map<AgentKey, C> {
    if IsCurrent(conns, key, conn) then conns - {key} else conns
  }

  // A connection counts here only as itself: nothing of it is read.
  class AgentConnection {
    constructor () {
    }
  }

  class AgentRegistry {
    var conns: map<AgentKey, AgentConnection>

    constructor ()
      ensures conns == map[]
    {
      conns := map[];
    }

    // From here on conn, and no other connection, is what a removal under key takes away; whoever was there before has
    // lost the key.
    method Register(key: AgentKey, conn: AgentConnection)
      modifies this
      ensures conns == AfterRegister(old(conns), key, conn)
      ensures AfterRemove(conns, key, conn) == old(conns) - {key}
      ensures forall other: AgentConnection :: other != conn ==> AfterRemove(conns, key, other) == conns
      ensures forall k: AgentKey, other: AgentConnection :: k != key ==>
                (IsCurrent(conns, k, other) <==> IsCurrent(old(conns), k, other))
    {
      conns := conns[key := conn];
    }

    // Compares the connection itself, so that a stale one never evicts the one that replaced it.
    method RemoveIfCurrent(key: AgentKey, conn: AgentConnection) returns (removed: bool)
      modifies this
      ensures removed <==> IsCurrent(old(conns), key, conn)
      ensures conns == AfterRemove(old(conns), key, conn)
    {
      if key in conns && conns[key] == conn {
        conns := conns - {key};
        return true;
      }
      return false;
    }

    method Lookup(key: AgentKey) returns (conn: AgentConnection?)
      ensures conn != null <==> key in conns
      ensures conn != null ==> conns[key] == conn
    {
      if key in conns {
        return conns[key];
      }
      return null;
    }
  }

  // ---- The goroutines ----

  datatype PC =
    | Accepted    // authenticated; before Register
    | Registered  // before writeAgentStatus(true)
    | Live        // in Wait
    | Dropped     // Wait returned; before RemoveIfCurrent
    | Removed     // was the current one; before writeAgentStatus(false)
    | Over

  datatype Conn = Conn(key: AgentKey, pc: PC)

  // A status write some registry change still has coming.
  datatype Write = Write(c: ConnID, connected: bool)

  // `latest`, `superseded` and `owed` are history: who registered last under a key; who was replaced before
  // removing itself; and the status writes each registry change still has coming, oldest change first.
  datatype State = State(
    registry: map<AgentKey, ConnID>,
    status: map<AgentKey, bool>,
    conns: map<ConnID, Conn>,
    latest: map<AgentKey, ConnID>,
    superseded: set<ConnID>,
    owed: map<AgentKey, seq<Write>>)

  datatype Action =
    | Accept(c: ConnID, key: AgentKey)
    | Register(c: ConnID)
    | WriteConnected(c: ConnID, fault: bool)
    | Drop(c: ConnID)
    | Remove(c: ConnID)
    | WriteDisconnected(c: ConnID, fault: bool)

  predicate Enabled(s: State, a: Action) {
    match a
    case Accept(c, _) => c !in s.conns
    case Register(c) => c in s.conns && s.conns[c].pc.Accepted?
    case WriteConnected(c, _) => c in s.conns && s.conns[c].pc.Registered?
    case Drop(c) => c in s.conns && s.conns[c].pc.Live?
    case Remove(c) => c in s.conns && s.conns[c].pc.Dropped?
    case WriteDisconnected(c, _) => c in s.conns && s.conns[c].pc.Removed?
  }

  function Goto(s: State, c: ConnID, pc: PC): State
    requires c in s.conns
  {
    s.(conns := s.conns[c := s.conns[c].(pc := pc)])
  }

  function Owed(s: State, key: AgentKey): seq<Write> {
    if key in s.owed then s.owed[key] else []
  }

  function Without(q: seq<Write>, c: ConnID): seq<Write> {
    if q == [] then [] else if q[0].c == c then q[1..] else [q[0]] + Without(q[1..], c)
  }

  function Moved(s: State, key: AgentKey, c: ConnID, connected: bool): State {
    s.(owed := s.owed[key := Owed(s, key) + [Write(c, connected)]])
  }

  function Written(s: State, key: AgentKey, c: ConnID, connected: bool, fault: bool): State {
    s.(status := if fault then s.status else s.status[key := connected],
       owed := s.owed[key := Without(Owed(s, key), c)])
  }

  function Apply(s: State, a: Action): State
    requires Enabled(s, a)
  {
    match a
    case Accept(c, key) => s.(conns := s.conns[c := Conn(key, Accepted)])
    case Register(c) =>
      var key := s.conns[c].key;
      Moved(Goto(s, c, Registered), key, c, true).(
        registry := AfterRegister(s.registry, key, c),
        latest := s.latest[key := c],
        superseded := s.superseded + (if key in s.registry then {s.registry[key]} else {}))
    case WriteConnected(c, fault) => Written(Goto(s, c, Live), s.conns[c].key, c, true, fault)
    case Drop(c) => Goto(s, c, Dropped)
    case Remove(c) =>
      var key := s.conns[c].key;
      if IsCurrent(s.registry, key, c) then
        Moved(Goto(s, c, Removed), key, c, false).(registry := AfterRemove(s.registry, key, c))
      else Goto(s, c, Over).(registry := AfterRemove(s.registry, key, c))
    case WriteDisconnected(c, fault) => Written(Goto(s, c, Over), s.conns[c].key, c, false, fault)
  }

  function Step(s: State, a: Action): Option<State> {
    if Enabled(s, a) then Some(Apply(s, a)) else None
  }

  predicate Init(s: State) {
    s.registry == map[] && s.status == map[] && s.conns == map[] && s.latest == map[]
    && s.superseded == {} && s.owed == map[]
  }

  // ---- The registry, under every interleaving ----

  // Registered and not removed by itself yet.
  predicate Up(pc: PC) {
    pc.Registered? || pc.Live? || pc.Dropped?
  }

  // The key's last registered connection is the registered one exactly while it is up.
  predicate KeyInv(s: State, key: AgentKey) {
    && (key in s.registry ==> key in s.latest && s.registry[key] == s.latest[key])
    && (key in s.latest ==>
          && s.latest[key] in s.conns && s.conns[s.latest[key]].key == key && !s.conns[s.latest[key]].pc.Accepted?
          && (key in s.registry <==> Up(s.conns[s.latest[key]].pc)))
  }

  predicate ConnInv(s: State, c: ConnID)
    requires c in s.conns
  {
    var conn := s.conns[c];
    && (!conn.pc.Accepted? ==> conn.key in s.latest)
    && (Up(conn.pc) && !IsCurrent(s.registry, conn.key, c) ==> c in s.superseded)
    && (c in s.superseded ==> (Up(conn.pc) || conn.pc.Over?) && !IsCurrent(s.registry, conn.key, c))
  }

  ghost predicate RegistryInv(s: State) {
    && s.superseded <= s.conns.Keys
    && (forall key: AgentKey :: KeyInv(s, key))
    && (forall c <- s.conns :: ConnInv(s, c))
  }

  lemma StepKeepsKey(s: State, a: Action, key: AgentKey)
    requires Enabled(s, a) && RegistryInv(s)
    ensures KeyInv(Apply(s, a), key)
  {
    assert KeyInv(s, key);
    if !a.Accept? {
      assert KeyInv(s, s.conns[a.c].key) && ConnInv(s, a.c);
    }
  }

  // The connection a is about.
  lemma StepKeepsMover(s: State, a: Action)
    requires Enabled(s, a) && !a.Accept? && KeyInv(s, s.conns[a.c].key) && ConnInv(s, a.c)
    ensures a.c in Apply(s, a).conns && ConnInv(Apply(s, a), a.c)
  {
  }

  lemma StepKeepsOthers(s: State, a: Action, c: ConnID)
    requires Enabled(s, a) && c in s.conns && c != a.c && KeyInv(s, s.conns[c].key) && ConnInv(s, c)
    requires a.Accept? || KeyInv(s, s.conns[a.c].key)
    ensures c in Apply(s, a).conns && ConnInv(Apply(s, a), c)
  {
  }

  lemma StepKeepsConn(s: State, a: Action, c: ConnID)
    requires Enabled(s, a) && RegistryInv(s) && c in Apply(s, a).conns
    ensures ConnInv(Apply(s, a), c)
  {
    if a.Accept? && c == a.c {
      assert ConnInv(Apply(s, a), c);
    } else {
      assert c in s.conns && ConnInv(s, c) && KeyInv(s, s.conns[c].key);
      if c == a.c {
        StepKeepsMover(s, a);
      } else {
        StepKeepsOthers(s, a, c);
      }
    }
  }

  lemma StepKeepsRegistry(s: State, a: Action)
    requires Enabled(s, a) && RegistryInv(s)
    ensures RegistryInv(Apply(s, a))
  {
    var t := Apply(s, a);
    forall key: AgentKey ensures KeyInv(t, key) {
      StepKeepsKey(s, a, key);
    }
    forall c | c in t.conns ensures ConnInv(t, c) {
      StepKeepsConn(s, a, c);
    }
    if a.Register? {
      assert KeyInv(s, s.conns[a.c].key);
    }
  }

  lemma {:induction false} ReachableRegistry(s: State, acts: seq<Action>)
    requires Init(s) && Run(Step, s, acts).Some?
    ensures RegistryInv(Run(Step, s, acts).value)
  {
    forall t, a | RegistryInv(t) && Step(t, a).Some? ensures RegistryInv(Step(t, a).value) {
      StepKeepsRegistry(t, a);
    }
    Invariant(Step, RegistryInv, s, acts);
  }

  // The registry holds exactly the connection that registered last under the key, unless that very connection
  // has removed itself.
  lemma {:induction false} RegistryHoldsTheLatest(s: State, acts: seq<Action>, key: AgentKey)
    requires Init(s) && Run(Step, s, acts).Some?
    ensures var t := Run(Step, s, acts).value;
            Get(t.registry, key) == if key in t.latest && t.latest[key] in t.conns && Up(t.conns[t.latest[key]].pc)
                                    then Some(t.latest[key]) else None
  {
    ReachableRegistry(s, acts);
    assert KeyInv(Run(Step, s, acts).value, key);
  }

  // A connection that another replaced before it removed itself evicts nobody and never writes the flag false.
  lemma {:induction false} SupersededIsHarmless(s: State, acts: seq<Action>, c: ConnID, fault: bool)
    requires Init(s) && Run(Step, s, acts).Some? && c in Run(Step, s, acts).value.superseded
    ensures var t := Run(Step, s, acts).value;
            && !Enabled(t, WriteDisconnected(c, fault))
            && (Enabled(t, Remove(c)) ==>
                  Apply(t, Remove(c)).registry == t.registry && Apply(t, Remove(c)).conns[c].pc.Over?)
  {
    ReachableRegistry(s, acts);
    assert ConnInv(Run(Step, s, acts).value, c);
  }

  // Once every connection of a key is over, the key is gone.
  lemma {:induction false} AllOverMeansAbsent(s: State, acts: seq<Action>, key: AgentKey)
    requires Init(s) && Run(Step, s, acts).Some?
    requires var t := Run(Step, s, acts).value;
             forall c <- t.conns :: t.conns[c].key == key ==> t.conns[c].pc.Over? || t.conns[c].pc.Accepted?
    ensures key !in Run(Step, s, acts).value.registry
  {
    ReachableRegistry(s, acts);
    assert KeyInv(Run(Step, s, acts).value, key);
  }

  // ---- The stored flag ----

  predicate Flag(s: State, key: AgentKey) {
    key in s.status && s.status[key]
  }

  // No connection of the key stands between a registry change and its status write.
  predicate Quiet(s: State, key: AgentKey) {
    forall c <- s.conns :: s.conns[c].key == key ==> !s.conns[c].pc.Registered? && !s.conns[c].pc.Removed?
  }

  // The status write a is, if it is one.
  function WriteOf(a: Action): Option<Write> {
    match a
    case WriteConnected(c, _) => Some(Write(c, true))
    case WriteDisconnected(c, _) => Some(Write(c, false))
    case _ => None
  }

  predicate Faulty(a: Action) {
    (a.WriteConnected? || a.WriteDisconnected?) && a.fault
  }

  // A schedule in which no status write fails and each key's writes land in the order of its registry changes.
  function OrderedStep(s: State, a: Action): Option<State> {
    if Enabled(s, a) && !Faulty(a)
       && (WriteOf(a).Some? ==> Owed(s, s.conns[a.c].key) != [] && Owed(s, s.conns[a.c].key)[0] == WriteOf(a).value)
    then Some(Apply(s, a)) else None
  }

  // What is owed is what connections are about to write, each once.
  predicate OwedInv(s: State, key: AgentKey) {
    var q := Owed(s, key);
    && (forall i | 0 <= i < |q| ::
          q[i].c in s.conns && s.conns[q[i].c] == Conn(key, if q[i].connected then Registered else Removed))
    && (forall i, k | 0 <= i < k < |q| :: q[i].c != q[k].c)
  }

  // The registry is the last change's outcome, wherever its write has got to.
  predicate FlagInv(s: State, key: AgentKey) {
    var q := Owed(s, key);
    (key in s.registry) == if q == [] then Flag(s, key) else q[|q| - 1].connected
  }

  // Nothing the flag and what is owed under key depend on changes.
  predicate SameUnder(s: State, t: State, key: AgentKey) {
    Owed(t, key) == Owed(s, key) && Flag(t, key) == Flag(s, key) && (key in t.registry <==> key in s.registry)
  }

  predicate Elsewhere(s: State, a: Action, key: AgentKey)
    requires Enabled(s, a)
  {
    a.Accept? || a.Drop? || s.conns[a.c].key != key
  }

  lemma ElsewhereSameUnder(s: State, a: Action, key: AgentKey)
    requires Enabled(s, a) && Elsewhere(s, a, key)
    ensures SameUnder(s, Apply(s, a), key)
  {
  }

  lemma WriteKeepsFlag(s: State, a: Action, key: AgentKey)
    requires OrderedStep(s, a).Some? && FlagInv(s, key) && WriteOf(a).Some? && s.conns[a.c].key == key
    ensures FlagInv(Apply(s, a), key)
  {
    assert Owed(Apply(s, a), key) == Owed(s, key)[1..];
  }

  lemma MoveKeepsFlag(s: State, a: Action, key: AgentKey)
    requires Enabled(s, a) && FlagInv(s, key) && (a.Register? || a.Remove?) && s.conns[a.c].key == key
    ensures FlagInv(Apply(s, a), key)
  {
    var q' := Owed(Apply(s, a), key);
    assert q' == Owed(s, key) || q' == Owed(s, key) + [Write(a.c, a.Register?)];
  }

  lemma ElsewhereKeepsOwed(s: State, a: Action, key: AgentKey)
    requires Enabled(s, a) && OwedInv(s, key) && Elsewhere(s, a, key)
    ensures OwedInv(Apply(s, a), key)
  {
    assert Owed(Apply(s, a), key) == Owed(s, key);
  }

  lemma WriteKeepsOwed(s: State, a: Action, key: AgentKey)
    requires OrderedStep(s, a).Some? && OwedInv(s, key) && WriteOf(a).Some? && s.conns[a.c].key == key
    ensures OwedInv(Apply(s, a), key)
  {
    assert Owed(Apply(s, a), key) == Owed(s, key)[1..];
  }

  lemma MoveKeepsOwed(s: State, a: Action, key: AgentKey)
    requires Enabled(s, a) && OwedInv(s, key) && (a.Register? || a.Remove?) && s.conns[a.c].key == key
    ensures OwedInv(Apply(s, a), key)
  {
    var q' := Owed(Apply(s, a), key);
    assert q' == Owed(s, key) || q' == Owed(s, key) + [Write(a.c, a.Register?)];
  }

  lemma OrderedStepKeepsOwed(s: State, a: Action, key: AgentKey)
    requires OrderedStep(s, a).Some? && OwedInv(s, key)
    ensures OwedInv(Apply(s, a), key)
  {
    if Elsewhere(s, a, key) {
      ElsewhereKeepsOwed(s, a, key);
    } else if WriteOf(a).Some? {
      WriteKeepsOwed(s, a, key);
    } else {
      MoveKeepsOwed(s, a, key);
    }
  }

  lemma OrderedStepKeepsFlag(s: State, a: Action, key: AgentKey)
    requires OrderedStep(s, a).Some? && FlagInv(s, key)
    ensures FlagInv(Apply(s, a), key)
  {
    if Elsewhere(s, a, key) {
      ElsewhereSameUnder(s, a, key);
    } else if WriteOf(a).Some? {
      WriteKeepsFlag(s, a, key);
    } else {
      MoveKeepsFlag(s, a, key);
    }
  }

  lemma OwedMeansBusy(s: State, key: AgentKey)
    requires OwedInv(s, key) && Owed(s, key) != []
    ensures !Quiet(s, key)
  {
    var w := Owed(s, key)[0];
    assert s.conns[w.c].key == key;
  }

  // When each key's writes land in the order of its registry changes and none is lost, then whenever none is
  // outstanding the stored flag says exactly whether the key is registered.
  lemma {:induction false} OrderedWritesAgree(s: State, acts: seq<Action>, key: AgentKey)
    requires Init(s) && Run(OrderedStep, s, acts).Some? && Quiet(Run(OrderedStep, s, acts).value, key)
    ensures var t := Run(OrderedStep, s, acts).value;
            Flag(t, key) <==> key in t.registry
  {
    var inv := (t: State) => OwedInv(t, key) && FlagInv(t, key);
    forall t, a | inv(t) && OrderedStep(t, a).Some? ensures inv(OrderedStep(t, a).value) {
      OrderedStepKeepsOwed(t, a, key);
      OrderedStepKeepsFlag(t, a, key);
    }
    Invariant(OrderedStep, inv, s, acts);
    if Owed(Run(OrderedStep, s, acts).value, key) != [] {
      OwedMeansBusy(Run(OrderedStep, s, acts).value, key);
    }
  }

  // ---- One pair at a time ----

  // A schedule in which each register-then-write and remove-then-write of a key runs without another of that key
  // in between.
  function SerialStep(s: State, a: Action): Option<State> {
    if Enabled(s, a) && !Faulty(a) && ((a.Register? || a.Remove?) ==> Quiet(s, s.conns[a.c].key))
    then Some(Apply(s, a)) else None
  }

  // At most one write is owed under a key, by a connection that stands right before it.
  predicate SerialInv(s: State, key: AgentKey) {
    && OwedInv(s, key) && FlagInv(s, key) && |Owed(s, key)| <= 1
    && (forall c <- s.conns :: s.conns[c].key == key && (s.conns[c].pc.Registered? || s.conns[c].pc.Removed?) ==>
          Owed(s, key) == [Write(c, s.conns[c].pc.Registered?)])
  }

  lemma SerialWriteIsTheOnlyOne(s: State, a: Action, key: AgentKey)
    requires SerialStep(s, a).Some? && SerialInv(s, key) && WriteOf(a).Some? && s.conns[a.c].key == key
    ensures OrderedStep(s, a).Some? && Owed(Apply(s, a), key) == [] && Quiet(Apply(s, a), key)
  {
    assert Owed(s, key) == [WriteOf(a).value];
    assert forall c <- s.conns :: c != a.c && s.conns[c].key == key ==>
      !s.conns[c].pc.Registered? && !s.conns[c].pc.Removed?;
  }

  // With nothing owed before, the one mover owes at most its own write after.
  lemma MoveOwesOne(s: State, a: Action, key: AgentKey)
    requires Enabled(s, a) && (a.Register? || a.Remove?) && s.conns[a.c].key == key && Owed(s, key) == []
    ensures var t := Apply(s, a);
            && |Owed(t, key)| <= 1
            && (forall c <- t.conns :: c != a.c ==> c in s.conns && t.conns[c] == s.conns[c])
            && (t.conns[a.c].pc.Registered? || t.conns[a.c].pc.Removed? ==>
                  Owed(t, key) == [Write(a.c, t.conns[a.c].pc.Registered?)])
  {
    var t := Apply(s, a);
    assert [] + [Write(a.c, a.Register?)] == [Write(a.c, a.Register?)];
  }

  lemma SerialMoveStartsAlone(s: State, a: Action, key: AgentKey)
    requires SerialStep(s, a).Some? && SerialInv(s, key) && (a.Register? || a.Remove?) && s.conns[a.c].key == key
    ensures SerialInv(Apply(s, a), key)
  {
    if Owed(s, key) != [] {
      OwedMeansBusy(s, key);
    }
    MoveOwesOne(s, a, key);
    MoveKeepsOwed(s, a, key);
    MoveKeepsFlag(s, a, key);
  }

  predicate SameConns(s: State, t: State, key: AgentKey) {
    forall c <- t.conns :: t.conns[c].key == key && (t.conns[c].pc.Registered? || t.conns[c].pc.Removed?) ==>
      c in s.conns && s.conns[c] == t.conns[c]
  }

  lemma ElsewhereSameConns(s: State, a: Action, key: AgentKey)
    requires Enabled(s, a) && Elsewhere(s, a, key)
    ensures SameConns(s, Apply(s, a), key)
  {
  }

  lemma SerialCarries(s: State, t: State, key: AgentKey)
    requires SerialInv(s, key) && SameUnder(s, t, key) && SameConns(s, t, key) && OwedInv(t, key)
    ensures SerialInv(t, key)
  {
  }

  lemma SerialOtherSteps(s: State, a: Action, key: AgentKey)
    requires SerialStep(s, a).Some? && SerialInv(s, key) && Elsewhere(s, a, key)
    ensures SerialInv(Apply(s, a), key)
  {
    ElsewhereSameUnder(s, a, key);
    ElsewhereSameConns(s, a, key);
    ElsewhereKeepsOwed(s, a, key);
    SerialCarries(s, Apply(s, a), key);
  }

  lemma SerialStepKeeps(s: State, a: Action, key: AgentKey)
    requires SerialStep(s, a).Some? && SerialInv(s, key)
    ensures SerialInv(Apply(s, a), key)
  {
    if Elsewhere(s, a, key) {
      SerialOtherSteps(s, a, key);
    } else if WriteOf(a).Some? {
      SerialWriteIsTheOnlyOne(s, a, key);
      OrderedStepKeepsFlag(s, a, key);
    } else {
      SerialMoveStartsAlone(s, a, key);
    }
  }

  lemma {:induction false} ReachableSerial(s: State, acts: seq<Action>, key: AgentKey)
    requires Init(s) && Run(SerialStep, s, acts).Some?
    ensures SerialInv(Run(SerialStep, s, acts).value, key)
  {
    var inv := (t: State) => SerialInv(t, key);
    forall t, a | inv(t) && SerialStep(t, a).Some? ensures inv(SerialStep(t, a).value) {
      SerialStepKeeps(t, a, key);
    }
    Invariant(SerialStep, inv, s, acts);
  }

  // Such a run refines the protocol with one atomic flag: a step changes the stored flag of a key only to what
  // registry membership already is, leaves every other key's alone, and between pairs the two are equal.
  lemma {:induction false} SerialRefinesAtomicFlag(s: State, acts: seq<Action>, a: Action, key: AgentKey)
    requires Init(s) && Run(SerialStep, s, acts).Some? && SerialStep(Run(SerialStep, s, acts).value, a).Some?
    ensures var t := Run(SerialStep, s, acts).value;
            var u := Apply(t, a);
            && (Quiet(t, key) ==> (Flag(t, key) <==> key in t.registry))
            && (Flag(u, key) != Flag(t, key) ==>
                  (Flag(u, key) <==> key in t.registry) && u.registry == t.registry && Quiet(u, key))
            && (a.Accept? || t.conns[a.c].key != key ==> Flag(u, key) == Flag(t, key))
  {
    ReachableSerial(s, acts, key);
    var t := Run(SerialStep, s, acts).value;
    if Quiet(t, key) && Owed(t, key) != [] {
      OwedMeansBusy(t, key);
    }
    if WriteOf(a).Some? && t.conns[a.c].key == key {
      SerialWriteIsTheOnlyOne(t, a, key);
    }
  }

  // ---- Exactly when the flag is wrong ----

  // The status write under key that landed last in a run; a failing one does not land.
  function Landed(s: State, acts: seq<Action>, key: AgentKey): Option<Write>
    requires Run(Step, s, acts).Some?
  {
    if acts == [] then None
    else
      var n := |acts| - 1;
      var t := Run(Step, s, acts[..n]).value;
      if WriteOf(acts[n]).Some? && !Faulty(acts[n]) && t.conns[acts[n].c].key == key then WriteOf(acts[n])
      else Landed(s, acts[..n], key)
  }

  // The registry change a is under key in state s, as the write it has coming, if it is one.
  function ChangeOf(s: State, a: Action, key: AgentKey): Option<Write>
    requires Enabled(s, a)
  {
    match a
    case Register(c) => if s.conns[c].key == key then Some(Write(c, true)) else None
    case Remove(c) => if s.conns[c].key == key && IsCurrent(s.registry, key, c) then Some(Write(c, false)) else None
    case _ => None
  }

  // The last registry change under key in a run.
  function Changed(s: State, acts: seq<Action>, key: AgentKey): Option<Write>
    requires Run(Step, s, acts).Some?
  {
    if acts == [] then None
    else
      var n := |acts| - 1;
      var change := ChangeOf(Run(Step, s, acts[..n]).value, acts[n], key);
      if change.Some? then change else Changed(s, acts[..n], key)
  }

  // w was the last registry change under key at some point of the run.
  ghost predicate WasLatest(s: State, acts: seq<Action>, key: AgentKey, w: Write) {
    exists i | 0 <= i <= |acts| :: Run(Step, s, acts[..i]).Some? && Changed(s, acts[..i], key) == Some(w)
  }

  lemma WasLatestStays(s: State, acts: seq<Action>, key: AgentKey, w: Write, n: nat)
    requires n <= |acts| && WasLatest(s, acts[..n], key, w)
    ensures WasLatest(s, acts, key, w)
  {
    var i :| 0 <= i <= n && Run(Step, s, acts[..n][..i]).Some? && Changed(s, acts[..n][..i], key) == Some(w);
    assert acts[..n][..i] == acts[..i];
  }

  lemma LatestIsLatest(s: State, acts: seq<Action>, key: AgentKey)
    requires Run(Step, s, acts).Some? && Changed(s, acts, key).Some?
    ensures WasLatest(s, acts, key, Changed(s, acts, key).value)
  {
    assert acts[..|acts|] == acts;
  }

  // What a connection between its registry change and its write is about to write.
  function About(conn: Conn, c: ConnID): Option<Write> {
    match conn.pc
    case Registered => Some(Write(c, true))
    case Removed => Some(Write(c, false))
    case _ => None
  }

  // One step: who is about to write something new has just made that change.
  lemma AboutIsNew(s: State, a: Action, key: AgentKey, c: ConnID)
    requires Enabled(s, a) && c in Apply(s, a).conns && Apply(s, a).conns[c].key == key
    requires About(Apply(s, a).conns[c], c).Some?
    ensures || ChangeOf(s, a, key) == About(Apply(s, a).conns[c], c)
            || (c in s.conns && s.conns[c] == Apply(s, a).conns[c])
  {
  }

  lemma {:induction false} AboutWasLatest(s: State, acts: seq<Action>, key: AgentKey, c: ConnID)
    requires Init(s) && Run(Step, s, acts).Some?
    requires var t := Run(Step, s, acts).value; c in t.conns && t.conns[c].key == key && About(t.conns[c], c).Some?
    ensures WasLatest(s, acts, key, About(Run(Step, s, acts).value.conns[c], c).value)
  {
    if acts != [] {
      var n := |acts| - 1;
      var t := Run(Step, s, acts[..n]).value;
      AboutIsNew(t, acts[n], key, c);
      if ChangeOf(t, acts[n], key) == About(Apply(t, acts[n]).conns[c], c) {
        LatestIsLatest(s, acts, key);
      } else {
        AboutWasLatest(s, acts[..n], key, c);
        WasLatestStays(s, acts, key, About(t.conns[c], c).value, n);
      }
    }
  }

  // Every write that landed was of a registry change, the last one in its time.
  lemma {:induction false} LandedWasLatest(s: State, acts: seq<Action>, key: AgentKey)
    requires Init(s) && Run(Step, s, acts).Some? && Landed(s, acts, key).Some?
    ensures WasLatest(s, acts, key, Landed(s, acts, key).value)
  {
    var n := |acts| - 1;
    var t := Run(Step, s, acts[..n]).value;
    if WriteOf(acts[n]).Some? && !Faulty(acts[n]) && t.conns[acts[n].c].key == key {
      AboutWasLatest(s, acts[..n], key, acts[n].c);
    } else {
      LandedWasLatest(s, acts[..n], key);
    }
    WasLatestStays(s, acts, key, Landed(s, acts, key).value, n);
  }

  // Registry and flag, by the last change and the last write.
  predicate Says(w: Option<Write>) {
    w.Some? && w.value.connected
  }

  lemma StepSays(s: State, a: Action, key: AgentKey)
    requires Enabled(s, a)
    ensures var t := Apply(s, a);
            && (key in t.registry)
               == (if ChangeOf(s, a, key).Some? then Says(ChangeOf(s, a, key)) else key in s.registry)
            && Flag(t, key)
               == (if WriteOf(a).Some? && !Faulty(a) && s.conns[a.c].key == key then Says(WriteOf(a)) else Flag(s, key))
  {
  }

  lemma {:induction false} SaysWhatLastCame(s: State, acts: seq<Action>, key: AgentKey)
    requires Init(s) && Run(Step, s, acts).Some?
    ensures var t := Run(Step, s, acts).value;
            (key in t.registry <==> Says(Changed(s, acts, key))) && (Flag(t, key) <==> Says(Landed(s, acts, key)))
  {
    if acts != [] {
      var n := |acts| - 1;
      SaysWhatLastCame(s, acts[..n], key);
      StepSays(Run(Step, s, acts[..n]).value, acts[n], key);
    }
  }

  // Before the first write under a key all its connections are before theirs.
  predicate NoneWrote(s: State, key: AgentKey) {
    forall c <- s.conns :: s.conns[c].key == key ==> s.conns[c].pc.Accepted? || s.conns[c].pc.Registered?
  }

  lemma StepKeepsNoneWrote(s: State, a: Action, key: AgentKey)
    requires Enabled(s, a) && NoneWrote(s, key) && !(WriteOf(a).Some? && s.conns[a.c].key == key)
    ensures NoneWrote(Apply(s, a), key)
    ensures ChangeOf(s, a, key).Some? ==> a.Register?
    ensures forall c <- s.conns :: s.conns[c].key == key && s.conns[c].pc.Registered? ==>
              c in Apply(s, a).conns && Apply(s, a).conns[c] == s.conns[c]
  {
  }

  lemma {:induction false} UnwrittenIsAbout(s: State, acts: seq<Action>, key: AgentKey)
    requires Init(s) && Run(Step, s, acts).Some? && Landed(s, acts, key).None? && forall a <- acts :: !Faulty(a)
    ensures var t := Run(Step, s, acts).value;
            && NoneWrote(t, key)
            && match Changed(s, acts, key)
               case Some(w) => w.c in t.conns && t.conns[w.c] == Conn(key, Registered)
               case None => true
  {
    if acts != [] {
      var n := |acts| - 1;
      assert acts[n] in acts;
      UnwrittenIsAbout(s, acts[..n], key);
      StepKeepsNoneWrote(Run(Step, s, acts[..n]).value, acts[n], key);
    }
  }

  // In every run, failing writes among its steps, the flag is wrong exactly while the write that landed last and the
  // last registry change do not say the same; that write belongs to a change that was the last one in its time. And
  // where no write fails and none is outstanding, there are both, and the write says the opposite of the change.
  lemma FlagWrongIff(s: State, acts: seq<Action>, key: AgentKey)
    requires Init(s) && Run(Step, s, acts).Some?
    ensures var t := Run(Step, s, acts).value;
            var landed, changed := Landed(s, acts, key), Changed(s, acts, key);
            && (Flag(t, key) != (key in t.registry) <==> Says(landed) != Says(changed))
            && (landed.Some? ==> WasLatest(s, acts, key, landed.value))
            && (Flag(t, key) != (key in t.registry) && Quiet(t, key) && (forall a <- acts :: !Faulty(a)) ==>
                  landed.Some? && changed.Some? && landed.value.connected != changed.value.connected)
  {
    SaysWhatLastCame(s, acts, key);
    if Landed(s, acts, key).Some? {
      LandedWasLatest(s, acts, key);
      SomethingChanged(s, acts, key);
    } else if forall a <- acts :: !Faulty(a) {
      UnwrittenIsAbout(s, acts, key);
    }
  }

  lemma SomethingChanged(s: State, acts: seq<Action>, key: AgentKey)
    requires Run(Step, s, acts).Some? && exists w :: WasLatest(s, acts, key, w)
    ensures Changed(s, acts, key).Some?
  {
    var w :| WasLatest(s, acts, key, w);
    var i :| 0 <= i <= |acts| && Run(Step, s, acts[..i]).Some? && Changed(s, acts[..i], key) == Some(w);
    ChangedStays(s, acts, key, i);
  }

  lemma {:induction false} ChangedStays(s: State, acts: seq<Action>, key: AgentKey, i: nat)
    requires i <= |acts| && Run(Step, s, acts).Some? && Run(Step, s, acts[..i]).Some?
    requires Changed(s, acts[..i], key).Some?
    ensures Changed(s, acts, key).Some?
  {
    if i < |acts| {
      var n := |acts| - 1;
      assert acts[..n][..i] == acts[..i];
      ChangedStays(s, acts[..n], key, i);
    } else {
      assert acts[..i] == acts;
    }
  }

  // ---- Under the finest interleaving the flag can be wrong for good ----

  // d has left the registry and owes its write; e has not come yet; nobody else is there.
  predicate Leaving(s: State, d: ConnID, e: ConnID, key: AgentKey) {
    && d in s.conns && s.conns[d] == Conn(key, Removed) && e in s.conns && s.conns[e] == Conn(key, Accepted)
    && (forall c <- s.conns :: c != d && c != e && s.conns[c].key == key ==> s.conns[c].pc.Over?)
  }

  lemma Leaves(s: State, d: ConnID, e: ConnID, key: AgentKey) returns (acts: seq<Action>)
    requires d in s.conns && s.conns[d] == Conn(key, Live) && IsCurrent(s.registry, key, d)
    requires e in s.conns && s.conns[e] == Conn(key, Accepted)
    requires forall c <- s.conns :: c != d && c != e && s.conns[c].key == key ==> s.conns[c].pc.Over?
    ensures Run(Step, s, acts).Some? && Leaving(Run(Step, s, acts).value, d, e, key)
  {
    Then(Step, s, [], Drop(d));
    acts := [] + [Drop(d)];
    var t := Run(Step, s, acts).value;
    assert t.conns == s.conns[d := Conn(key, Dropped)] && t.registry == s.registry;
    Then(Step, s, acts, Remove(d));
    acts := acts + [Remove(d)];
    assert Run(Step, s, acts).value.conns == s.conns[d := Conn(key, Removed)];
  }

  // e has registered, d still owes its write, and nobody else is there.
  predicate Overtaking(s: State, d: ConnID, e: ConnID, key: AgentKey) {
    && d in s.conns && s.conns[d] == Conn(key, Removed) && e in s.conns && s.conns[e] == Conn(key, Live) && d != e
    && (forall c <- s.conns :: c != d && c != e && s.conns[c].key == key ==> s.conns[c].pc.Over?)
    && IsCurrent(s.registry, key, e)
  }

  lemma ComesUp(s: State, d: ConnID, e: ConnID, key: AgentKey) returns (acts: seq<Action>)
    requires Leaving(s, d, e, key)
    ensures Run(Step, s, acts).Some? && Overtaking(Run(Step, s, acts).value, d, e, key)
  {
    Then(Step, s, [], Register(e));
    acts := [] + [Register(e)];
    var t := Run(Step, s, acts).value;
    assert t.conns == s.conns[e := Conn(key, Registered)] && t.registry == s.registry[key := e];
    Then(Step, s, acts, WriteConnected(e, false));
    acts := acts + [WriteConnected(e, false)];
    var u := Run(Step, s, acts).value;
    assert u.conns == s.conns[e := Conn(key, Live)] && u.registry == t.registry;
  }

  lemma LateWrite(s: State, d: ConnID, e: ConnID, key: AgentKey)
    requires Overtaking(s, d, e, key)
    ensures Enabled(s, WriteDisconnected(d, false))
    ensures var t := Apply(s, WriteDisconnected(d, false));
            Quiet(t, key) && IsCurrent(t.registry, key, e) && !Flag(t, key)
  {
    var t := Apply(s, WriteDisconnected(d, false));
    assert t.conns == s.conns[d := Conn(key, Over)] && t.registry == s.registry;
  }

  // A live connection d, dropped and removed, is overtaken by the next one before it writes: e stays registered
  // and live, nothing is outstanding, and the flag is false.
  lemma OvertakenWrite(s: State, d: ConnID, e: ConnID, key: AgentKey) returns (acts: seq<Action>)
    requires d in s.conns && s.conns[d] == Conn(key, Live) && IsCurrent(s.registry, key, d)
    requires e in s.conns && s.conns[e] == Conn(key, Accepted)
    requires forall c <- s.conns :: c != d && c != e && s.conns[c].key == key ==> s.conns[c].pc.Over?
    ensures Run(Step, s, acts).Some?
    ensures var t := Run(Step, s, acts).value;
            Quiet(t, key) && IsCurrent(t.registry, key, e) && !Flag(t, key)
  {
    acts := Leaves(s, d, e, key);
    var more := ComesUp(Run(Step, s, acts).value, d, e, key);
    Continued(Step, s, acts, more);
    acts := acts + more;
    var t := Run(Step, s, acts).value;
    LateWrite(t, d, e, key);
    Then(Step, s, acts, WriteDisconnected(d, false));
    acts := acts + [WriteDisconnected(d, false)];
  }

  lemma FirstIsLive(s: State, d: ConnID, key: AgentKey) returns (acts: seq<Action>)
    requires Init(s)
    ensures Run(Step, s, acts).Some?
    ensures var t := Run(Step, s, acts).value; t.conns == map[d := Conn(key, Live)] && IsCurrent(t.registry, key, d)
  {
    Then(Step, s, [], Accept(d, key));
    acts := [] + [Accept(d, key)];
    assert Run(Step, s, acts).value.conns == map[d := Conn(key, Accepted)];
    Then(Step, s, acts, Register(d));
    acts := acts + [Register(d)];
    var t := Run(Step, s, acts).value;
    assert t.conns == map[d := Conn(key, Registered)] && IsCurrent(t.registry, key, d);
    Then(Step, s, acts, WriteConnected(d, false));
    acts := acts + [WriteConnected(d, false)];
  }

  lemma FirstConnection(s: State, d: ConnID, e: ConnID, key: AgentKey) returns (acts: seq<Action>)
    requires Init(s) && d != e
    ensures Run(Step, s, acts).Some?
    ensures var t := Run(Step, s, acts).value;
            t.conns == map[d := Conn(key, Live), e := Conn(key, Accepted)] && IsCurrent(t.registry, key, d)
  {
    acts := FirstIsLive(s, d, key);
    Then(Step, s, acts, Accept(e, key));
    acts := acts + [Accept(e, key)];
  }

  // And so from the very start: two connections are enough.
  lemma OvertakenFromTheStart(s: State, d: ConnID, e: ConnID, key: AgentKey) returns (acts: seq<Action>)
    requires Init(s) && d != e
    ensures Run(Step, s, acts).Some?
    ensures var t := Run(Step, s, acts).value;
            Quiet(t, key) && IsCurrent(t.registry, key, e) && !Flag(t, key)
  {
    acts := FirstConnection(s, d, e, key);
    var more := OvertakenWrite(Run(Step, s, acts).value, d, e, key);
    Continued(Step, s, acts, more);
    acts := acts + more;
  }
}
