/**
The two secrets created once per install: the agent CA (internal/agentpki/ca.go) and the session-signing key
(internal/api/credentials.go). Any number of processes run get, create, get again on one stored value, their
steps interleaved in any way.
 */
module CreateOnce {
  import opened Wrappers
  import opened Runs

  type Pid = nat

  // How a key of type K is written as a stored value of type B. For the CA, marshalling and parsing of a private
  // key; for the signing key, padded base64.
  datatype Codec<!K, !B> = Codec(encode: K -> B, decode: B -> Option<K>)

  ghost predicate RoundTrips<K(!new), B(!new)>(c: Codec<K, B>) {
    forall k :: c.decode(c.encode(k)) == Some(k)
  }

  datatype PC<K> =
    | Start
    | Generated(key: K)  // nothing was stored; a key of its own is ready
    | ReadBack(key: K)   // its insert succeeded, the row is to be read back
    | Again              // its create did not, so read what is there
    | Done(key: K)
    | Failed

  // readsBack: the SQL store's create inserts and then selects, and every error of it is followed by another
  // get. The Secret's create is one call, and only AlreadyExists is.
  datatype State<!K, !B> = State(
    codec: Codec<K, B>,
    readsBack: bool,
    stored: Option<B>,
    pcs: map<Pid, PC<K>>)

  datatype Action<K> =
    | Lookup(p: Pid, own: K, fault: bool)
    | Create(p: Pid, fault: bool)
    | Select(p: Pid, fault: bool)
    | GetAgain(p: Pid, fault: bool)

  predicate Enabled<K, B>(s: State<K, B>, a: Action<K>) {
    a.p in s.pcs &&
    match a
    case Lookup(p, _, _) => s.pcs[p].Start?
    case Create(p, _) => s.pcs[p].Generated?
    case Select(p, _) => s.pcs[p].ReadBack?
    case GetAgain(p, _) => s.pcs[p].Again?
  }

  // caFromSecretData, decodeSigningKey: a stored value that is no key is an error.
  function Decoded<K, B>(s: State<K, B>): PC<K>
    requires s.stored.Some?
  {
    match s.codec.decode(s.stored.value)
    case Some(k) => Done(k)
    case None => Failed
  }

  function Apply<K, B>(s: State<K, B>, a: Action<K>): State<K, B>
    requires Enabled(s, a)
  {
    match a
    case Lookup(p, own, fault) =>
      s.(pcs := s.pcs[p := if fault then Failed else if s.stored.Some? then Decoded(s) else Generated(own)])
    case Create(p, fault) =>
      if fault then s.(pcs := s.pcs[p := if s.readsBack then Again else Failed])
      else if s.stored.Some? then s.(pcs := s.pcs[p := Again])
      else
        var key := s.pcs[p].key;
        s.(stored := Some(s.codec.encode(key)), pcs := s.pcs[p := if s.readsBack then ReadBack(key) else Done(key)])
    case Select(p, fault) => s.(pcs := s.pcs[p := if fault then Again else Done(s.pcs[p].key)])
    case GetAgain(p, fault) =>
      s.(pcs := s.pcs[p := if fault || s.stored.None? then Failed else Decoded(s)])
  }

  function Step<K, B>(s: State<K, B>, a: Action<K>): Option<State<K, B>> {
    if Enabled(s, a) then Some(Apply(s, a)) else None
  }

  ghost predicate Init<K(!new), B(!new)>(s: State<K, B>) {
    RoundTrips(s.codec) && forall p <- s.pcs :: s.pcs[p].Start?
  }

  // ---- Agreement ----

  // A process that has a key has the stored one.
  ghost predicate Inv<K(!new), B(!new)>(s: State<K, B>) {
    && RoundTrips(s.codec)
    && (forall p <- s.pcs :: s.pcs[p].Done? || s.pcs[p].ReadBack? ==>
          s.stored.Some? && s.codec.decode(s.stored.value) == Some(s.pcs[p].key))
  }

  lemma {:induction false} ReachableInv<K(!new), B(!new)>(s: State<K, B>, acts: seq<Action<K>>)
    requires Init(s) && Run(Step, s, acts).Some?
    ensures Inv(Run(Step, s, acts).value)
  {
    forall t: State<K, B>, a: Action<K> | Inv(t) && Step(t, a).Some? ensures Inv(Step(t, a).value) {
    }
    Invariant(Step, Inv, s, acts);
  }

  // Whoever returns a key returns the stored one, so all of them return the same.
  lemma {:induction false} Agreement<K(!new), B(!new)>(s: State<K, B>, acts: seq<Action<K>>, p: Pid, q: Pid)
    requires Init(s) && Run(Step, s, acts).Some?
    requires var t := Run(Step, s, acts).value; p in t.pcs && q in t.pcs && t.pcs[p].Done? && t.pcs[q].Done?
    ensures var t := Run(Step, s, acts).value;
            t.pcs[p].key == t.pcs[q].key && t.stored.Some? && t.codec.decode(t.stored.value) == Some(t.pcs[p].key)
  {
    ReachableInv(s, acts);
  }

  // The stored value never changes once written.
  lemma {:induction false} StoredOnce<K, B>(s: State<K, B>, acts: seq<Action<K>>, more: seq<Action<K>>)
    requires Run(Step, s, acts).Some? && Run(Step, s, acts).value.stored.Some?
    requires Run(Step, s, acts + more).Some?
    ensures Run(Step, s, acts + more).value.stored == Run(Step, s, acts).value.stored
  {
    Continued(Step, s, acts, more);
    StaysStored(Run(Step, s, acts).value, more);
  }

  lemma {:induction false} StaysStored<K, B>(s: State<K, B>, acts: seq<Action<K>>)
    requires s.stored.Some? && Run(Step, s, acts).Some?
    ensures Run(Step, s, acts).value.stored == s.stored
  {
    if acts != [] {
      StaysStored(s, acts[..|acts| - 1]);
    }
  }

  // The stored key was there at the start or is the one some process generated.
  lemma {:induction false} StoredWasGenerated<K, B>(s: State<K, B>, acts: seq<Action<K>>)
    requires Run(Step, s, acts).Some? && forall p <- s.pcs :: s.pcs[p].Start?
    ensures var t := Run(Step, s, acts).value;
            && t.codec == s.codec
            && (t.stored == s.stored
                || exists a <- acts :: a.Lookup? && t.stored == Some(s.codec.encode(a.own)))
            && (forall p <- t.pcs :: t.pcs[p].Generated? ==> exists a <- acts :: a.Lookup? && a.own == t.pcs[p].key)
  {
    if acts != [] {
      var prefix, a := acts[..|acts| - 1], acts[|acts| - 1];
      StoredWasGenerated(s, prefix);
      var t := Run(Step, s, prefix).value;
      assert forall b <- prefix :: b in acts;
      assert a in acts;
      forall p | p in Apply(t, a).pcs && Apply(t, a).pcs[p].Generated?
        ensures exists b <- acts :: b.Lookup? && b.own == Apply(t, a).pcs[p].key
      {
        if p == a.p {
          assert a.Lookup? && a.own == Apply(t, a).pcs[p].key;
        } else {
          var b :| b in prefix && b.Lookup? && b.own == t.pcs[p].key;
        }
      }
      if a.Create? && Apply(t, a).stored != t.stored {
        var b :| b in prefix && b.Lookup? && b.own == t.pcs[a.p].key;
      }
    }
  }

  // ---- Nobody is left without a key ----

  ghost predicate Readable<K, B>(s: State<K, B>) {
    s.stored.Some? ==> s.codec.decode(s.stored.value).Some?
  }

  ghost predicate NoneFailed<K(!new), B(!new)>(s: State<K, B>) {
    && RoundTrips(s.codec) && Readable(s)
    && (forall p <- s.pcs :: !s.pcs[p].Failed? && (s.pcs[p].Again? ==> s.stored.Some?))
  }

  // With no store failure and no unreadable value to start from, no process ever fails: whoever loses the race
  // finds the winner's key.
  lemma {:induction false} LosersFindTheKey<K(!new), B(!new)>(s: State<K, B>, acts: seq<Action<K>>, p: Pid)
    requires Init(s) && Readable(s) && Run(Step, s, acts).Some? && (forall a <- acts :: !a.fault)
    requires p in Run(Step, s, acts).value.pcs
    ensures !Run(Step, s, acts).value.pcs[p].Failed?
  {
    FaultFree(s, acts);
  }

  lemma {:induction false} FaultFree<K(!new), B(!new)>(s: State<K, B>, acts: seq<Action<K>>)
    requires NoneFailed(s) && Run(Step, s, acts).Some? && (forall a <- acts :: !a.fault)
    ensures NoneFailed(Run(Step, s, acts).value)
  {
    if acts != [] {
      assert acts[|acts| - 1] in acts;
      FaultFree(s, acts[..|acts| - 1]);
    }
  }

  function Rank<K>(pc: PC<K>): nat {
    match pc
    case Start => 4
    case Generated(_) => 3
    case ReadBack(_) => 2
    case Again => 1
    case _ => 0
  }

  function StepsOf<K>(acts: seq<Action<K>>, p: Pid): nat {
    if acts == [] then 0 else StepsOf(acts[..|acts| - 1], p) + if acts[|acts| - 1].p == p then 1 else 0
  }

  // Every process is through after at most four of its own steps, whatever the others do, and until then it can
  // always take one.
  lemma {:induction false} FourSteps<K, B>(s: State<K, B>, acts: seq<Action<K>>, p: Pid, own: K)
    requires Run(Step, s, acts).Some? && p in s.pcs && s.pcs[p].Start?
    ensures var t := Run(Step, s, acts).value;
            && p in t.pcs && StepsOf(acts, p) + Rank(t.pcs[p]) <= 4
            && (Rank(t.pcs[p]) > 0 ==>
                  Step(t, Lookup(p, own, false)).Some? || Step(t, Create(p, false)).Some?
                  || Step(t, Select(p, false)).Some? || Step(t, GetAgain(p, false)).Some?)
  {
    if acts != [] {
      FourSteps(s, acts[..|acts| - 1], p, own);
    }
  }

  // ---- One process alone ----

  // What its calls, failing as given, come to when nobody else has a turn. A failing get is the end; a stored value is
  // the answer, if it is a key. Where nothing is stored, its own key is, and is the answer, unless the store fails: the
  // Secret's create at its only call; the SQL store's in the insert, or in reading the row back and then getting it.
  predicate EndsAs<K(==), B(==)>(s: State<K, B>, own: K, get: bool, create: bool, select: bool, again: bool, pc: PC<K>,
                                 stored: Option<B>)
  {
    if get then pc.Failed? && stored == s.stored
    else if s.stored.Some? then
      && stored == s.stored
      && match s.codec.decode(s.stored.value)
         case Some(key) => pc == Done(key)
         case None => pc.Failed?
    else if create then pc.Failed? && stored.None?
    else stored == Some(s.codec.encode(own)) && if s.readsBack && select && again then pc.Failed? else pc == Done(own)
  }

  // One more of its own steps, and what is left after it.
  lemma First<K, B>(s: State<K, B>, p: Pid, a: Action<K>, u: State<K, B>, rest: seq<Action<K>>)
    returns (acts: seq<Action<K>>)
    requires Step(s, a) == Some(u) && a.p == p && forall b <- rest :: b.p == p
    ensures (forall b <- acts :: b.p == p) && Run(Step, s, acts) == Run(Step, u, rest)
  {
    Then(Step, s, [], a);
    Continued(Step, s, [] + [a], rest);
    acts := [] + [a] + rest;
  }

  lemma GetsAgainAlone<K(!new), B(!new)>(s: State<K, B>, p: Pid, again: bool)
    returns (acts: seq<Action<K>>, t: State<K, B>)
    requires p in s.pcs && s.pcs[p].Again?
    ensures Run(Step, s, acts) == Some(t) && (forall a <- acts :: a.p == p) && p in t.pcs && t.stored == s.stored
    ensures t.pcs[p] == if again || s.stored.None? then Failed else Decoded(s)
  {
    t := Apply(s, GetAgain(p, again));
    acts := First(s, p, GetAgain(p, again), t, []);
  }

  lemma CreatesAlone<K(!new), B(!new)>(s: State<K, B>, p: Pid, own: K, create: bool, select: bool, again: bool)
    returns (acts: seq<Action<K>>, t: State<K, B>)
    requires RoundTrips(s.codec) && p in s.pcs && s.pcs[p] == Generated(own) && s.stored.None?
    ensures Run(Step, s, acts) == Some(t) && (forall a <- acts :: a.p == p) && p in t.pcs
    ensures if create then t.pcs[p].Failed? && t.stored.None?
            else t.stored == Some(s.codec.encode(own))
                 && if s.readsBack && select && again then t.pcs[p].Failed? else t.pcs[p] == Done(own)
  {
    var u := Apply(s, Create(p, create));
    var rest := [];
    t := u;
    if u.pcs[p].Again? {
      rest, t := GetsAgainAlone(u, p, again);
    } else if u.pcs[p].ReadBack? {
      var v := Apply(u, Select(p, select));
      if select {
        rest, t := GetsAgainAlone(v, p, again);
      } else {
        t := v;
      }
      rest := First(u, p, Select(p, select), v, rest);
    }
    acts := First(s, p, Create(p, create), u, rest);
  }

  // Its steps alone are a run to exactly that.
  lemma RunsAlone<K(!new), B(!new)>(s: State<K, B>, p: Pid, own: K, get: bool, create: bool, select: bool, again: bool)
    returns (acts: seq<Action<K>>, t: State<K, B>)
    requires RoundTrips(s.codec) && p in s.pcs && s.pcs[p].Start?
    ensures Run(Step, s, acts) == Some(t) && (forall a <- acts :: a.p == p) && p in t.pcs
    ensures EndsAs(s, own, get, create, select, again, t.pcs[p], t.stored)
  {
    var u := Apply(s, Lookup(p, own, get));
    var rest := [];
    t := u;
    if !get && s.stored.None? {
      rest, t := CreatesAlone(u, p, own, create, select, again);
    }
    acts := First(s, p, Lookup(p, own, get), u, rest);
  }
}
