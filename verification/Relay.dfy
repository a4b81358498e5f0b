/**
The two-way relay between an agent's tunnel channel and the local connection (internal/agent/proxy.go): two copy
loops, each closing the side it wrote to, joined by a channel. Bytes are counted by their values, in order.
 */
module Relay {
  import opened Wrappers
  import opened Runs

  type Bytes = seq<bv8>

  // The two copies, named by where they read from: FromA writes to b.
  datatype Copy = FromA | FromB

  datatype Place = Copying | Ended | Closed | Signalled

  // One direction. `sent` is all its source's peer ever sent, `delivered` all its destination got; `held` is what the
  // copy has read and not yet written. eof: the peer is done sending.
  datatype Direction = Direction(sent: Bytes, unread: Bytes, eof: bool, held: Bytes, delivered: Bytes, place: Place)

  // Whether an end can close its write side alone; and whether it was closed for both reading and writing.
  datatype End = End(halfCloser: bool, writeClosed: bool, closed: bool)

  // `done` counts what is in the channel and was ever put there, `received` what relay took out.
  datatype State = State(a: End, b: End, fromA: Direction, fromB: Direction, done: nat, received: nat)

  datatype Action =
    | Arrive(copy: Copy, data: Bytes)   // the peer sends
    | PeerEOF(copy: Copy)
    | Read(copy: Copy, n: nat)
    | Write(copy: Copy)
    | EndCopy(copy: Copy)               // io.Copy returns at EOF
    | ReadFails(copy: Copy)             // io.Copy returns on an error
    | WriteFails(copy: Copy, n: nat)    // after n bytes
    | CloseDestination(copy: Copy)
    | Signal(copy: Copy)
    | Receive

  function Of(s: State, c: Copy): Direction {
    if c.FromA? then s.fromA else s.fromB
  }

  function Source(s: State, c: Copy): End {
    if c.FromA? then s.a else s.b
  }

  function Destination(s: State, c: Copy): End {
    if c.FromA? then s.b else s.a
  }

  function With(s: State, c: Copy, d: Direction): State {
    if c.FromA? then s.(fromA := d) else s.(fromB := d)
  }

  function WithDestination(s: State, c: Copy, e: End): State {
    if c.FromA? then s.(b := e) else s.(a := e)
  }

  // CloseWrite where there is one, and Close otherwise.
  function CloseEnd(e: End): End {
    if e.halfCloser then e.(writeClosed := true) else e.(writeClosed := true, closed := true)
  }

  function Step(s: State, act: Action): Option<State> {
    match act
    case Arrive(c, data) =>
      var d := Of(s, c);
      if d.eof then None else Some(With(s, c, d.(sent := d.sent + data, unread := d.unread + data)))
    case PeerEOF(c) => Some(With(s, c, Of(s, c).(eof := true)))
    case Read(c, n) =>
      var d := Of(s, c);
      if d.place != Copying || d.held != [] || Source(s, c).closed || !(0 < n <= |d.unread|) then None
      else Some(With(s, c, d.(held := d.unread[..n], unread := d.unread[n..])))
    case Write(c) =>
      var d := Of(s, c);
      if d.place != Copying || d.held == [] || Destination(s, c).closed then None
      else Some(With(s, c, d.(delivered := d.delivered + d.held, held := [])))
    case EndCopy(c) =>
      var d := Of(s, c);
      if d.place != Copying || d.held != [] || d.unread != [] || !d.eof || Source(s, c).closed then None
      else Some(With(s, c, d.(place := Ended)))
    case ReadFails(c) =>
      var d := Of(s, c);
      if d.place != Copying || d.held != [] then None else Some(With(s, c, d.(place := Ended)))
    case WriteFails(c, n) =>
      var d := Of(s, c);
      if d.place != Copying || d.held == [] || n > |d.held| then None
      else Some(With(s, c, d.(delivered := d.delivered + d.held[..n], held := d.held[n..], place := Ended)))
    case CloseDestination(c) =>
      if Of(s, c).place != Ended then None
      else Some(WithDestination(With(s, c, Of(s, c).(place := Closed)), c, CloseEnd(Destination(s, c))))
    case Signal(c) =>
      if Of(s, c).place != Closed then None
      else Some(With(s, c, Of(s, c).(place := Signalled)).(done := s.done + 1))
    case Receive =>
      if s.received == s.done || s.received == 2 then None else Some(s.(received := s.received + 1))
  }

  // relay has returned.
  predicate Returned(s: State) {
    s.received == 2
  }

  predicate Fresh(d: Direction) {
    d.sent == d.unread && d.held == [] && d.delivered == [] && d.place == Copying
  }

  predicate Open(e: End) {
    !e.writeClosed && !e.closed
  }

  predicate Init(s: State) {
    Fresh(s.fromA) && Fresh(s.fromB) && Open(s.a) && Open(s.b) && s.done == 0 && s.received == 0
  }

  // ---- What every step keeps ----

  // Nothing is lost, doubled or reordered: what was sent is what was delivered, what is in flight, and what is unread.
  predicate Conserved(d: Direction) {
    d.sent == d.delivered + d.held + d.unread
  }

  // An end is closed for writing once the copy to it has ended and closed it, not before, and for reading with that
  // just where it cannot be half closed.
  predicate ClosedInTurn(s: State, c: Copy) {
    var e := Destination(s, c);
    && (e.writeClosed <==> Of(s, c).place.Closed? || Of(s, c).place.Signalled?)
    && (e.closed <==> e.writeClosed && !e.halfCloser)
  }

  function Signals(d: Direction): nat {
    if d.place.Signalled? then 1 else 0
  }

  predicate Inv(s: State) {
    && Conserved(s.fromA) && Conserved(s.fromB)
    && ClosedInTurn(s, FromA) && ClosedInTurn(s, FromB)
    && s.done == Signals(s.fromA) + Signals(s.fromB) && s.received <= s.done
  }

  lemma ArriveConserves(d: Direction, data: Bytes)
    requires Conserved(d)
    ensures Conserved(d.(sent := d.sent + data, unread := d.unread + data))
  {
    assert d.sent + data == d.delivered + d.held + (d.unread + data);
  }

  lemma ReadConserves(d: Direction, n: nat)
    requires Conserved(d) && d.held == [] && n <= |d.unread|
    ensures Conserved(d.(held := d.unread[..n], unread := d.unread[n..]))
  {
    assert d.sent == d.delivered + d.unread[..n] + d.unread[n..];
  }

  lemma WriteConserves(d: Direction, n: nat)
    requires Conserved(d) && n <= |d.held|
    ensures Conserved(d.(delivered := d.delivered + d.held[..n], held := d.held[n..]))
  {
    assert d.sent == d.delivered + d.held[..n] + d.held[n..] + d.unread;
  }

  lemma StepKeepsConserved(s: State, act: Action, c: Copy)
    requires Conserved(Of(s, c)) && Step(s, act).Some?
    ensures Conserved(Of(Step(s, act).value, c))
  {
    var d := Of(s, c);
    match act
    case Arrive(k, data) => ArriveConserves(d, data);
    case Read(k, n) =>
      if k == c {
        ReadConserves(d, n);
      }
    case Write(k) =>
      if k == c {
        WriteConserves(d, |d.held|);
        assert d.held[..|d.held|] == d.held && d.held[|d.held|..] == [];
      }
    case WriteFails(k, n) =>
      if k == c {
        WriteConserves(d, n);
      }
    case _ =>
  }

  lemma StepKeepsClosed(s: State, act: Action, c: Copy)
    requires ClosedInTurn(s, c) && Step(s, act).Some?
    ensures ClosedInTurn(Step(s, act).value, c)
  {
  }

  lemma StepKeepsCount(s: State, act: Action)
    requires s.done == Signals(s.fromA) + Signals(s.fromB) && s.received <= s.done && Step(s, act).Some?
    ensures var t := Step(s, act).value; t.done == Signals(t.fromA) + Signals(t.fromB) && t.received <= t.done
  {
  }

  lemma StepKeeps(s: State, act: Action)
    requires Inv(s) && Step(s, act).Some?
    ensures Inv(Step(s, act).value)
  {
    StepKeepsConserved(s, act, FromA);
    StepKeepsConserved(s, act, FromB);
    StepKeepsClosed(s, act, FromA);
    StepKeepsClosed(s, act, FromB);
    StepKeepsCount(s, act);
  }

  lemma StepKeepsEnds(s: State, act: Action)
    requires Step(s, act).Some?
    ensures Step(s, act).value.a.halfCloser == s.a.halfCloser && Step(s, act).value.b.halfCloser == s.b.halfCloser
  {
  }

  // In every interleaving of the two loops, in each direction; and the relay returns only when both have closed
  // their ends.
  lemma {:induction false} RelayConserves(s: State, acts: seq<Action>)
    requires Init(s) && Run(Step, s, acts).Some?
    ensures var t := Run(Step, s, acts).value;
            && Inv(t) && t.a.halfCloser == s.a.halfCloser && t.b.halfCloser == s.b.halfCloser
            && (Returned(t) ==> t.fromA.place.Signalled? && t.fromB.place.Signalled?)
  {
    var inv := (t: State) => Inv(t) && t.a.halfCloser == s.a.halfCloser && t.b.halfCloser == s.b.halfCloser;
    forall t, act | inv(t) && Step(t, act).Some? ensures inv(Step(t, act).value) {
      StepKeeps(t, act);
      StepKeepsEnds(t, act);
    }
    Invariant(Step, inv, s, acts);
  }

  // And once both have, nothing more is waited for.
  lemma ReturnsOnceBothAreDone(s: State) returns (acts: seq<Action>)
    requires Inv(s) && s.fromA.place.Signalled? && s.fromB.place.Signalled?
    ensures |acts| + s.received == 2 && forall act <- acts :: act == Receive
    ensures Run(Step, s, acts) == Some(s.(received := 2))
  {
    BothSignalled(s);
    acts := [];
    var t := s;
    while t.received < 2
      invariant Run(Step, s, acts) == Some(t) && t == s.(received := t.received) && t.received <= 2
      invariant |acts| + s.received == t.received && forall act <- acts :: act == Receive
    {
      OneReceived(t);
      Then(Step, s, acts, Receive);
      acts := acts + [Receive];
      t := t.(received := t.received + 1);
    }
  }

  lemma BothSignalled(s: State)
    requires Inv(s) && s.fromA.place.Signalled? && s.fromB.place.Signalled?
    ensures s.done == 2 && s.received <= 2
  {
  }

  lemma OneReceived(s: State)
    requires s.received < s.done && s.received < 2
    ensures Step(s, Receive) == Some(s.(received := s.received + 1))
  {
  }

  // ---- It can always return ----

  function Other(c: Copy): Copy {
    if c.FromA? then FromB else FromA
  }

  // What a copy may do next, towards its end: its read or write may fail at any time, then it closes its destination
  // and signals.
  function Ending(s: State, c: Copy): Action {
    match Of(s, c).place
    case Copying => if Of(s, c).held == [] then ReadFails(c) else WriteFails(c, 0)
    case Ended => CloseDestination(c)
    case _ => Signal(c)
  }

  function ToGo(d: Direction): nat {
    match d.place
    case Copying => 3
    case Ended => 2
    case Closed => 1
    case Signalled => 0
  }

  lemma OneNearer(s: State, c: Copy) returns (t: State)
    requires !Of(s, c).place.Signalled?
    ensures Step(s, Ending(s, c)) == Some(t) && ToGo(Of(t, c)) < ToGo(Of(s, c))
    ensures Of(t, Other(c)) == Of(s, Other(c))
  {
    t := Step(s, Ending(s, c)).value;
  }

  lemma CopyCanEnd(s: State, c: Copy) returns (acts: seq<Action>, t: State)
    requires Inv(s)
    ensures Run(Step, s, acts) == Some(t) && Inv(t) && Of(t, c).place.Signalled?
    ensures Of(t, Other(c)) == Of(s, Other(c))
    decreases ToGo(Of(s, c))
  {
    if Of(s, c).place.Signalled? {
      return [], s;
    }
    var u := OneNearer(s, c);
    StepKeeps(s, Ending(s, c));
    var rest;
    rest, t := CopyCanEnd(u, c);
    Then(Step, s, [], Ending(s, c));
    Continued(Step, s, [] + [Ending(s, c)], rest);
    acts := [] + [Ending(s, c)] + rest;
  }

  // So from every reachable state the relay can come to return: it never waits for what cannot come.
  lemma {:induction false} CanReturn(s: State, acts: seq<Action>) returns (more: seq<Action>)
    requires Init(s) && Run(Step, s, acts).Some?
    ensures Run(Step, s, acts + more).Some? && Returned(Run(Step, s, acts + more).value)
  {
    RelayConserves(s, acts);
    var t := Run(Step, s, acts).value;
    var a, u := CopyCanEnd(t, FromA);
    var b, v := CopyCanEnd(u, FromB);
    var c := ReturnsOnceBothAreDone(v);
    Continued(Step, t, a, b);
    Continued(Step, t, a + b, c);
    more := a + b + c;
    Continued(Step, s, acts, more);
  }

  // ---- Truncation ----

  // The copy c, where nothing fails but what reading from or writing to a closed end makes fail.
  function FaultFreeStep(c: Copy): (State, Action) -> Option<State> {
    (s: State, act: Action) =>
      if (act.ReadFails? && act.copy == c && !Source(s, c).closed)
         || (act.WriteFails? && act.copy == c && !Destination(s, c).closed)
      then None else Step(s, act)
  }

  // All that was sent got through by the time the copy ended.
  predicate Whole(d: Direction) {
    !d.place.Copying? ==> d.eof && d.delivered == d.sent
  }

  // A direction is never truncated by the closing of the other, when the end it reads from can be half closed.
  lemma {:induction false} HalfCloseTruncatesNothing(s: State, acts: seq<Action>, c: Copy)
    requires Init(s) && (if c.FromA? then s.a else s.b).halfCloser && Run(FaultFreeStep(c), s, acts).Some?
    ensures Whole(Of(Run(FaultFreeStep(c), s, acts).value, c))
  {
    var step := FaultFreeStep(c);
    var inv := (t: State) =>
      Inv(t) && Source(t, c).halfCloser && Whole(Of(t, c)) && (Of(t, c).place.Copying? || Of(t, c).held == []);
    forall t, act | inv(t) && step(t, act).Some? ensures inv(step(t, act).value) {
      StepKeeps(t, act);
      WholeKept(t, act, c);
    }
    Invariant(step, inv, s, acts);
  }

  lemma WholeKept(t: State, act: Action, c: Copy)
    requires Inv(t) && Source(t, c).halfCloser && Whole(Of(t, c)) && (Of(t, c).place.Copying? || Of(t, c).held == [])
    requires FaultFreeStep(c)(t, act).Some?
    ensures var u := FaultFreeStep(c)(t, act).value;
            Source(u, c).halfCloser && Whole(Of(u, c)) && (Of(u, c).place.Copying? || Of(u, c).held == [])
  {
    assert ClosedInTurn(t, FromA) && ClosedInTurn(t, FromB);
    if act.EndCopy? && act.copy == c {
      var d := Of(t, c);
      assert d.delivered + d.held + d.unread == d.delivered;
    }
  }

  // When it cannot, it is: the other copy ends first, closes the end outright, and what the peer sent next is lost.
  lemma FullCloseTruncates(s: State, data: Bytes) returns (acts: seq<Action>)
    requires Init(s) && !s.b.halfCloser && s.fromA.unread == [] && s.fromB.unread == [] && !s.fromB.eof && data != []
    ensures Run(FaultFreeStep(FromB), s, acts).Some?
    ensures !Whole(Run(FaultFreeStep(FromB), s, acts).value.fromB)
  {
    acts := FullClose(s);
    var step, t := FaultFreeStep(FromB), Run(FaultFreeStep(FromB), s, acts).value;
    Then(step, s, acts, Arrive(FromB, data));
    acts := acts + [Arrive(FromB, data)];
    var u := Run(step, s, acts).value;
    assert u.fromB == t.fromB.(sent := data, unread := data) && u.b.closed;
    Then(step, s, acts, ReadFails(FromB));
    acts := acts + [ReadFails(FromB)];
  }

  // The copy from a ends at once, and closes b outright.
  lemma FullClose(s: State) returns (acts: seq<Action>)
    requires Init(s) && !s.b.halfCloser && s.fromA.unread == []
    ensures Run(FaultFreeStep(FromB), s, acts).Some?
    ensures var t := Run(FaultFreeStep(FromB), s, acts).value; t.b.closed && t.fromB == s.fromB
  {
    var step := FaultFreeStep(FromB);
    Then(step, s, [], PeerEOF(FromA));
    acts := [] + [PeerEOF(FromA)];
    Then(step, s, acts, EndCopy(FromA));
    acts := acts + [EndCopy(FromA)];
    Then(step, s, acts, CloseDestination(FromA));
    acts := acts + [CloseDestination(FromA)];
  }

  // What a read of n bytes and the write of them come to.
  lemma ReadThenWrite(s: State, c: Copy, n: nat)
    requires Of(s, c).place.Copying? && Of(s, c).held == [] && 0 < n <= |Of(s, c).unread|
    requires !Source(s, c).closed && !Destination(s, c).closed
    ensures Step(s, Read(c, n)).Some? && Step(Step(s, Read(c, n)).value, Write(c)).Some?
    ensures var d, u := Of(s, c), Step(Step(s, Read(c, n)).value, Write(c)).value;
            var e := Of(u, c);
            && u == With(s, c, d.(unread := e.unread, delivered := e.delivered))
            && |e.unread| < |d.unread| && e.delivered + e.unread == d.delivered + d.unread
  {
    var d := Of(s, c);
    var t := Step(s, Read(c, n)).value;
    assert t == With(s, c, d.(held := d.unread[..n], unread := d.unread[n..]));
    var u := Step(t, Write(c)).value;
    assert u == With(s, c, d.(unread := d.unread[n..], delivered := d.delivered + d.unread[..n]));
    assert d.delivered + d.unread == d.delivered + d.unread[..n] + d.unread[n..];
  }

  // ---- One copy, as its loop ----

  class Relaying {
    var state: State

    constructor (halfCloserA: bool, halfCloserB: bool)
      ensures Init(state) && state.a.halfCloser == halfCloserA && state.b.halfCloser == halfCloserB
    {
      var quiet := Direction([], [], false, [], [], Copying);
      state := State(End(halfCloserA, false, false), End(halfCloserB, false, false), quiet, quiet, 0, 0);
    }

    // One action of this copy, taken where it can be.
    method Take(act: Action, ghost was: State, ghost taken: seq<Action>) returns (ghost acts: seq<Action>)
      requires Run(Step, was, taken) == Some(state) && Step(state, act).Some?
      modifies this
      ensures acts == taken + [act] && Run(Step, was, acts) == Some(state) && Some(state) == Step(old(state), act)
    {
      Then(Step, was, taken, act);
      acts := taken + [act];
      state := Step(state, act).value;
    }

    // One read, and the write of all of it.
    method CopyChunk(c: Copy, ghost was: State, ghost taken: seq<Action>) returns (ghost acts: seq<Action>)
      requires Run(Step, was, taken) == Some(state)
      requires Of(state, c).place.Copying? && Of(state, c).held == [] && Of(state, c).unread != []
      requires !Source(state, c).closed && !Destination(state, c).closed
      modifies this
      ensures Run(Step, was, acts) == Some(state)
      ensures var d, e := old(Of(state, c)), Of(state, c);
              && state == With(old(state), c, d.(unread := e.unread, delivered := e.delivered))
              && |e.unread| < |d.unread| && e.delivered + e.unread == d.delivered + d.unread
    {
      var n :| 0 < n <= |Of(state, c).unread|;
      ReadThenWrite(state, c, n);
      acts := Take(Read(c, n), was, taken);
      acts := Take(Write(c), was, acts);
    }

    method CloseAndSignal(c: Copy, ghost was: State, ghost taken: seq<Action>) returns (ghost acts: seq<Action>)
      requires Run(Step, was, taken) == Some(state) && Of(state, c).place.Ended?
      modifies this
      ensures Run(Step, was, acts) == Some(state)
      ensures state == WithDestination(With(old(state), c, old(Of(state, c)).(place := Signalled)), c,
                                       CloseEnd(old(Destination(state, c)))).(done := old(state).done + 1)
    {
      acts := Take(CloseDestination(c), was, taken);
      acts := Take(Signal(c), was, acts);
    }

    // copyHalf, left alone with all its source will ever send, and failing at nothing: a run of the steps above, after
    // which all that was sent is delivered, the destination closed and the end of the copy signalled.
    method CopyHalf(c: Copy) returns (ghost acts: seq<Action>)
      requires Conserved(Of(state, c)) && Of(state, c).place.Copying? && Of(state, c).held == [] && Of(state, c).eof
      requires !Source(state, c).closed && !Destination(state, c).closed
      modifies this
      ensures Run(Step, old(state), acts) == Some(state)
      ensures var d := old(Of(state, c));
              var t := With(old(state), c, d.(unread := [], delivered := d.sent, place := Signalled));
              state == WithDestination(t, c, CloseEnd(old(Destination(state, c)))).(done := old(state).done + 1)
      ensures var e := old(Destination(state, c));
              Destination(state, c) == End(e.halfCloser, true, !e.halfCloser)
    {
      acts := [];
      ghost var was, d := state, Of(state, c);
      while Of(state, c).unread != []
        invariant Run(Step, was, acts) == Some(state)
        invariant state == With(was, c, d.(unread := Of(state, c).unread, delivered := Of(state, c).delivered))
        invariant Of(state, c).delivered + Of(state, c).unread == d.sent
        decreases |Of(state, c).unread|
      {
        acts := CopyChunk(c, was, acts);
      }
      acts := Take(EndCopy(c), was, acts);
      acts := CloseAndSignal(c, was, acts);
    }
  }
}
