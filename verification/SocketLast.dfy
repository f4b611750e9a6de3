/** When the socket is closed last. */
module SocketLast {
  import opened Wrappers
  import opened Protocol
  import opened ProtocolInvariant
  import opened ErrorReport

  /** The goroutine is past connWG.Wait, no connection handed out is open and no
      Accept is about to hand one out. */
  ghost predicate ClosedForGood(s: State) {
    Reachable(s) && !s.closer.GWaiting? && !AcceptInFlight(s) && OpenConns(s.table) == {}
  }

  /** Nobody becomes open who was not, and nobody is received. */
  ghost predicate OpensNobody(s: State, t: State) {
    && |t.table| == |s.table|
    && (forall c: ConnId {:trigger t.table[c]} :: c < |s.table| ==>
          && (t.table[c].place.Received? ==> s.table[c].place.Received?)
          && (Open(t.table[c]) ==> Open(s.table[c])))
  }

  lemma ReaderOpensNobody(s: State, step: ReaderStep)
    requires SweepInv(s) && Swept(s.listener) && ReaderEnabled(s, step)
    ensures OpensNobody(s, AfterReader(s, step))
  {
  }

  lemma ListenerOpensNobody(s: State, step: ListenerStep)
    requires ListenerEnabled(s, step)
    ensures OpensNobody(s, AfterListener(s, step))
  {
  }

  lemma ConnOpensNobody(s: State, c: ConnId, step: ConnStep)
    requires c < |s.table| && ConnEnabled(s, c, step)
    ensures OpensNobody(s, AfterConn(s, c, step))
  {
  }

  lemma StepOpensNobody(s: State, step: Step)
    requires SweepInv(s) && Swept(s.listener) && !AcceptInFlight(s) && Enabled(s, step)
    ensures OpensNobody(s, After(s, step))
  {
    match step
    case Reader(r) => ReaderOpensNobody(s, r);
    case Closer(g) =>
    case Accept(a) => assert !a.AcceptReceive? && !a.AcceptAdd?;
    case Listener(l) => ListenerOpensNobody(s, l);
    case OfConn(c, k) => ConnOpensNobody(s, c, k);
  }

  lemma StaysClosed(s: State, step: Step)
    requires ClosedForGood(s) && Enabled(s, step)
    ensures ClosedForGood(After(s, step))
  {
    var t := After(s, step);
    ReachableStep(s, step, t);
    ReachableInv(s);
    StepOpensNobody(s, step);
    NobodyOpened(s, t);
    NeverWaitsAgain(s, step);
  }

  lemma NobodyOpened(s: State, t: State)
    requires OpensNobody(s, t) && !AcceptInFlight(s) && OpenConns(s.table) == {}
    ensures !AcceptInFlight(t) && OpenConns(t.table) == {}
  {
    forall c: ConnId | c < |t.table|
      ensures !Open(t.table[c])
    {
      assert c !in OpenConns(s.table);
    }
  }

  lemma NeverWaitsAgain(s: State, step: Step)
    requires Enabled(s, step) && !s.closer.GWaiting?
    ensures !After(s, step).closer.GWaiting?
  {
    if !step.Closer? {
      OthersLeaveCloser(s, step);
    }
  }

  lemma {:induction false} StaysClosedForever(s: State, steps: seq<Step>, t: State)
    requires ClosedForGood(s) && Leads(s, steps, t)
    ensures ClosedForGood(t)
    decreases |steps|
  {
    if steps != [] {
      StaysClosed(s, steps[0]);
      StaysClosedForever(After(s, steps[0]), steps[1..], t);
    }
  }

  /** In no state reachable from s is a connection handed out open. */
  ghost predicate NeverOpenAgain(s: State) {
    forall steps, t :: Leads(s, steps, t) ==> OpenConns(t.table) == {}
  }

  /** When the goroutine's connWG.Wait returns, the listener is closed and no
      connection handed out is open; and none will be in any later state exactly
      when no Accept call is then between its receive and its connWG.Add(1). */
  lemma SocketClosesLast(s: State)
    requires Reachable(s) && Enabled(s, Closer(CloserWake))
    ensures ListenerReleased(s.listener) && OpenConns(s.table) == {}
    ensures NeverOpenAgain(After(s, Closer(CloserWake))) <==> !AcceptInFlight(s)
  {
    ReachableInv(s);
    var w := After(s, Closer(CloserWake));
    if AcceptInFlight(s) {
      var c: ConnId :| c < |s.table| && s.table[c].place.Received?;
      var t := After(w, Accept(AcceptAdd(c)));
      assert Leads(w, [Accept(AcceptAdd(c))], t);
      assert c in OpenConns(t.table);
    } else {
      ReachableStep(s, Closer(CloserWake), w);
      forall steps, t | Leads(w, steps, t)
        ensures OpenConns(t.table) == {}
      {
        StaysClosedForever(w, steps, t);
      }
    }
  }

  /** That window exists: the socket is closed, and then the Accept call whose
      connection was in its hands all the while returns it open. */
  lemma SocketClosesUnderAccept(p: Packet) returns (s: State, t: State)
    requires p.admitted
    ensures Reachable(s) && Enabled(s, Closer(CloserWake)) && AcceptInFlight(s)
    ensures CanReach(s, t) && !t.socketOpen && OpenConns(t.table) == {0}
  {
    s := AcceptInFlightHidesTheError(p);
    CanReachItself(s);
    var s1 := s.(closer := GClosing);
    CanReachStep(s, s, Closer(CloserWake), s1);
    var s2 := s.(closer := GStoring, socketOpen := false, closeResult := None);
    CanReachStep(s, s1, Closer(CloserClose(None)), s2);
    t := s2.(connWG := 1, table := [Conn(p.addr, HandedOut, CNotCalled, 0, 0)]);
    CanReachStep(s, s2, Accept(AcceptAdd(0)), t);
  }

  // ---- with Accept as one step ---------------------------------------------

  /** Every Accept runs its connWG.Add(1) at once after its receive. */
  ghost predicate AtomicAccept(steps: seq<Step>) {
    forall i: nat :: i < |steps| && steps[i] == Accept(AcceptReceive) ==>
      i + 1 < |steps| && steps[i + 1].Accept? && steps[i + 1].a.AcceptAdd?
  }

  /** No Accept is half-way, and past the goroutine's Wait nothing is open. */
  ghost predicate Settled(s: State) {
    Reachable(s) && !AcceptInFlight(s) && (s.closer.GWaiting? || OpenConns(s.table) == {})
  }

  /** An atomic Accept runs its Add on a positive counter, so before the
      goroutine's Wait can return. */
  lemma AcceptSettles(s: State, c: ConnId)
    requires Settled(s) && Enabled(s, Accept(AcceptReceive))
    requires Enabled(After(s, Accept(AcceptReceive)), Accept(AcceptAdd(c)))
    ensures Settled(After(After(s, Accept(AcceptReceive)), Accept(AcceptAdd(c))))
    ensures After(s, Accept(AcceptReceive)).connWG >= 1
  {
    var m := After(s, Accept(AcceptReceive));
    var t := After(m, Accept(AcceptAdd(c)));
    ReachableStep(s, Accept(AcceptReceive), m);
    ReachableStep(m, Accept(AcceptAdd(c)), t);
    ReachableInv(s);
    ReachableInv(m);
    assert !s.table[c].place.Received?;
    assert c == s.acceptCh[0];
    forall d: ConnId | d < |t.table|
      ensures !t.table[d].place.Received?
    {
      assert d != c ==> t.table[d] == s.table[d];
    }
  }

  lemma OtherStepSettles(s: State, step: Step)
    requires Settled(s) && Enabled(s, step) && step != Accept(AcceptReceive)
    ensures Settled(After(s, step))
  {
    if !s.closer.GWaiting? {
      StaysClosed(s, step);
    } else {
      ReachableStep(s, step, After(s, step));
      ReachableInv(s);
      NobodyReceived(s, step);
      WakesWhenClosed(s, step);
    }
  }

  lemma WakesWhenClosed(s: State, step: Step)
    requires WaitGroupInv(s) && s.closer.GWaiting? && Enabled(s, step)
    ensures After(s, step).closer.GWaiting? || OpenConns(After(s, step).table) == {}
  {
    if step.Closer? {
      assert s.connWG == 0 ==> OpenConns(s.table) == {};
    } else {
      OthersLeaveCloser(s, step);
    }
  }

  lemma NobodyReceived(s: State, step: Step)
    requires !AcceptInFlight(s) && Enabled(s, step) && step != Accept(AcceptReceive)
    ensures !AcceptInFlight(After(s, step))
  {
    match step
    case Reader(r) =>
    case Closer(g) =>
    case Accept(a) =>
    case Listener(l) => ListenerOpensNobody(s, l);
    case OfConn(c, k) => ConnOpensNobody(s, c, k);
  }

  lemma {:induction false} AtomicRunSettles(s: State, steps: seq<Step>, t: State)
    requires Settled(s) && AtomicAccept(steps) && Leads(s, steps, t)
    ensures Settled(t)
    decreases |steps|
  {
    if steps != [] {
      var m := After(s, steps[0]);
      if steps[0] == Accept(AcceptReceive) {
        AcceptSettles(s, steps[1].a.c);
        assert steps[2..] == steps[1..][1..];
        AtomicRunSettles(After(m, steps[1]), steps[2..], t);
      } else {
        OtherStepSettles(s, steps[0]);
        AtomicRunSettles(m, steps[1..], t);
      }
    }
  }

  /** With Accept as one step: once the goroutine goes on to close the socket the
      listener is closed and no connection handed out is open, in that and any
      later state; and no Accept adds to a wait group that has reached zero. */
  lemma AtomicAcceptClosesLast(s: State, steps: seq<Step>, t: State)
    requires Init(s) && AtomicAccept(steps) && Leads(s, steps, t)
    ensures !t.closer.GWaiting? ==> ListenerReleased(t.listener) && OpenConns(t.table) == {}
    ensures Enabled(t, Accept(AcceptReceive)) ==> t.connWG >= 1
  {
    assert Leads(s, [], s);
    AtomicRunSettles(s, steps, t);
    ReachableInv(t);
  }

  /** And an error from closing the socket is reported without exception. */
  lemma AtomicAcceptReports(s: State, steps: seq<Step>, t: State)
    requires Init(s) && AtomicAccept(steps) && Leads(s, steps, t) && AllClosed(t)
    ensures Reported(t)
    ensures forall x :: Closer(CloserClose(Some(x))) in steps ==> ReturnedBySomebody(t, x)
  {
    assert Leads(s, [], s);
    AtomicRunSettles(s, steps, t);
    CloseErrorIsReported(t);
    forall x | Closer(CloserClose(Some(x))) in steps
      ensures ReturnedBySomebody(t, x)
    {
      SocketErrorIsReturned(s, steps, t, x);
    }
  }
}
