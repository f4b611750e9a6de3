/** An error from closing the socket reaches at least one caller of Close. */
module ErrorReport {
  import opened Wrappers
  import opened Protocol
  import opened ProtocolInvariant

  /** The listener's Close and the Close of every connection handed out have run
      to their end. */
  ghost predicate AllClosed(s: State) {
    && s.listener.LFinished?
    && (forall c: ConnId :: c < |s.table| && s.table[c].place.HandedOut? ==> s.table[c].closing.CFinished?)
  }

  /** Some Accept call has received a connection and not yet returned it. */
  ghost predicate AcceptInFlight(s: State) {
    exists c: ConnId :: c < |s.table| && s.table[c].place.Received?
  }

  /** A finished Conn.Close that waited for the socket-closing goroutine and
      returned what it left, the queue's error if that was nothing. */
  predicate ConnReports(s: State, k: Conn) {
    k.closing.CFinished? && k.closing.waited && (s.closeResult.Some? ==> k.closing.err == s.closeResult)
  }

  /** Some finished Close waited for the socket to be closed and returns the
      error, if there was one. */
  ghost predicate Reported(s: State) {
    && s.closer.GDone?
    && !s.socketOpen
    && (|| (s.listener.LFinished? && s.listener.waited && s.listener.err == s.closeResult)
        || exists c: ConnId :: c < |s.table| && ConnReports(s, s.table[c]))
  }

  /** Whatever the order of the locked sections, once everybody's Close is over
      the socket's error was reported, unless an Accept call is still on its way
      with a connection in the map. */
  lemma CloseErrorIsReported(s: State)
    requires Reachable(s) && AllClosed(s)
    ensures Reported(s) || AcceptInFlight(s)
  {
    ReachableInv(s);
    if |s.conns| > 0 {
      var a :| a in s.conns;
      var k := s.table[s.conns[a]];
      assert !k.place.Queued?;
      assert k.place.Received?;
    } else if !ListenerWillWait(s.listener) {
      var c: ConnId :| c < |s.table| && ConnWillWait(s.table[c].closing);
      assert ConnReports(s, s.table[c]);
    }
  }

  // ---- the error is the socket's -------------------------------------------

  /** pConn.Close has not yet returned. */
  predicate BeforeClose(s: State) {
    s.closer.GWaiting? || s.closer.GClosing?
  }

  /** Once it has, it is not called again and nobody changes what it returned. */
  lemma {:induction false} ResultStays(s: State, steps: seq<Step>, t: State, e: Option<Error>)
    requires Leads(s, steps, t) && !BeforeClose(s)
    ensures !BeforeClose(t) && t.closeResult == s.closeResult && Closer(CloserClose(e)) !in steps
    decreases |steps|
  {
    if steps != [] {
      if !steps[0].Closer? {
        OthersLeaveCloser(s, steps[0]);
      }
      ResultStays(After(s, steps[0]), steps[1..], t, e);
    }
  }

  lemma {:induction false} ResultIsReturned(s: State, steps: seq<Step>, t: State, e: Option<Error>)
    requires Leads(s, steps, t) && BeforeClose(s)
    ensures Closer(CloserClose(e)) in steps <==> !BeforeClose(t) && t.closeResult == e
    decreases |steps|
  {
    if steps != [] {
      var m := After(s, steps[0]);
      if !steps[0].Closer? {
        OthersLeaveCloser(s, steps[0]);
      }
      if BeforeClose(m) {
        ResultIsReturned(m, steps[1..], t, e);
      } else {
        ResultStays(m, steps[1..], t, e);
      }
    }
  }

  /** In every run, closeResult is what the one call of pConn.Close returned. */
  lemma CloseResultIsTheSockets(s: State, steps: seq<Step>, t: State, e: Option<Error>)
    requires Init(s) && Leads(s, steps, t)
    ensures Closer(CloserClose(e)) in steps <==> !t.socketOpen && t.closeResult == e
  {
    ResultIsReturned(s, steps, t, e);
    assert Reachable(t);
    ReachableInv(t);
  }

  /** Some finished Close has returned the error x. */
  ghost predicate ReturnedBySomebody(t: State, x: Error) {
    || (t.listener.LFinished? && t.listener.err == Some(x))
    || exists c: ConnId :: c < |t.table| && t.table[c].closing.CFinished? && t.table[c].closing.err == Some(x)
  }

  /** What Reported says in terms of the run: the socket was closed, and if that
      returned an error some Close has returned it. */
  lemma ReportedMeans(s: State, steps: seq<Step>, t: State) returns (e: Option<Error>)
    requires Init(s) && Leads(s, steps, t) && Reported(t)
    ensures Closer(CloserClose(e)) in steps && (e.Some? ==> ReturnedBySomebody(t, e.value))
  {
    e := t.closeResult;
    CloseResultIsTheSockets(s, steps, t, e);
    if e.Some? && !(t.listener.LFinished? && t.listener.waited && t.listener.err == t.closeResult) {
      var c: ConnId :| c < |t.table| && ConnReports(t, t.table[c]);
      assert t.table[c].closing.err == Some(e.value);
    }
  }

  /** If closing the socket returns an error then, once everybody's Close is over
      and no Accept is half-way, some Close has returned that very error. */
  lemma SocketErrorIsReturned(s: State, steps: seq<Step>, t: State, x: Error)
    requires Init(s) && Leads(s, steps, t) && Closer(CloserClose(Some(x))) in steps
    requires AllClosed(t) && !AcceptInFlight(t)
    ensures ReturnedBySomebody(t, x)
  {
    assert Reachable(t);
    CloseErrorIsReported(t);
    var e := ReportedMeans(s, steps, t);
    CloseResultIsTheSockets(s, steps, t, Some(x));
    CloseResultIsTheSockets(s, steps, t, e);
  }

  // ---- why the Accept in flight has to be excepted -------------------------

  /** wrapConn's state, with the smallest backlog. */
  ghost function Fresh(): (s: State)
    ensures Init(s)
  {
    State(1, Free, true, 0, [], map[], 1, 2, false, true, None, None,
          RReading, GWaiting, LNotCalled, [], 0, 0, [], [])
  }

  /** The state after one admitted packet of a new remote was dispatched. */
  ghost function OneQueued(p: Packet): State {
    Fresh().(acceptCh := [0], sent := [0], conns := map[p.addr := 0],
             table := [Conn(p.addr, Queued, CNotCalled, 0, 0)])
  }

  lemma FirstPacketMisses(p: Packet)
    requires p.admitted
    ensures Reachable(Fresh().(lock := ByReader, reader := RCreating(p)))
  {
    var s := Fresh();
    assert Leads(s, [], s);
    var s1 := s.(reader := RDispatching(p));
    ReachableReader(s, Deliver(p), s1);
    var s2 := s.(lock := ByReader, reader := RLocked(p));
    ReachableReader(s1, ReaderLock, s2);
    FirstPacketCreates(s2, p);
  }

  lemma FirstPacketCreates(s2: State, p: Packet)
    requires Reachable(s2) && s2.reader == RLocked(p) && s2.conns == map[] && s2.accepting && p.admitted
    ensures Reachable(s2.(reader := RCreating(p)))
  {
    var s3 := s2.(reader := RMissed(p));
    ReachableReader(s2, ReaderLookup, s3);
    var s4 := s2.(reader := RAccepting(p));
    ReachableReader(s3, ReaderLoad, s4);
    ReachableReader(s4, ReaderFilter, s2.(reader := RCreating(p)));
  }

  lemma FirstPacketQueued(p: Packet)
    requires p.admitted
    ensures Reachable(OneQueued(p))
  {
    FirstPacketMisses(p);
    var s := Fresh().(lock := ByReader, reader := RCreating(p));
    var s1 := s.(acceptCh := [0], sent := [0], table := [Conn(p.addr, Queued, CNotCalled, 0, 0)],
                 reader := RSent(p, 0));
    ReachableReader(s, ReaderSend, s1);
    var s2 := s1.(conns := map[p.addr := 0], reader := RUnlocking(p, Some(0)));
    ReachableReader(s1, ReaderInsert, s2);
    var s3 := s2.(lock := Free, reader := RPushing(p, 0));
    ReachableReader(s2, ReaderUnlock, s3);
    ReachableReader(s3, ReaderPush, OneQueued(p));
  }

  /** An Accept call has received that connection and the listener's Close is
      about to count. */
  lemma CloseOvertakesAccept(p: Packet) returns (s: State)
    requires p.admitted
    ensures Reachable(s)
    ensures s == OneQueued(p).(acceptCh := [], taken := [0], table := [Conn(p.addr, Received, CNotCalled, 0, 0)],
                               accepting := false, doneCloses := 1, lock := ByListener, listener := LDraining)
  {
    FirstPacketQueued(p);
    var s0 := OneQueued(p);
    var s1 := s0.(acceptors := 1);
    ReachableStep(s0, Accept(AcceptCall), s1);
    var s2 := s0.(acceptCh := [], taken := [0], table := [Conn(p.addr, Received, CNotCalled, 0, 0)]);
    ReachableStep(s1, Accept(AcceptReceive), s2);
    var s3 := s2.(listener := LEntered);
    ReachableListener(s2, ListenerCall, s3);
    var s4 := s2.(listener := LRefusing, accepting := false);
    ReachableListener(s3, ListenerRefuse, s4);
    var s5 := s4.(listener := LAnnounced, doneCloses := 1);
    ReachableListener(s4, ListenerAnnounce, s5);
    s := s5.(listener := LDraining, lock := ByListener);
    ReachableListener(s5, ListenerLock, s);
  }

  /** A listener Close that runs while an Accept is between its receive and its
      connWG.Add(1) counts that connection, does not wait, and returns nil: all
      calls of Close are over and nobody has waited. */
  lemma AcceptInFlightHidesTheError(p: Packet) returns (s: State)
    requires p.admitted
    ensures Reachable(s) && AllClosed(s) && !Reported(s) && AcceptInFlight(s)
    ensures s.closer.GWaiting? && s.connWG == 0 && s.socketOpen
    ensures s.table == [Conn(p.addr, Received, CNotCalled, 0, 0)]
  {
    var s0 := CloseOvertakesAccept(p);
    var s1 := s0.(listener := LCounted(1));
    assert |s0.conns| == 1;
    ReachableListener(s0, ListenerCount, s1);
    var s2 := s0.(listener := LUnlocked(1), lock := Free);
    ReachableListener(s1, ListenerUnlock, s2);
    var s3 := s2.(listener := LReleased(1), connWG := 0);
    ReachableListener(s2, ListenerRelease, s3);
    s := s3.(listener := LFinished(false, None));
    ReachableListener(s3, ListenerDecide, s);
    assert s.table[0].place.Received?;
  }
}
