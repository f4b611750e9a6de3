/** Exactly when an error from closing the socket is sure to be reported. */
module ErrorExact {
  import opened Wrappers
  import opened Protocol
  import opened ProtocolInvariant
  import opened ErrorReport
  import opened SocketLast
  import opened Progress

  /** Some Conn.Close has seen the map empty, or has waited already. */
  ghost predicate SomeConnWillWait(s: State) {
    exists c: ConnId :: c < |s.table| && ConnWillWait(s.table[c].closing)
  }

  /** The drain is over, or about to be, and no Accept is half-way. */
  ghost predicate NobodyLeft(s: State) {
    (s.listener.LDraining? || Swept(s.listener)) && s.acceptCh == [] && !AcceptInFlight(s)
  }

  // ---- it is sufficient ----------------------------------------------------

  lemma ListenerStaysPast(s: State, step: ListenerStep)
    requires ListenerEnabled(s, step) && s.acceptCh == [] && (s.listener.LDraining? || Swept(s.listener))
    ensures var t := AfterListener(s, step); t.acceptCh == [] && (t.listener.LDraining? || Swept(t.listener))
  {
  }

  lemma NobodyLeftStays(s: State, step: Step)
    requires LockInv(s) && SweepInv(s) && NobodyLeft(s) && Enabled(s, step)
    ensures NobodyLeft(After(s, step))
  {
    assert step != Accept(AcceptReceive);
    NobodyReceived(s, step);
    match step
    case Reader(r) =>
      assert !r.ReaderSend?;
      ReaderLeavesTable(s, r);
    case Closer(g) =>
    case Accept(a) =>
    case Listener(l) => ListenerStaysPast(s, l);
    case OfConn(c, k) => ConnStepMoves(s, c, k);
  }

  lemma ReaderLeavesConns(s: State, step: ReaderStep)
    requires ReaderEnabled(s, step)
    ensures var t := AfterReader(s, step);
            && t.accepting == s.accepting && |s.table| <= |t.table|
            && (forall c: ConnId :: c < |s.table| ==> t.table[c] == s.table[c])
  {
    if !step.ReaderSend? {
      ReaderLeavesTable(s, step);
    }
  }

  lemma ListenerRefuses(s: State, step: ListenerStep)
    requires ListenerEnabled(s, step) && !s.accepting
    ensures !AfterListener(s, step).accepting
  {
  }

  /** Whoever is going to wait for the socket still is after a step. */
  lemma WaiterStays(s: State, c: ConnId, step: Step)
    requires !s.accepting && c < |s.table| && ConnWillWait(s.table[c].closing) && Enabled(s, step)
    ensures var t := After(s, step); !t.accepting && c < |t.table| && ConnWillWait(t.table[c].closing)
  {
    match step
    case Reader(r) => ReaderLeavesConns(s, r);
    case Closer(g) =>
    case Accept(a) =>
    case Listener(l) =>
      ListenerLeavesOthers(s, l);
      ListenerRefuses(s, l);
    case OfConn(d, k) =>
      ConnStepMoves(s, d, k);
      if d == c {
        ConnStepWaits(s, c, k);
      }
  }

  /** A run from a state with a waiter to the end of every Close. */
  lemma {:induction false} WaiterReports(s: State, c: ConnId, steps: seq<Step>, t: State)
    requires Reachable(s) && !s.accepting && c < |s.table| && ConnWillWait(s.table[c].closing)
    requires Leads(s, steps, t) && AllClosed(t)
    ensures Reported(t)
    decreases |steps|
  {
    if steps == [] {
      ReachableInv(s);
      assert ConnOk(s.table[c], s.listener == LClosing(c));
      assert ConnReports(t, t.table[c]);
    } else {
      WaiterStays(s, c, steps[0]);
      ReachableStep(s, steps[0], After(s, steps[0]));
      WaiterReports(After(s, steps[0]), c, steps[1..], t);
    }
  }

  /** A run from a state with nobody left to hand out. */
  lemma {:induction false} SomebodyReports(s: State, steps: seq<Step>, t: State)
    requires Reachable(s) && NobodyLeft(s) && Leads(s, steps, t) && AllClosed(t)
    ensures Reported(t)
    decreases |steps|
  {
    if steps == [] {
      CloseErrorIsReported(s);
    } else {
      ReachableInv(s);
      NobodyLeftStays(s, steps[0]);
      ReachableStep(s, steps[0], After(s, steps[0]));
      SomebodyReports(After(s, steps[0]), steps[1..], t);
    }
  }

  // ---- it is necessary -----------------------------------------------------

  /** The listener's Close is over without having waited, nobody else is going to
      wait, and the connection d of an Accept half-way is in the map. */
  ghost predicate Hidden(s: State, d: ConnId) {
    && Reachable(s)
    && s.listener == LFinished(false, None)
    && d < |s.table| && s.table[d].place.Received?
    && !SomeConnWillWait(s)
  }

  /** The next step of c's Close. */
  function NextOf(pc: ConnPc): ConnStep {
    match pc
    case CNotCalled => ConnCall
    case CEntered => ConnRelease
    case CReleased => ConnAnnounce
    case CAnnounced => ConnLock
    case CLocked => ConnDelete
    case CCounted(_) => ConnUnlock
    case CUnlocked(_) => ConnDecide
    case CWaiting => ConnWake
    case _ => ConnCloseQueue(None)
  }

  /** c can take its next step. */
  ghost predicate CanGo(s: State, c: ConnId) {
    && c < |s.table| && s.table[c].place.HandedOut? && !s.table[c].closing.CFinished?
    && (s.lock.Free? || s.lock == ByConn(c))
  }

  /** A connection that is not yet handed out keeps the map from running empty. */
  lemma DeleteLeavesOne(s: State, c: ConnId, d: ConnId)
    requires LockInv(s) && MapInv(s) && c < |s.table| && s.table[c].closing.CLocked?
    requires d < |s.table| && s.table[d].place.Received? && s.table[d].closing.CNotCalled? && c != d
    requires Registered(s, c)
    ensures |s.conns - {s.table[c].addr}| > 0
  {
    assert Registered(s, d);
    assert s.table[d].addr in s.conns - {s.table[c].addr};
  }

  lemma NextDoesNotWait(k: Conn, nConns: nat, accepting: bool, errClose: Option<Error>)
    requires k.place.HandedOut? && !k.closing.CFinished? && !ConnWillWait(k.closing)
    requires k.closing.CLocked? ==> nConns > 0
    ensures ConnReady(k, NextOf(k.closing)) && !k.closing.CWaiting?
    ensures !ConnWillWait(AfterClosing(k, NextOf(k.closing), nConns, accepting, errClose).closing)
  {
  }

  lemma GoDoesNotWait(s: State, c: ConnId, d: ConnId)
    requires Inv(s) && Hidden(s, d) && CanGo(s, c)
    ensures ConnEnabled(s, c, NextOf(s.table[c].closing))
    ensures var t := AfterConn(s, c, NextOf(s.table[c].closing));
            |t.table| == |s.table| && !ConnWillWait(t.table[c].closing)
  {
    var k := s.table[c];
    assert !ConnWillWait(k.closing);
    assert ConnOk(s.table[d], s.listener == LClosing(d));
    var conns := if k.closing.CLocked? then s.conns - {k.addr} else s.conns;
    if k.closing.CLocked? {
      DeleteClaim(s, c);
      DeleteLeavesOne(s, c, d);
    }
    NextDoesNotWait(k, |conns|, s.accepting, s.errClose);
    NextKeepsLock(s, c);
  }

  lemma NextKeepsLock(s: State, c: ConnId)
    requires LockInv(s) && CanGo(s, c) && ConnReady(s.table[c], NextOf(s.table[c].closing)) && !s.table[c].closing.CWaiting?
    ensures ConnEnabled(s, c, NextOf(s.table[c].closing))
  {
  }

  lemma StaysHidden(s: State, c: ConnId, d: ConnId, t: State)
    requires Hidden(s, d) && ConnMoves(s, c, t) && !ConnWillWait(t.table[c].closing) && Reachable(t)
    ensures Hidden(t, d)
  {
    forall e: ConnId | e < |t.table|
      ensures !ConnWillWait(t.table[e].closing)
    {
      assert e != c ==> t.table[e] == s.table[e];
    }
  }

  /** One step of c's Close. */
  lemma GoOne(s: State, c: ConnId, d: ConnId) returns (t: State)
    requires Hidden(s, d) && CanGo(s, c)
    ensures CanReach(s, t) && Hidden(t, d) && ConnMoves(s, c, t)
    ensures t.lock.Free? || t.lock == ByConn(c)
    ensures CloseRank(t.table[c].closing) < CloseRank(s.table[c].closing)
  {
    ReachableInv(s);
    GoDoesNotWait(s, c, d);
    var step := NextOf(s.table[c].closing);
    t := AfterConn(s, c, step);
    ReachableConn(s, c, step, t);
    CanReachItself(s);
    CanReachStep(s, s, OfConn(c, step), t);
    ConnStepMoves(s, c, step);
    ConnTakesLock(s, c, step);
    CloseRankFalls(s, c, step);
    StaysHidden(s, c, d, t);
  }

  /** c's Close runs to its end. */
  lemma {:induction false} FinishOne(s: State, c: ConnId, d: ConnId) returns (t: State)
    requires Hidden(s, d) && c < |s.table| && s.table[c].place.HandedOut?
    requires s.lock.Free? || s.lock == ByConn(c)
    ensures CanReach(s, t) && Hidden(t, d) && ConnMoves(s, c, t)
    ensures t.lock.Free? && t.table[c].closing.CFinished?
    decreases CloseRank(s.table[c].closing)
  {
    if s.table[c].closing.CFinished? {
      t := s;
      CanReachItself(s);
      ReachableInv(s);
    } else {
      var m := GoOne(s, c, d);
      t := FinishOne(m, c, d);
      CanReachTrans(s, m, t);
      assert forall e: ConnId :: e < |s.table| && e != c ==> t.table[e] == m.table[e];
    }
  }

  ghost predicate FinishedBelow(s: State, k: nat) {
    forall c: ConnId :: c < k && c < |s.table| && s.table[c].place.HandedOut? ==> s.table[c].closing.CFinished?
  }

  /** One Close after the other runs to its end. */
  lemma {:induction false} FinishAll(s: State, k: nat, d: ConnId) returns (t: State)
    requires Hidden(s, d) && s.lock.Free? && FinishedBelow(s, k) && k <= |s.table|
    ensures CanReach(s, t) && Hidden(t, d) && FinishedBelow(t, |t.table|)
    decreases |s.table| - k
  {
    if k == |s.table| {
      t := s;
      CanReachItself(s);
    } else {
      var m := s;
      CanReachItself(s);
      if s.table[k].place.HandedOut? {
        m := FinishOne(s, k, d);
      }
      assert FinishedBelow(m, k + 1);
      t := FinishAll(m, k + 1, d);
      CanReachTrans(s, m, t);
    }
  }

  /** The listener counts a connection that an Accept has half-way, and goes. */
  lemma ListenerGoes(s: State, d: ConnId) returns (t: State)
    requires Reachable(s) && s.listener.LDraining? && s.acceptCh == []
    requires d < |s.table| && s.table[d].place.Received? && !SomeConnWillWait(s)
    ensures CanReach(s, t) && Hidden(t, d) && t.lock.Free?
  {
    ReachableInv(s);
    assert ConnOk(s.table[d], s.listener == LClosing(d));
    assert Registered(s, d);
    var n := |s.conns|;
    assert s.table[d].addr in s.conns;
    CanReachItself(s);
    var s1 := s.(listener := LCounted(n));
    CanReachStep(s, s, Listener(ListenerCount), s1);
    var s2 := s.(listener := LUnlocked(n), lock := Free);
    CanReachStep(s, s1, Listener(ListenerUnlock), s2);
    t := ListenerReturns(s2);
    CanReachTrans(s, s2, t);
    ReachableFrom(s, t);
  }

  lemma ListenerReturns(s: State) returns (t: State)
    requires s.listener.LUnlocked? && s.listener.n > 0
    ensures t == s.(listener := LFinished(false, None), connWG := s.connWG - 1) && CanReach(s, t)
  {
    CanReachItself(s);
    var s1 := s.(listener := LReleased(s.listener.n), connWG := s.connWG - 1);
    CanReachStep(s, s, Listener(ListenerRelease), s1);
    t := s1.(listener := LFinished(false, None));
    CanReachStep(s, s1, Listener(ListenerDecide), t);
  }

  lemma HiddenIsUnreported(t: State, d: ConnId)
    requires Hidden(t, d) && FinishedBelow(t, |t.table|)
    ensures AllClosed(t) && !Reported(t)
  {
    if c: ConnId :| c < |t.table| && ConnReports(t, t.table[c]) {
      assert ConnWillWait(t.table[c].closing);
    }
  }

  // ---- the theorem ---------------------------------------------------------

  /** Whatever happens from s on, once every Close is over the error was reported. */
  ghost predicate SureToReport(s: State) {
    forall steps, t :: Leads(s, steps, t) && AllClosed(t) ==> Reported(t)
  }

  /** When the listener's Close, its drain done, is about to count: the socket's
      error is reported in every continuation in which every Close ends, if and
      only if no Accept is between its receive and its connWG.Add(1), or some
      Conn.Close has already seen the map empty. */
  lemma ReportedIff(s: State)
    requires Reachable(s) && s.listener.LDraining? && s.acceptCh == []
    ensures SureToReport(s) <==> !AcceptInFlight(s) || SomeConnWillWait(s)
  {
    ReachableInv(s);
    if !AcceptInFlight(s) || SomeConnWillWait(s) {
      forall steps, t | Leads(s, steps, t) && AllClosed(t)
        ensures Reported(t)
      {
        if AcceptInFlight(s) {
          var c: ConnId :| c < |s.table| && ConnWillWait(s.table[c].closing);
          WaiterReports(s, c, steps, t);
        } else {
          SomebodyReports(s, steps, t);
        }
      }
    } else {
      var d: ConnId :| d < |s.table| && s.table[d].place.Received?;
      var m := ListenerGoes(s, d);
      var t := FinishAll(m, 0, d);
      CanReachTrans(s, m, t);
      HiddenIsUnreported(t, d);
      var steps :| Leads(s, steps, t);
    }
  }
}
