/** The methods of supConn and Conn as code over the fields they change, with the
    other goroutines running between any two of their actions.

    A State of the step system is everything there is; the object's fields are the
    part of it that these methods touch.  A method is given the state it starts in
    and returns the one it ends in.  env(i) is what the others try to do at the
    i-th point in between: any steps, of which those are taken that are possible.
    Each action of a method is a step of the step system, so all that is proved of
    every run holds of every run of these methods. */
module SuperConn {
  import opened Wrappers
  import opened Protocol
  import opened ProtocolInvariant
  import opened Accounting
  import opened Interference

  /** What getSubConn returns. */
  datatype Lookup =
    | Found(c: ConnId)
    | New(c: ConnId)
    | ErrClosedSuperConn
    | Rejected               // by the accept filter, no error
    | ErrListenQueueExceeded

  predicate Succeeds(r: Lookup) {
    r.Found? || r.New?
  }

  /** How far a Close call has got. */
  datatype Closed =
    | Blocked                                       // in Lock or in readWG.Wait
    | Returned(waited: bool, err: Option<Error>)

  /** The case that the select of Accept takes, and what Accept then returns. */
  datatype Case = FromAcceptCh | FromReadDone | FromDeadline | FromDone

  datatype Accepted = Conn(c: ConnId) | ErrRead | ErrDeadlineExceeded | ErrClosed

  /** What getSubConn adds to the map, to the channel and to the connections. */
  ghost predicate Grown(p: Packet, r: Lookup, s: State, t: State) {
    if r.New? then
      r.c == |s.table| && t.conns == s.conns[p.addr := r.c] && t.sent == s.sent + [r.c] && |t.table| == |s.table| + 1
    else
      t.conns == s.conns && t.sent == s.sent && |t.table| == |s.table|
  }

  /** It has done so and is about to unlock. */
  ghost predicate Added(p: Packet, r: Lookup, s: State, t: State) {
    Grown(p, r, s, t) && t.lock == ByReader && t.reader == RUnlocking(p, if r.New? then Some(r.c) else None)
  }

  /** The answer, with accepting on, to a packet of an unknown address: a channel
      that has room when the call begins has room when it sends. */
  ghost predicate Answers(p: Packet, r: Lookup, s: State) {
    && (r.Rejected? <==> !p.admitted)
    && (r.ErrListenQueueExceeded? ==> |s.acceptCh| >= s.backlog)
  }

  // ---- what the results mean -----------------------------------------------

  /** c is the only live connection of address a. */
  ghost predicate OnlyLive(table: seq<Protocol.Conn>, a: Addr, c: ConnId) {
    && c < |table| && table[c].addr == a && Live(table[c])
    && (forall d: ConnId :: d < |table| && table[d].addr == a && Live(table[d]) ==> d == c)
  }

  lemma MappedIsOnlyLive(s: State, a: Addr)
    requires Reachable(s) && s.lock.Free? && a in s.conns
    ensures OnlyLive(s.table, a, s.conns[a])
  {
    MapIsExact(s, a, s.conns[a]);
    forall d: ConnId | d < |s.table| && s.table[d].addr == a && Live(s.table[d])
      ensures d == s.conns[a]
    {
      OnePerAddress(s, s.conns[a], d);
    }
  }

  /** m without the entries of cs. */
  ghost predicate WithoutConns(m: map<Addr, ConnId>, cs: seq<ConnId>, m': map<Addr, ConnId>) {
    && (forall a :: a in m' <==> a in m && m[a] !in cs)
    && (forall a :: a in m' ==> m'[a] == m[a])
  }

  lemma EmptyIff(m: map<Addr, ConnId>, cs: seq<ConnId>, m': map<Addr, ConnId>)
    requires WithoutConns(m, cs, m')
    ensures |m'| == 0 <==> forall a :: a in m ==> m[a] in cs
  {
    assert |m'| == 0 <==> m' == map[];
  }

  /** From s to t the connections cs have become drained, and nobody else. */
  ghost predicate SameDrained(s: State, cs: seq<ConnId>, t: State) {
    && |t.table| == |s.table|
    && (forall c: ConnId :: c < |s.table| ==> (t.table[c].place.Drained? <==> s.table[c].place.Drained? || c in cs))
  }

  /** And they were in the channel. */
  ghost predicate DrainedFrom(s: State, cs: seq<ConnId>, t: State) {
    SameDrained(s, cs, t) && forall c :: c in cs ==> c < |s.table| && s.table[c].place.Queued?
  }

  lemma DrainedOneMore(s: State, cs: seq<ConnId>, m: State, c: ConnId, t: State)
    requires WithoutConns(s.conns, cs, m.conns) && WithoutConns(m.conns, [c], t.conns)
    requires DrainedFrom(s, cs, m) && SameDrained(m, [c], t) && c < |s.table| && s.table[c].place.Queued?
    ensures WithoutConns(s.conns, cs + [c], t.conns) && DrainedFrom(s, cs + [c], t)
  {
  }

  lemma SameDrainedTrans(s: State, cs: seq<ConnId>, m: State, t: State)
    requires SameDrained(s, cs, m) && SameDrained(m, [], t)
    ensures SameDrained(s, cs, t)
  {
  }

  lemma SameDrainedFrom(s: State, cs: seq<ConnId>, m: State, t: State)
    requires DrainedFrom(s, cs, m) && SameDrained(m, [], t)
    ensures DrainedFrom(s, cs, t)
  {
  }

  /** While nothing is sent, who is queued has been queued. */
  lemma QueuedBefore(s: State, t: State, c: ConnId)
    requires Reachable(s) && Reachable(t) && t.sent == s.sent && |t.acceptCh| <= |s.acceptCh|
    requires c < |t.table| && t.table[c].place.Queued?
    ensures c < |s.table| && s.table[c].place.Queued?
  {
    ReachableInv(s);
    ReachableInv(t);
  }

  /** The same with more than one connection in view. */
  lemma QueuedAmong(s: State, t: State)
    requires Reachable(s) && Reachable(t) && SameUnderLock(s, t)
    ensures forall c: ConnId :: c < |t.table| && t.table[c].place.Queued? ==> s.table[c].place.Queued?
  {
    forall c: ConnId | c < |t.table| && t.table[c].place.Queued?
      ensures s.table[c].place.Queued?
    {
      QueuedBefore(s, t, c);
    }
  }

  lemma DrainedFromBefore(s: State, m: State, cs: seq<ConnId>, t: State)
    requires DrainedFrom(m, cs, t) && SameDrained(s, [], m)
    requires forall c: ConnId :: c < |m.table| && m.table[c].place.Queued? ==> s.table[c].place.Queued?
    ensures DrainedFrom(s, cs, t)
  {
  }

  /** Whoever was in the channel has left it: drained with its doneCh closed once,
      or taken by an Accept. */
  lemma NobodyStaysQueued(s: State, cs: seq<ConnId>, t: State, c: ConnId)
    requires Reachable(t) && t.acceptCh == [] && t.listener.LUnlocked? && DrainedFrom(s, cs, t)
    requires c < |s.table| && s.table[c].place.Queued?
    ensures if c in cs then t.table[c].place.Drained? && t.table[c].doneCloses == 1
            else t.table[c].place.Received? || t.table[c].place.HandedOut?
  {
    ReachableInv(t);
    assert ConnOk(t.table[c], t.listener == LClosing(c));
  }

  lemma HasRefused(s: State)
    requires Reachable(s) && (s.listener.LWaiting? || s.listener.LFinished?)
    ensures !s.accepting && s.doneCloses == 1
  {
    ReachableInv(s);
  }

  lemma NotYetClosing(s: State, c: ConnId)
    requires Reachable(s) && c < |s.table| && s.table[c].place.Received?
    ensures s.table[c].closing.CNotCalled?
  {
    ReachableInv(s);
    assert ConnOk(s.table[c], s.listener == LClosing(c));
  }

  /** s with another record for c. */
  function With(s: State, c: ConnId, k: Protocol.Conn): State
    requires c < |s.table|
  {
    s.(table := s.table[c := k])
  }

  lemma WithWith(s: State, c: ConnId, k: Protocol.Conn, k': Protocol.Conn)
    requires c < |s.table|
    ensures With(With(s, c, k), c, k') == With(s, c, k')
  {
  }

  lemma ReceiveRun(s: State)
    requires Reachable(s) && CanTake(s)
    ensures Reachable(Take(s, Received))
  {
    var called := s.(acceptors := s.acceptors + 1);
    ReachableStep(s, Step.Accept(AcceptCall), called);
    ReachableStep(called, Step.Accept(AcceptReceive), Take(s, Received));
  }

  lemma CloseTakenRun(s: State)
    requires Reachable(s) && s.listener.LClosing? && s.listener.c < |s.table|
    ensures var c := s.listener.c;
            var t := With(s, c, s.table[c].(doneCloses := s.table[c].doneCloses + 1)).(listener := LDeleting(c));
            Reachable(t) && SameDrained(s, [], t)
  {
    var c := s.listener.c;
    ReachableListener(s, ListenerCloseConn,
                      With(s, c, s.table[c].(doneCloses := s.table[c].doneCloses + 1)).(listener := LDeleting(c)));
  }

  /** From s the others lead to a, which sends; from b to u, which inserts. */
  lemma SendInsertAdds(p: Packet, s: State, a: State, b: State, u: State, t: State)
    requires s.lock == ByReader && Onward(s, a) && SameUnderLock(s, a)
    requires b.backlog == a.backlog && b.accepting == a.accepting && b.conns == a.conns && b.lock == a.lock
    requires b.sent == a.sent + [|a.table|] && b.table == a.table + [Protocol.Conn(p.addr, Queued, CNotCalled, 0, 0)]
    requires Onward(b, u) && SameUnderLock(b, u)
    requires t == u.(conns := u.conns[p.addr := |a.table|], reader := RUnlocking(p, Some(|a.table|)))
    ensures Onward(s, t) && Added(p, New(|a.table|), s, t)
  {
    assert forall c: ConnId :: c < |a.table| ==> b.table[c] == a.table[c];
  }

  lemma CountedUntilReleased(s: State, c: ConnId)
    requires Reachable(s) && c < |s.table| && Open(s.table[c])
    ensures s.connWG >= 1
  {
    ReachableInv(s);
    assert c in OpenConns(s.table);
  }

  lemma DoneClosedBy(s: State, c: ConnId)
    requires Reachable(s) && c < |s.table| && Announced(s.table[c].closing)
    ensures s.table[c].doneCloses == 1
  {
    ReachableInv(s);
    assert ConnOk(s.table[c], s.listener == LClosing(c));
  }

  lemma ConnWaitedForSocket(s: State, c: ConnId)
    requires Reachable(s) && c < |s.table| && s.table[c].closing.CClosingQueue?
    ensures s.table[c].closing.waited ==> s.closer.GDone? && s.table[c].closing.err == s.closeResult
  {
    ReachableInv(s);
    assert ReportOk(s, s.table[c].closing);
  }

  lemma WaitedForSocket(s: State)
    requires Reachable(s) && s.listener.LFinished? && s.listener.waited
    ensures s.closer.GDone? && s.listener.err == s.closeResult
  {
    ReachableInv(s);
  }

  lemma HeadInTable(s: State)
    requires Reachable(s) && s.acceptCh != []
    ensures s.acceptCh[0] < |s.table| && s.table[s.acceptCh[0]].place.Queued?
  {
    ReachableInv(s);
    HeadIsQueued(s);
  }

  lemma TakenIsThere(s: State)
    requires Reachable(s) && (s.listener.LClosing? || s.listener.LDeleting?)
    ensures s.listener.c < |s.table|
  {
    ReachableInv(s);
  }

  lemma NotYetAnnounced(s: State)
    requires Reachable(s) && s.listener.LRefusing?
    ensures s.doneCloses == 0
  {
    ReachableInv(s);
  }

  class SupConn {
    const backlog: nat
    var accepting: bool
    var acceptCh: seq<ConnId>
    var doneCloses: nat              // how often doneCh was closed
    var lock: Lock                   // connLock
    var conns: map<Addr, ConnId>
    var connWG: int
    var readWG: int
    var errClose: Option<Error>
    var readDone: bool               // readDoneCh is closed
    var table: seq<Protocol.Conn>    // the Conn objects, by number

    /** The fields are what the step system calls s. */
    ghost predicate Shows(s: State)
      reads this
    {
      && s.backlog == backlog && s.accepting == accepting && s.acceptCh == acceptCh && s.doneCloses == doneCloses
      && s.lock == lock && s.conns == conns && s.connWG == connWG && s.readWG == readWG && s.errClose == errClose
      && s.readDone == readDone && s.table == table
    }

    /** wrapConn */
    constructor (backlog: nat)
      ensures this.backlog == backlog
      ensures forall s :: Init(s) && s.backlog == backlog ==> Shows(s)
    {
      this.backlog := backlog;
      accepting, acceptCh, doneCloses, lock, conns := true, [], 0, Free, map[];
      connWG, readWG, errClose, readDone, table := 1, 2, None, false, [];
    }

    /** The other goroutines' turn. */
    method Yield(s: State, me: Actor, env: seq<Step>) returns (t: State)
      requires Shows(s) && Reachable(s)
      modifies this
      ensures Shows(t) && Reachable(t) && Rely(me, s, t) && t == Others(s, me, env)
    {
      OthersReach(s, me, env);
      OthersRely(s, me, env);
      t := Others(s, me, env);
      accepting, acceptCh, doneCloses, lock, conns := t.accepting, t.acceptCh, t.doneCloses, t.lock, t.conns;
      connWG, readWG, errClose, readDone, table := t.connWG, t.readWG, t.errClose, t.readDone, t.table;
    }

    /** The same while the read loop has the mutex. */
    method YieldAsReader(s: State, env: seq<Step>) returns (t: State)
      requires Shows(s) && Reachable(s) && s.lock == ByReader
      modifies this
      ensures Shows(t) && Reachable(t) && t.reader == s.reader && Onward(s, t) && SameUnderLock(s, t)
    {
      t := Yield(s, TheReader, env);
    }

    // ---- getSubConn --------------------------------------------------------

    method LockReader(p: Packet, s: State) returns (t: State)
      requires Shows(s) && Reachable(s) && s.lock.Free? && s.reader == RDispatching(p)
      modifies `lock
      ensures Shows(t) && Reachable(t) && t == s.(lock := ByReader, reader := RLocked(p))
    {
      lock := ByReader;
      t := s.(lock := ByReader, reader := RLocked(p));
      ReachableReader(s, ReaderLock, t);
    }

    method LockAndLookUp(p: Packet, s: State, env: nat -> seq<Step>) returns (found: Option<ConnId>, t: State)
      requires Shows(s) && Reachable(s) && s.lock.Free? && s.reader == RDispatching(p)
      modifies this
      ensures Shows(t) && Reachable(t) && Onward(s, t) && SameUnderLock(s.(lock := ByReader), t)
      ensures if found.Some? then p.addr in s.conns && found.value == s.conns[p.addr] else p.addr !in s.conns
      ensures t.reader == if found.Some? then RUnlocking(p, found) else RMissed(p)
    {
      t := LockReader(p, s);
      t := YieldAsReader(t, env(0));
      ghost var m := t;
      if p.addr in conns {
        found := Some(conns[p.addr]);
        t := t.(reader := RUnlocking(p, found));
      } else {
        found := None;
        t := t.(reader := RMissed(p));
      }
      ReachableReader(m, ReaderLookup, t);
    }

    method LoadAccepting(p: Packet, s: State) returns (isAccepting: bool, t: State)
      requires Shows(s) && Reachable(s) && s.reader == RMissed(p)
      ensures Shows(t) && Reachable(t) && isAccepting == accepting
      ensures t == s.(reader := if isAccepting then RAccepting(p) else RUnlocking(p, None))
    {
      isAccepting := accepting;
      t := s.(reader := if isAccepting then RAccepting(p) else RUnlocking(p, None));
      ReachableReader(s, ReaderLoad, t);
    }

    method AskFilter(p: Packet, s: State) returns (t: State)
      requires Shows(s) && Reachable(s) && s.reader == RAccepting(p)
      ensures Shows(t) && Reachable(t)
      ensures t == s.(reader := if p.admitted then RCreating(p) else RUnlocking(p, None))
    {
      t := s.(reader := if p.admitted then RCreating(p) else RUnlocking(p, None));
      ReachableReader(s, ReaderFilter, t);
    }

    /** newSubConn and the send, if the channel has room. */
    method SendNew(p: Packet, s: State) returns (ok: bool, t: State)
      requires Shows(s) && Reachable(s) && s.reader == RCreating(p)
      modifies `acceptCh, `table
      ensures Shows(t) && Reachable(t) && ok == (|s.acceptCh| < backlog)
      ensures !ok ==> t == s.(reader := RUnlocking(p, None))
      ensures ok ==> t == s.(acceptCh := s.acceptCh + [|s.table|], sent := s.sent + [|s.table|],
                             table := s.table + [Protocol.Conn(p.addr, Queued, CNotCalled, 0, 0)],
                             reader := RSent(p, |s.table|))
    {
      t := Send(s);
      ReachableReader(s, ReaderSend, t);
      ok := |acceptCh| < backlog;
      if ok {
        acceptCh := acceptCh + [|table|];
        table := table + [Protocol.Conn(p.addr, Queued, CNotCalled, 0, 0)];
      }
    }

    method InsertNew(p: Packet, c: ConnId, s: State) returns (t: State)
      requires Shows(s) && Reachable(s) && s.reader == RSent(p, c)
      modifies `conns
      ensures Shows(t) && Reachable(t)
      ensures t == s.(conns := s.conns[p.addr := c], reader := RUnlocking(p, Some(c)))
    {
      conns := conns[p.addr := c];
      t := s.(conns := s.conns[p.addr := c], reader := RUnlocking(p, Some(c)));
      ReachableReader(s, ReaderInsert, t);
    }

    method UnlockReader(p: Packet, to: Option<ConnId>, s: State) returns (t: State)
      requires Shows(s) && Reachable(s) && s.reader == RUnlocking(p, to)
      modifies `lock
      ensures Shows(t) && Reachable(t)
      ensures t == s.(lock := Free, reader := if to.Some? then RPushing(p, to.value) else RReading)
    {
      lock := Free;
      t := s.(lock := Free, reader := if to.Some? then RPushing(p, to.value) else RReading);
      ReachableReader(s, ReaderUnlock, t);
    }

    /** The deferred unlock. */
    method LeaveSubConn(p: Packet, r: Lookup, s: State, env: nat -> seq<Step>) returns (t: State)
      requires Shows(s) && Reachable(s) && s.lock == ByReader
      requires s.reader == RUnlocking(p, if Succeeds(r) then Some(r.c) else None)
      requires Succeeds(r) ==> p.addr in s.conns && s.conns[p.addr] == r.c
      modifies this
      ensures Shows(t) && Reachable(t) && Onward(s, t) && t.lock.Free?
      ensures t.reader == if Succeeds(r) then RPushing(p, r.c) else RReading
      ensures t.conns == s.conns && t.sent == s.sent && |t.table| == |s.table|
      ensures Succeeds(r) ==> OnlyLive(t.table, p.addr, r.c)
    {
      t := YieldAsReader(s, env(5));
      t := UnlockReader(p, if Succeeds(r) then Some(r.c) else None, t);
      if Succeeds(r) {
        MappedIsOnlyLive(t, p.addr);
      }
    }

    method SendAndInsert(p: Packet, s: State, env: nat -> seq<Step>) returns (r: Lookup, t: State)
      requires Shows(s) && Reachable(s) && s.reader == RCreating(p) && s.lock == ByReader
      modifies this
      ensures Shows(t) && Reachable(t) && Onward(s, t) && Added(p, r, s, t)
      ensures r.New? || (r.ErrListenQueueExceeded? && |s.acceptCh| >= backlog)
    {
      t := YieldAsReader(s, env(3));
      ghost var a := t;
      var c, ok := |table|, false;
      ok, t := SendNew(p, t);
      if ok {
        ghost var b := t;
        t := YieldAsReader(t, env(4));
        ghost var u := t;
        t := InsertNew(p, c, t);
        SendInsertAdds(p, s, a, b, u, t);
        r := New(c);
      } else {
        r := ErrListenQueueExceeded;
      }
    }

    method FilterAndSend(p: Packet, s: State, env: nat -> seq<Step>) returns (r: Lookup, t: State)
      requires Shows(s) && Reachable(s) && s.reader == RAccepting(p) && s.lock == ByReader
      modifies this
      ensures Shows(t) && Reachable(t) && Onward(s, t) && Added(p, r, s, t)
      ensures !r.Found? && !r.ErrClosedSuperConn? && Answers(p, r, s)
    {
      t := YieldAsReader(s, env(2));
      t := AskFilter(p, t);
      if p.admitted {
        r, t := SendAndInsert(p, t, env);
      } else {
        r := Rejected;
      }
    }

    /** getSubConn behind a lookup that found nothing. */
    method Create(p: Packet, s: State, env: nat -> seq<Step>) returns (r: Lookup, t: State)
      requires Shows(s) && Reachable(s) && s.reader == RMissed(p) && s.lock == ByReader
      modifies this
      ensures Shows(t) && Reachable(t) && Onward(s, t) && !r.Found? && Added(p, r, s, t)
      ensures if r.ErrClosedSuperConn? then !accepting else s.accepting && Answers(p, r, s)
    {
      t := YieldAsReader(s, env(1));
      var isAccepting;
      isAccepting, t := LoadAccepting(p, t);
      if isAccepting {
        r, t := FilterAndSend(p, t, env);
      } else {
        r := ErrClosedSuperConn;
      }
    }

    /** getSubConn for a packet of dispatchMsg, from when it gets the mutex.  What
        the mutex protects is changed by this call alone.  If the flag and the
        channel stay as they are the outcome is determined; the connection returned
        is the only live one of its address when the mutex is released. */
    method GetSubConn(p: Packet, s: State, env: nat -> seq<Step>) returns (r: Lookup, t: State)
      requires Shows(s) && Reachable(s) && s.lock.Free? && s.reader == RDispatching(p)
      modifies this
      ensures Shows(t) && Reachable(t) && Onward(s, t) && t.lock.Free?
      ensures t.reader == if Succeeds(r) then RPushing(p, r.c) else RReading
      ensures r.Found? <==> p.addr in s.conns
      ensures r.ErrClosedSuperConn? ==> !accepting
      ensures r.Rejected? || r.ErrListenQueueExceeded? || r.New? ==> s.accepting && Answers(p, r, s)
      ensures Grown(p, r, s, t)
      ensures Succeeds(r) ==> OnlyLive(table, p.addr, r.c)
    {
      var found;
      found, t := LockAndLookUp(p, s, env);
      if found.Some? {
        r := Found(found.value);
      } else {
        r, t := Create(p, t, env);
      }
      t := LeaveSubConn(p, r, t, env);
    }

    // ---- supConn.Close -----------------------------------------------------

    /** The others' turn while the listener's Close runs. */
    method YieldAsListener(s: State, env: seq<Step>) returns (t: State)
      requires Shows(s) && Reachable(s)
      modifies this
      ensures Shows(t) && Reachable(t) && t.listener == s.listener
      ensures t.accepting == s.accepting && t.doneCloses == s.doneCloses
      ensures s.lock == ByListener ==> SameUnderLock(s, t) && SameDrained(s, [], t)
    {
      t := Yield(s, TheListener, env);
    }

    /** accepting.Store(false) and close(doneCh). */
    method Refuse(s: State, env: nat -> seq<Step>) returns (t: State)
      requires Shows(s) && Reachable(s) && s.listener.LNotCalled?
      modifies this
      ensures Shows(t) && Reachable(t) && t.listener.LAnnounced? && !t.accepting && t.doneCloses == 1
    {
      t := ClearAccepting(s);
      t := YieldAsListener(t, env(0));
      NotYetAnnounced(t);
      ghost var m := t;
      doneCloses := doneCloses + 1;
      t := t.(listener := LAnnounced, doneCloses := t.doneCloses + 1);
      ReachableListener(m, ListenerAnnounce, t);
    }

    method ClearAccepting(s: State) returns (t: State)
      requires Shows(s) && Reachable(s) && s.listener.LNotCalled?
      modifies `accepting
      ensures Shows(t) && Reachable(t) && t == s.(listener := LRefusing, accepting := false)
    {
      t := s.(listener := LEntered);
      ReachableListener(s, ListenerCall, t);
      ghost var m := t;
      accepting := false;
      t := t.(listener := LRefusing, accepting := false);
      ReachableListener(m, ListenerRefuse, t);
    }

    /** The receive of the drain's select. */
    method TakeOne(s: State) returns (c: ConnId, t: State)
      requires Shows(s) && Reachable(s) && s.listener.LDraining? && acceptCh != []
      modifies `acceptCh, `table
      ensures Shows(t) && Reachable(t) && t.listener == LClosing(c) && t.lock == s.lock
      ensures SameUnderLock(s, t) && |t.acceptCh| < |s.acceptCh| && c == s.acceptCh[0] < |s.table|
      ensures s.table[c].place.Queued? && SameDrained(s, [c], t)
    {
      HeadInTable(s);
      c := acceptCh[0];
      acceptCh := acceptCh[1..];
      table := table[c := table[c].(place := Drained)];
      t := Take(s, Drained).(listener := LClosing(c));
      ReachableListener(s, ListenerTake, t);
    }

    method CloseTaken(c: ConnId, s: State) returns (t: State)
      requires Shows(s) && Reachable(s) && s.listener == LClosing(c)
      modifies `table
      ensures Shows(t) && Reachable(t) && t.listener == LDeleting(c) && t.lock == s.lock
      ensures SameUnderLock(s, t) && SameDrained(s, [], t)
    {
      TakenIsThere(s);
      CloseTakenRun(s);
      table := table[c := table[c].(doneCloses := table[c].doneCloses + 1)];
      t := With(s, c, s.table[c].(doneCloses := s.table[c].doneCloses + 1)).(listener := LDeleting(c));
    }

    method DeleteTaken(c: ConnId, s: State) returns (t: State)
      requires Shows(s) && Reachable(s) && s.listener == LDeleting(c)
      modifies `conns
      ensures Shows(t) && Reachable(t) && t == s.(listener := LDraining, conns := t.conns)
      ensures WithoutConns(s.conns, [c], t.conns)
    {
      TakenIsThere(s);
      DrainDeletesOwnEntry(s);
      conns := conns - {table[c].addr};
      t := s.(listener := LDraining, conns := s.conns - {s.table[c].addr});
      ReachableListener(s, ListenerDelete, t);
    }

    /** One turn of the drain. */
    method DrainTurn(s: State, env: nat -> seq<Step>) returns (c: ConnId, t: State)
      requires Shows(s) && Reachable(s) && s.listener.LDraining? && s.lock == ByListener && acceptCh != []
      modifies this
      ensures Shows(t) && Reachable(t) && t.listener.LDraining? && t.lock == ByListener
      ensures t.sent == s.sent && |t.table| == |s.table| && |t.acceptCh| < |s.acceptCh|
      ensures WithoutConns(s.conns, [c], t.conns) && c < |s.table| && s.table[c].place.Queued? && SameDrained(s, [c], t)
    {
      c, t := TakeOne(s);
      ghost var a := t;
      t := YieldAsListener(t, env(0));
      SameDrainedTrans(s, [c], a, t);
      ghost var b := t;
      t := CloseTaken(c, t);
      SameDrainedTrans(s, [c], b, t);
      ghost var d := t;
      t := YieldAsListener(t, env(1));
      SameDrainedTrans(s, [c], d, t);
      t := DeleteTaken(c, t);
    }

    /** The drain, with the mutex held.  Accept calls may take from the channel too:
        whoever was queued is drained or with one of them, and exactly the drained
        lose their entries. */
    method Drain(s: State, env: nat -> nat -> seq<Step>) returns (t: State, ghost drained: seq<ConnId>)
      requires Shows(s) && Reachable(s) && s.listener.LDraining? && s.lock == ByListener
      modifies this
      ensures Shows(t) && Reachable(t) && t.listener.LDraining? && t.lock == ByListener && acceptCh == []
      ensures t.sent == s.sent && |t.table| == |s.table|
      ensures WithoutConns(s.conns, drained, t.conns) && DrainedFrom(s, drained, t)
    {
      t, drained := s, [];
      var i := 0;
      while acceptCh != []
        invariant Shows(t) && Reachable(t) && t.listener.LDraining? && t.lock == ByListener
        invariant t.sent == s.sent && |t.table| == |s.table| && |t.acceptCh| <= |s.acceptCh|
        invariant WithoutConns(s.conns, drained, t.conns) && DrainedFrom(s, drained, t)
        decreases |acceptCh|
      {
        ghost var m := t;
        var c;
        c, t := DrainTurn(t, env(i));
        QueuedBefore(s, m, c);
        DrainedOneMore(s, drained, m, c, t);
        drained := drained + [c];
        ghost var u := t;
        t := YieldAsListener(t, env(i)(2));
        SameDrainedFrom(s, drained, u, t);
        i := i + 1;
      }
    }

    method LockListener(s: State) returns (t: State)
      requires Shows(s) && Reachable(s) && s.listener.LAnnounced? && s.lock.Free?
      modifies `lock
      ensures Shows(t) && Reachable(t) && t == s.(listener := LDraining, lock := ByListener)
    {
      lock := ByListener;
      t := s.(listener := LDraining, lock := ByListener);
      ReachableListener(s, ListenerLock, t);
    }

    method CountConns(s: State) returns (nConns: nat, t: State)
      requires Shows(s) && Reachable(s) && s.listener.LDraining? && acceptCh == []
      ensures Shows(t) && Reachable(t) && nConns == |conns| && t == s.(listener := LCounted(nConns))
    {
      nConns := |conns|;
      t := s.(listener := LCounted(nConns));
      ReachableListener(s, ListenerCount, t);
    }

    method UnlockListener(n: nat, s: State) returns (t: State)
      requires Shows(s) && Reachable(s) && s.listener == LCounted(n)
      modifies `lock
      ensures Shows(t) && Reachable(t) && t == s.(listener := LUnlocked(n), lock := Free)
    {
      lock := Free;
      t := s.(listener := LUnlocked(n), lock := Free);
      ReachableListener(s, ListenerUnlock, t);
    }

    method LockAndDrain(s: State, env: nat -> nat -> seq<Step>) returns (t: State, ghost drained: seq<ConnId>)
      requires Shows(s) && Reachable(s) && s.listener.LAnnounced? && s.lock.Free?
      modifies this
      ensures Shows(t) && Reachable(t) && t.listener.LDraining? && t.lock == ByListener && acceptCh == []
      ensures t.sent == s.sent && |t.table| == |s.table|
      ensures WithoutConns(s.conns, drained, t.conns) && DrainedFrom(s, drained, t)
    {
      t := LockListener(s);
      ghost var m := t;
      t := YieldAsListener(t, env(0)(0));
      QueuedAmong(m, t);
      ghost var u := t;
      t, drained := Drain(t, (i: nat) => env(i + 1));
      DrainedFromBefore(s, u, drained, t);
    }

    /** The locked section of supConn.Close, from when it gets the mutex. */
    method DrainAndCount(s: State, env: nat -> nat -> seq<Step>)
      returns (nConns: nat, t: State, ghost drained: seq<ConnId>)
      requires Shows(s) && Reachable(s) && s.listener.LAnnounced? && s.lock.Free?
      modifies this
      ensures Shows(t) && Reachable(t) && t.listener == LUnlocked(nConns) && t.lock.Free? && nConns == |t.conns|
      ensures t.sent == s.sent && t.acceptCh == []
      ensures WithoutConns(s.conns, drained, t.conns) && DrainedFrom(s, drained, t)
      ensures nConns == 0 <==> forall a :: a in s.conns ==> s.conns[a] in drained
    {
      t, drained := LockAndDrain(s, env);
      nConns, t := CountConns(t);
      EmptyIff(s.conns, drained, t.conns);
      ghost var v := t;
      t := YieldAsListener(t, env(0)(1));
      SameDrainedFrom(s, drained, v, t);
      t := UnlockListener(nConns, t);
    }

    method ReleaseListener(n: nat, s: State) returns (t: State)
      requires Shows(s) && Reachable(s) && s.listener == LUnlocked(n)
      modifies `connWG
      ensures Shows(t) && Reachable(t) && t == s.(listener := LReleased(n), connWG := s.connWG - 1)
    {
      connWG := connWG - 1;
      t := s.(listener := LReleased(n), connWG := s.connWG - 1);
      ReachableListener(s, ListenerRelease, t);
    }

    method DecideListener(n: nat, s: State) returns (t: State)
      requires Shows(s) && Reachable(s) && s.listener == LReleased(n)
      ensures Shows(t) && Reachable(t) && t == s.(listener := if n == 0 then LWaiting else LFinished(false, None))
    {
      t := s.(listener := if n == 0 then LWaiting else LFinished(false, None));
      ReachableListener(s, ListenerDecide, t);
    }

    /** readWG.Wait, when it returns, and the load of errClose. */
    method WakeListener(s: State) returns (err: Option<Error>, t: State)
      requires Shows(s) && Reachable(s) && s.listener.LWaiting? && readWG == 0
      ensures Shows(t) && Reachable(t) && t == s.(listener := LFinished(true, err))
      ensures t.closer.GDone? && err == t.closeResult
    {
      err := errClose;
      t := s.(listener := LFinished(true, err));
      ReachableListener(s, ListenerWake, t);
      WaitedForSocket(t);
    }

    /** The rest of supConn.Close. */
    method AwaitListener(n: nat, s: State, env: nat -> seq<Step>) returns (out: Closed, t: State)
      requires Shows(s) && Reachable(s) && s.listener == LUnlocked(n)
      modifies this
      ensures Shows(t) && Reachable(t)
      ensures out.Blocked? ==> n == 0 && t.listener.LWaiting? && t.readWG != 0
      ensures out.Returned? ==> t.listener == LFinished(out.waited, out.err) && (out.waited <==> n == 0)
      ensures out.Returned? ==> if out.waited then t.closer.GDone? && out.err == t.closeResult else out.err == None
    {
      t := YieldAsListener(s, env(0));
      t := ReleaseListener(n, t);
      t := YieldAsListener(t, env(1));
      t := DecideListener(n, t);
      if n != 0 {
        return Returned(false, None), t;
      }
      t := YieldAsListener(t, env(2));
      if readWG != 0 {
        return Blocked, t;
      }
      var err;
      err, t := WakeListener(t);
      return Returned(true, err), t;
    }

    /** supConn.Close.  `locked` is the state in which it gets the mutex, `drained`
        whom its drain takes: it waits for the socket if and only if these are all
        that the map held, and then returns the error from closing the socket. */
    method Close(s: State, env: nat -> nat -> seq<Step>)
      returns (out: Closed, t: State, ghost locked: State, ghost drained: seq<ConnId>)
      requires Shows(s) && Reachable(s) && s.listener.LNotCalled?
      modifies this
      ensures Shows(t) && Reachable(t) && !accepting && doneCloses == 1
      ensures out.Blocked? ==> || (t.listener.LAnnounced? && !lock.Free?)
                               || (t.listener.LWaiting? && readWG != 0)
      ensures out.Returned? ==>
                && t.listener == LFinished(out.waited, out.err)
                && Reachable(locked) && locked.listener.LAnnounced? && locked.lock.Free?
                && (out.waited <==> forall a :: a in locked.conns ==> locked.conns[a] in drained)
                && (forall c :: c in drained ==> c < |locked.table| && locked.table[c].place.Queued?)
                && (if out.waited then t.closer.GDone? && out.err == t.closeResult else out.err == None)
    {
      t := Refuse(s, env(0));
      t := YieldAsListener(t, env(0)(1));
      locked, drained := t, [];
      if lock != Free {
        return Blocked, t, locked, drained;
      }
      var n;
      n, t, drained := DrainAndCount(t, (i: nat) => env(i + 2));
      out, t := AwaitListener(n, t, env(1));
      HasRefused(t);
    }

    // ---- Accept ------------------------------------------------------------

    /** The case can be taken. */
    predicate Ready(choice: Case)
      reads this
    {
      match choice
      case FromAcceptCh => acceptCh != []
      case FromReadDone => readDone
      case FromDeadline => true
      case FromDone => doneCloses > 0
    }

    /** When the listener is closed while the read loop still runs and no connection
        is waiting, Accept can answer that the listener is closed, and apart from a
        deadline it answers nothing else. */
    lemma OnlyClosedAnswers(s: State, choice: Case)
      requires Shows(s) && s.doneCloses == 1 && !s.readDone && s.acceptCh == []
      ensures Ready(choice) <==> choice.FromDone? || choice.FromDeadline?
    {
    }

    /** When the read loop is over and the listener open, likewise its error. */
    lemma OnlyReadErrorAnswers(s: State, choice: Case)
      requires Shows(s) && s.doneCloses == 0 && s.readDone && s.acceptCh == []
      ensures Ready(choice) <==> choice.FromReadDone? || choice.FromDeadline?
    {
    }

    /** A connection that is waiting can be accepted in any case. */
    lemma WaitingCanBeAccepted(s: State)
      requires Shows(s) && s.acceptCh != []
      ensures Ready(FromAcceptCh)
    {
    }

    /** The receive of Accept's select. */
    method Receive(s: State) returns (c: ConnId, t: State)
      requires Shows(s) && Reachable(s) && acceptCh != []
      modifies `acceptCh, `table
      ensures Shows(t) && Reachable(t) && [c] + acceptCh == s.acceptCh && t.connWG == s.connWG
      ensures c < |s.table| && s.table[c].place.Queued?
      ensures table == s.table[c := s.table[c].(place := Received)]
    {
      HeadInTable(s);
      ReceiveRun(s);
      c := acceptCh[0];
      acceptCh := acceptCh[1..];
      table := table[c := table[c].(place := Received)];
      t := Take(s, Received);
    }

    /** connWG.Add(1) of the call that has received c. */
    method AddConn(c: ConnId, s: State) returns (t: State)
      requires Shows(s) && Reachable(s) && c < |s.table| && s.table[c].place.Received?
      modifies `connWG, `table
      ensures Shows(t) && Reachable(t) && connWG == s.connWG + 1
      ensures |table| == |s.table| && table[c].addr == s.table[c].addr && table[c].place.HandedOut?
      ensures c in OpenConns(t.table)
    {
      connWG := connWG + 1;
      table := table[c := table[c].(place := HandedOut)];
      t := s.(connWG := s.connWG + 1, table := s.table[c := s.table[c].(place := HandedOut)]);
      ReachableStep(s, Step.Accept(AcceptAdd(c)), t);
      NotYetClosing(s, c);
    }

    /** A select that ends in an error. */
    method Refused(choice: Case, s: State) returns (t: State)
      requires Shows(s) && Reachable(s) && Ready(choice) && !choice.FromAcceptCh?
      ensures Shows(t) && Reachable(t) && t == s
    {
      var called := s.(acceptors := s.acceptors + 1);
      ReachableStep(s, Step.Accept(AcceptCall), called);
      t := s;
      ReachableStep(called, Step.Accept(if choice.FromDeadline? then AcceptDeadline else AcceptRefuse), t);
    }

    /** Accept, from when its select takes a case that is ready.  A connection is the
        oldest in the channel, and open when Accept returns it: whatever the others
        do before the Add, nobody else gets it and nobody closes it. */
    method Accept(choice: Case, s: State, env: seq<Step>) returns (r: Accepted, t: State)
      requires Shows(s) && Reachable(s) && Ready(choice)
      modifies this
      ensures Shows(t) && Reachable(t)
      ensures r == match choice
                   case FromAcceptCh => Accepted.Conn(s.acceptCh[0])
                   case FromReadDone => ErrRead
                   case FromDeadline => ErrDeadlineExceeded
                   case FromDone => ErrClosed
      ensures r.ErrRead? ==> s.readDone
      ensures r.ErrClosed? ==> s.doneCloses > 0
      ensures !choice.FromAcceptCh? ==> t == s
      ensures choice.FromAcceptCh? ==>
                && r.c < |s.table| && s.table[r.c].place.Queued?
                && r.c < |table| && table[r.c].addr == s.table[r.c].addr && table[r.c].place.HandedOut?
                && r.c in OpenConns(t.table)
    {
      match choice {
        case FromAcceptCh =>
          var c;
          c, t := Receive(s);
          t := Yield(t, TheAccept(c), env);
          t := AddConn(c, t);
          r := Accepted.Conn(c);
        case FromReadDone =>
          t := Refused(choice, s);
          r := ErrRead;
        case FromDeadline =>
          t := Refused(choice, s);
          r := ErrDeadlineExceeded;
        case FromDone =>
          t := Refused(choice, s);
          r := ErrClosed;
      }
    }

    // ---- Conn.Close --------------------------------------------------------

    /** The others' turn while c's Close runs. */
    method YieldAsConn(c: ConnId, s: State, env: seq<Step>) returns (t: State)
      requires Shows(s) && Reachable(s) && c < |s.table| && s.table[c].place.HandedOut?
      modifies this
      ensures Shows(t) && Reachable(t) && c < |t.table| && t.table[c].place.HandedOut?
      ensures t.table[c].closing == s.table[c].closing && (t.accepting ==> s.accepting)
      ensures s.lock == ByConn(c) ==> SameUnderLock(s, t)
    {
      t := Yield(s, TheConn(c), env);
    }

    /** connWG.Done */
    method ReleaseConn(c: ConnId, s: State) returns (t: State)
      requires Shows(s) && Reachable(s) && c < |s.table|
      requires s.table[c].place.HandedOut? && s.table[c].closing.CNotCalled?
      modifies `connWG, `table
      ensures Shows(t) && Reachable(t) && connWG == s.connWG - 1 >= 0
      ensures t == With(s, c, s.table[c].(closing := CReleased)).(connWG := s.connWG - 1)
    {
      var k := s.table[c];
      var called := With(s, c, k.(closing := CEntered));
      ReachableConn(s, c, ConnCall, called);
      WithWith(s, c, k.(closing := CEntered), k.(closing := CReleased));
      CountedUntilReleased(s, c);
      connWG := connWG - 1;
      table := table[c := table[c].(closing := CReleased)];
      t := With(s, c, k.(closing := CReleased)).(connWG := s.connWG - 1);
      ReachableConn(called, c, ConnRelease, t);
    }

    /** close(doneCh) */
    method AnnounceConn(c: ConnId, s: State) returns (t: State)
      requires Shows(s) && Reachable(s) && c < |s.table| && s.table[c].closing.CReleased?
      modifies `table
      ensures Shows(t) && Reachable(t)
      ensures t == With(s, c, s.table[c].(closing := CAnnounced, doneCloses := s.table[c].doneCloses + 1))
    {
      table := table[c := table[c].(closing := CAnnounced, doneCloses := table[c].doneCloses + 1)];
      t := With(s, c, s.table[c].(closing := CAnnounced, doneCloses := s.table[c].doneCloses + 1));
      ReachableConn(s, c, ConnAnnounce, t);
    }

    /** Conn.Close up to its Lock. */
    method EnterConn(c: ConnId, s: State, env: nat -> seq<Step>) returns (t: State)
      requires Shows(s) && Reachable(s) && c < |s.table|
      requires s.table[c].place.HandedOut? && s.table[c].closing.CNotCalled?
      modifies this
      ensures Shows(t) && Reachable(t) && c < |t.table| && t.table[c].place.HandedOut? && t.table[c].closing.CAnnounced?
    {
      t := ReleaseConn(c, s);
      t := YieldAsConn(c, t, env(0));
      t := AnnounceConn(c, t);
      t := YieldAsConn(c, t, env(1));
    }

    method LockConn(c: ConnId, s: State) returns (t: State)
      requires Shows(s) && Reachable(s) && c < |s.table| && s.table[c].closing.CAnnounced? && s.lock.Free?
      modifies `lock, `table
      ensures Shows(t) && Reachable(t) && t == With(s, c, s.table[c].(closing := CLocked)).(lock := ByConn(c))
    {
      lock := ByConn(c);
      table := table[c := table[c].(closing := CLocked)];
      t := With(s, c, s.table[c].(closing := CLocked)).(lock := ByConn(c));
      ReachableConn(s, c, ConnLock, t);
    }

    /** The delete and the count. */
    method DeleteConn(c: ConnId, s: State) returns (nConns: nat, t: State)
      requires Shows(s) && Reachable(s) && c < |s.table| && s.table[c].closing.CLocked?
      modifies `conns, `table
      ensures Shows(t) && Reachable(t) && nConns == |t.conns| && WithoutConns(s.conns, [c], t.conns)
      ensures t == With(s, c, s.table[c].(closing := CCounted(nConns))).(conns := t.conns)
    {
      CloseDeletesOwnEntry(s, c);
      t := AfterConn(s, c, ConnDelete);
      ReachableConn(s, c, ConnDelete, t);
      conns := conns - {table[c].addr};
      nConns := |conns|;
      table := table[c := table[c].(closing := CCounted(nConns))];
    }

    method UnlockConn(c: ConnId, n: nat, s: State) returns (t: State)
      requires Shows(s) && Reachable(s) && c < |s.table| && s.table[c].closing == CCounted(n)
      modifies `lock, `table
      ensures Shows(t) && Reachable(t) && t == With(s, c, s.table[c].(closing := CUnlocked(n))).(lock := Free)
    {
      lock := Free;
      table := table[c := table[c].(closing := CUnlocked(n))];
      t := With(s, c, s.table[c].(closing := CUnlocked(n))).(lock := Free);
      ReachableConn(s, c, ConnUnlock, t);
    }

    /** The locked section of Conn.Close, from when it gets the mutex: exactly this
        connection's entry goes. */
    method DeleteAndCount(c: ConnId, s: State, env: nat -> seq<Step>) returns (nConns: nat, t: State)
      requires Shows(s) && Reachable(s) && s.lock.Free?
      requires c < |s.table| && s.table[c].place.HandedOut? && s.table[c].closing.CAnnounced?
      modifies this
      ensures Shows(t) && Reachable(t) && t.lock.Free? && (t.accepting ==> s.accepting)
      ensures c < |t.table| && t.table[c].place.HandedOut? && t.table[c].closing == CUnlocked(nConns)
      ensures WithoutConns(s.conns, [c], t.conns) && nConns == |t.conns|
    {
      t := LockConn(c, s);
      t := YieldAsConn(c, t, env(0));
      nConns, t := DeleteConn(c, t);
      t := YieldAsConn(c, t, env(1));
      t := UnlockConn(c, nConns, t);
    }

    /** The load of accepting and the decision to wait. */
    method DecideConn(c: ConnId, n: nat, s: State) returns (waits: bool, t: State)
      requires Shows(s) && Reachable(s) && c < |s.table| && s.table[c].closing == CUnlocked(n)
      modifies `table
      ensures Shows(t) && Reachable(t) && waits == (n == 0 && !accepting)
      ensures t == With(s, c, s.table[c].(closing := if waits then CWaiting else CClosingQueue(false, None)))
    {
      waits := n == 0 && !accepting;
      table := table[c := table[c].(closing := if waits then CWaiting else CClosingQueue(false, None))];
      t := With(s, c, s.table[c].(closing := if waits then CWaiting else CClosingQueue(false, None)));
      ReachableConn(s, c, ConnDecide, t);
    }

    method WakeConn(c: ConnId, s: State) returns (err: Option<Error>, t: State)
      requires Shows(s) && Reachable(s) && c < |s.table| && s.table[c].closing.CWaiting? && readWG == 0
      modifies `table
      ensures Shows(t) && Reachable(t) && t == With(s, c, s.table[c].(closing := CClosingQueue(true, err)))
    {
      err := errClose;
      table := table[c := table[c].(closing := CClosingQueue(true, err))];
      t := With(s, c, s.table[c].(closing := CClosingQueue(true, errClose)));
      ReachableConn(s, c, ConnWake, t);
    }

    /** queue.Close, whose error counts if there is no other. */
    method CloseQueue(c: ConnId, waited: bool, err: Option<Error>, queueErr: Option<Error>, s: State)
      returns (err': Option<Error>, t: State)
      requires Shows(s) && Reachable(s) && c < |s.table| && s.table[c].closing == CClosingQueue(waited, err)
      modifies `table
      ensures Shows(t) && Reachable(t) && err' == (if err.Some? then err else queueErr)
      ensures t == With(s, c, s.table[c].(closing := CFinished(waited, err')))
    {
      err' := if err.Some? then err else queueErr;
      table := table[c := table[c].(closing := CFinished(waited, err'))];
      t := With(s, c, s.table[c].(closing := CFinished(waited, err')));
      ReachableConn(s, c, ConnCloseQueue(queueErr), t);
    }

    /** The decision and the wait. */
    method WaitConn(c: ConnId, n: nat, s: State, env: nat -> seq<Step>) returns (out: Closed, t: State)
      requires Shows(s) && Reachable(s)
      requires c < |s.table| && s.table[c].place.HandedOut? && s.table[c].closing == CUnlocked(n)
      modifies this
      ensures Shows(t) && Reachable(t) && c < |t.table| && t.table[c].place.HandedOut? && (t.accepting ==> s.accepting)
      ensures out.Blocked? ==> t.table[c].closing.CWaiting? && readWG != 0
      ensures out.Returned? ==> t.table[c].closing == CClosingQueue(out.waited, out.err)
      ensures out.Returned? ==> if out.waited then n == 0 && !accepting
                                else out.err == None && (n == 0 ==> s.accepting)
    {
      t := YieldAsConn(c, s, env(0));
      var waits;
      waits, t := DecideConn(c, n, t);
      if !waits {
        return Returned(false, None), t;
      }
      t := YieldAsConn(c, t, env(1));
      if readWG != 0 {
        return Blocked, t;
      }
      var err;
      err, t := WakeConn(c, t);
      return Returned(true, err), t;
    }

    /** Conn.Close behind its locked section. */
    method AwaitConn(c: ConnId, n: nat, s: State, env: nat -> seq<Step>, queueErr: Option<Error>)
      returns (out: Closed, t: State)
      requires Shows(s) && Reachable(s)
      requires c < |s.table| && s.table[c].place.HandedOut? && s.table[c].closing == CUnlocked(n)
      modifies this
      ensures Shows(t) && Reachable(t) && c < |t.table| && (t.accepting ==> s.accepting)
      ensures out.Blocked? ==> t.table[c].closing.CWaiting? && readWG != 0
      ensures out.Returned? ==>
                && t.table[c].closing == CFinished(out.waited, out.err)
                && (if out.waited then n == 0 && !accepting else n == 0 ==> s.accepting)
                && out.err == (if out.waited && t.closeResult.Some? then t.closeResult else queueErr)
    {
      var err;
      out, t := WaitConn(c, n, s, env);
      if out.Returned? {
        t := YieldAsConn(c, t, env(2));
        ConnWaitedForSocket(t, c);
        err, t := CloseQueue(c, out.waited, out.err, queueErr, t);
        out := Returned(out.waited, err);
      }
    }

    /** Conn.Close.  `locked` is the state in which it gets the mutex and `left` the
        map when it gives it back. */
    method CloseConn(c: ConnId, s: State, env: nat -> nat -> seq<Step>, queueErr: Option<Error>)
      returns (out: Closed, t: State, ghost locked: State, ghost left: map<Addr, ConnId>)
      requires Shows(s) && Reachable(s) && c < |s.table|
      requires s.table[c].place.HandedOut? && s.table[c].closing.CNotCalled?
      modifies this
      ensures Shows(t) && Reachable(t) && c < |table| && table[c].doneCloses == 1
      ensures out.Blocked? ==> || (table[c].closing.CAnnounced? && !lock.Free?)
                               || (table[c].closing.CWaiting? && readWG != 0)
      ensures out.Returned? ==>
                && table[c].closing == CFinished(out.waited, out.err)
                && Reachable(locked) && locked.lock.Free? && WithoutConns(locked.conns, [c], left)
                && (out.waited ==> left == map[] && !accepting)
                && (left == map[] && !locked.accepting ==> out.waited)
                && out.err == (if out.waited && t.closeResult.Some? then t.closeResult else queueErr)
    {
      t := EnterConn(c, s, env(0));
      locked, left := t, map[];
      if lock != Free {
        DoneClosedBy(t, c);
        return Blocked, t, locked, left;
      }
      var n;
      n, t := DeleteAndCount(c, t, env(1));
      left := t.conns;
      out, t := AwaitConn(c, n, t, env(2), queueErr);
      DoneClosedBy(t, c);
    }
  }
}
