/** What every interleaving of the demultiplexer keeps. */
module ProtocolInvariant {
  import opened Wrappers
  import opened Protocol

  // ---- where a program counter is ------------------------------------------

  predicate ReaderHoldsLock(pc: ReaderPc) {
    pc.RLocked? || pc.RMissed? || pc.RAccepting? || pc.RCreating? || pc.RSent? || pc.RUnlocking?
  }

  predicate ListenerHoldsLock(pc: ListenerPc) {
    pc.LDraining? || pc.LClosing? || pc.LDeleting? || pc.LCounted?
  }

  predicate ConnHoldsLock(pc: ConnPc) {
    pc.CLocked? || pc.CCounted?
  }

  /** The body has run `delete(conns, rAddr)`. */
  predicate Deleted(pc: ConnPc) {
    pc.CCounted? || pc.CUnlocked? || pc.CWaiting? || pc.CClosingQueue? || pc.CFinished?
  }

  /** The body has run `close(doneCh)`. */
  predicate Announced(pc: ConnPc) {
    pc.CAnnounced? || pc.CLocked? || Deleted(pc)
  }

  /** The drain is over and its connections are counted. */
  predicate Swept(pc: ListenerPc) {
    pc.LCounted? || pc.LUnlocked? || pc.LReleased? || pc.LWaiting? || pc.LFinished?
  }

  /** supConn.Close has run connWG.Done. */
  predicate ListenerReleased(pc: ListenerPc) {
    pc.LReleased? || pc.LWaiting? || pc.LFinished?
  }

  /** Handed out, and Conn.Close has not yet run connWG.Done. */
  predicate Open(k: Conn) {
    k.place.HandedOut? && (k.closing.CNotCalled? || k.closing.CEntered?)
  }

  ghost function OpenConns(table: seq<Conn>): set<ConnId> {
    set c: ConnId | c < |table| && Open(table[c])
  }

  // ---- the invariant, part by part -----------------------------------------

  /** The mutex is held by exactly the goroutine whose counter is inside. */
  ghost predicate LockInv(s: State) {
    && (s.lock == ByReader <==> ReaderHoldsLock(s.reader))
    && (s.lock == ByListener <==> ListenerHoldsLock(s.listener))
    && (forall c: ConnId :: c < |s.table| ==> (s.lock == ByConn(c) <==> ConnHoldsLock(s.table[c].closing)))
    && (s.lock.ByConn? ==> s.lock.c < |s.table|)
  }

  /** acceptCh is a first-in first-out queue through which every connection
      passes once. */
  ghost predicate ChannelInv(s: State) {
    && s.sent == s.taken + s.acceptCh
    && |s.sent| == |s.table|
    && (forall i: nat :: i < |s.sent| ==> s.sent[i] == i)
    && (forall c: ConnId :: c < |s.table| ==> (s.table[c].place.Queued? <==> |s.taken| <= c))
    && |s.acceptCh| <= s.backlog
  }

  /** What a connection's place says about its Close and its doneCh. */
  ghost predicate ConnInv(s: State) {
    && (s.listener.LClosing? || s.listener.LDeleting? ==>
          s.listener.c < |s.table| && s.table[s.listener.c].place.Drained?)
    && (forall c: ConnId :: c < |s.table| ==> ConnOk(s.table[c], s.listener == LClosing(c)))
    && (s.reader.RSent? ==>
          && IsConnOf(s, s.reader.c, s.reader.p)
          && !s.table[s.reader.c].place.Drained?
          && !Deleted(s.table[s.reader.c].closing))
  }

  /** Close is only called on what Accept handed out; doneCh is closed once, by
      the drain or by Close.  `pending`: the drain took k and has not closed it. */
  predicate ConnOk(k: Conn, pending: bool) {
    && (!k.closing.CNotCalled? ==> k.place.HandedOut?)
    && k.doneCloses == if (k.place.Drained? && !pending) || Announced(k.closing) then 1 else 0
  }

  /** c is due an entry in the map: it was inserted and neither Conn.Close nor
      the drain has deleted it. */
  predicate Registered(s: State, c: ConnId)
    requires c < |s.table|
  {
    var k := s.table[c];
    || (!k.place.Drained? && !Deleted(k.closing) && !(s.reader.RSent? && s.reader.c == c))
    || s.listener == LClosing(c)
    || s.listener == LDeleting(c)
  }

  /** The map holds exactly the connections due an entry, each under its address. */
  ghost predicate MapInv(s: State) {
    && (forall a :: a in s.conns ==>
          s.conns[a] < |s.table| && s.table[s.conns[a]].addr == a && Registered(s, s.conns[a]))
    && (forall c: ConnId {:trigger s.table[c]} :: c < |s.table| && Registered(s, c) ==>
          s.table[c].addr in s.conns && s.conns[s.table[c].addr] == c)
    && (s.reader.RMissed? || s.reader.RAccepting? || s.reader.RCreating? || s.reader.RSent? ==>
          s.reader.p.addr !in s.conns)
    && (s.reader.RUnlocking? && s.reader.to.Some? ==> IsConnOf(s, s.reader.to.value, s.reader.p))
    && (s.reader.RPushing? ==> IsConnOf(s, s.reader.c, s.reader.p))
  }

  predicate IsConnOf(s: State, c: ConnId, p: Packet) {
    c < |s.table| && s.table[c].addr == p.addr
  }

  /** The two wait groups count what they are there to count. */
  ghost predicate WaitGroupInv(s: State) {
    && s.connWG == (if ListenerReleased(s.listener) then 0 else 1) + |OpenConns(s.table)|
    && s.readWG == (if s.closer.GDone? then 0 else 1) + (if s.reader.RDone? then 0 else 1)
  }

  /** The accepting flag, the listener's doneCh, and the end of creation. */
  ghost predicate SweepInv(s: State) {
    && (s.accepting <==> s.listener.LNotCalled? || s.listener.LEntered?)
    && s.doneCloses == (if s.accepting || s.listener.LRefusing? then 0 else 1)
    && (Swept(s.listener) ==> s.acceptCh == [] && !s.reader.RAccepting? && !s.reader.RCreating? && !s.reader.RSent?)
    && (s.readDone <==> s.reader.RAnnounced? || s.reader.RDone?)
  }

  /** The socket and the error its close left. */
  ghost predicate SocketInv(s: State) {
    && (s.socketOpen <==> s.closer.GWaiting? || s.closer.GClosing?)
    && s.errClose == (if s.closer.GReporting? || s.closer.GDone? then s.closeResult else None)
    && (s.listener.LFinished? && s.listener.waited ==> s.closer.GDone? && s.listener.err == s.closeResult)
    && (forall c: ConnId :: c < |s.table| ==> ReportOk(s, s.table[c].closing))
    && (!s.closer.GWaiting? ==> ListenerReleased(s.listener))
  }

  /** A Conn.Close that waited carries the socket's close error, if there was one. */
  predicate ReportOk(s: State, pc: ConnPc) {
    (pc.CClosingQueue? || pc.CFinished?) && pc.waited ==>
      && s.closer.GDone?
      && (s.closeResult.Some? ==> pc.err == s.closeResult)
      && (pc.CClosingQueue? ==> pc.err == s.closeResult)
  }

  predicate ListenerWillWait(pc: ListenerPc) {
    || ((pc.LCounted? || pc.LUnlocked? || pc.LReleased?) && pc.n == 0)
    || pc.LWaiting?
    || (pc.LFinished? && pc.waited)
  }

  predicate ConnWillWait(pc: ConnPc) {
    || ((pc.CCounted? || pc.CUnlocked?) && pc.n == 0)
    || pc.CWaiting?
    || ((pc.CClosingQueue? || pc.CFinished?) && pc.waited)
  }

  ghost predicate SomeoneWillWait(s: State) {
    || ListenerWillWait(s.listener)
    || exists c: ConnId :: c < |s.table| && ConnWillWait(s.table[c].closing)
  }

  /** Once the listener has counted, the map cannot run empty without somebody
      having seen it empty. */
  ghost predicate WaiterInv(s: State) {
    Swept(s.listener) ==> |s.conns| > 0 || SomeoneWillWait(s)
  }

  ghost predicate Inv(s: State) {
    && LockInv(s)
    && ChannelInv(s)
    && ConnInv(s)
    && MapInv(s)
    && WaitGroupInv(s)
    && SweepInv(s)
    && SocketInv(s)
    && WaiterInv(s)
  }

  // ---- it is inductive -----------------------------------------------------

  lemma InitKeeps(s: State)
    requires Init(s)
    ensures Inv(s)
  {
  }

  lemma HeadIsQueued(s: State)
    requires ChannelInv(s) && s.acceptCh != []
    ensures s.acceptCh[0] == |s.taken| < |s.table| && s.table[s.acceptCh[0]].place.Queued?
  {
    assert s.sent[|s.taken|] == s.acceptCh[0];
  }

  lemma TakeKeepsChannel(s: State, place: Place)
    requires ChannelInv(s) && CanTake(s) && !place.Queued?
    ensures ChannelInv(Take(s, place))
  {
    HeadIsQueued(s);
    assert s.acceptCh == [s.acceptCh[0]] + s.acceptCh[1..];
  }

  lemma OpenUpdate(table: seq<Conn>, c: ConnId, k: Conn)
    requires c < |table|
    ensures |OpenConns(table[c := k])| ==
            |OpenConns(table)| - (if Open(table[c]) then 1 else 0) + (if Open(k) then 1 else 0)
  {
    var others := OpenConns(table) - {c};
    assert OpenConns(table) == if Open(table[c]) then others + {c} else others;
    assert OpenConns(table[c := k]) == if Open(k) then others + {c} else others;
  }

  lemma OpenAppend(table: seq<Conn>, k: Conn)
    requires !Open(k)
    ensures OpenConns(table + [k]) == OpenConns(table)
  {
  }

  /** A step that touches neither the map nor anyone's claim to an entry. */
  lemma SameClaimsKeepMap(s: State, t: State)
    requires MapInv(s) && t.conns == s.conns && t.reader == s.reader && |t.table| == |s.table|
    requires forall c: ConnId {:trigger t.table[c]} :: c < |s.table| ==>
               t.table[c].addr == s.table[c].addr && Registered(t, c) == Registered(s, c)
    ensures MapInv(t)
  {
    forall a | a in t.conns
      ensures t.conns[a] < |t.table| && t.table[t.conns[a]].addr == a && Registered(t, t.conns[a])
    {
      assert t.table[s.conns[a]].addr == s.table[s.conns[a]].addr;
    }
  }

  // The socket-closing goroutine.

  lemma CloserKeeps(s: State, step: CloserStep)
    requires Inv(s) && CloserEnabled(s, step)
    ensures Inv(AfterCloser(s, step))
  {
  }

  // Accept.

  lemma AcceptKeepsTable(s: State, step: AcceptStep)
    requires ChannelInv(s) && ConnInv(s) && AcceptEnabled(s, step)
    ensures ChannelInv(AfterAccept(s, step)) && ConnInv(AfterAccept(s, step))
  {
    if step.AcceptReceive? {
      HeadIsQueued(s);
      TakeKeepsChannel(s, Received);
    }
  }

  lemma AcceptKeepsMap(s: State, step: AcceptStep)
    requires ChannelInv(s) && ConnInv(s) && MapInv(s) && AcceptEnabled(s, step)
    ensures MapInv(AfterAccept(s, step))
  {
    if step.AcceptReceive? {
      HeadIsQueued(s);
    }
    var t := AfterAccept(s, step);
    forall c: ConnId | c < |s.table|
      ensures t.table[c].addr == s.table[c].addr && Registered(t, c) == Registered(s, c)
    {
      assert t.table[c].closing == s.table[c].closing && t.table[c].place.Drained? == s.table[c].place.Drained?;
    }
    SameClaimsKeepMap(s, t);
  }

  lemma AcceptKeepsWaitGroup(s: State, step: AcceptStep)
    requires ChannelInv(s) && ConnInv(s) && WaitGroupInv(s) && AcceptEnabled(s, step)
    ensures WaitGroupInv(AfterAccept(s, step))
  {
    match step
    case AcceptReceive =>
      HeadIsQueued(s);
      OpenUpdate(s.table, s.acceptCh[0], s.table[s.acceptCh[0]].(place := Received));
    case AcceptAdd(c) =>
      OpenUpdate(s.table, c, s.table[c].(place := HandedOut));
    case _ =>
  }

  lemma AcceptKeepsRest(s: State, step: AcceptStep)
    requires LockInv(s) && ChannelInv(s) && SweepInv(s) && SocketInv(s) && WaiterInv(s) && AcceptEnabled(s, step)
    ensures var t := AfterAccept(s, step); LockInv(t) && SweepInv(t) && SocketInv(t) && WaiterInv(t)
  {
  }

  // The read loop.

  lemma SendKeepsChannel(s: State)
    requires ChannelInv(s) && s.reader.RCreating?
    ensures ChannelInv(Send(s))
  {
    var t := Send(s);
    if t.table != s.table {
      assert t.sent == s.taken + t.acceptCh;
      assert forall c: ConnId :: c < |s.table| ==> t.table[c] == s.table[c];
    }
  }

  lemma SendKeepsConns(s: State)
    requires ConnInv(s) && s.reader.RCreating?
    ensures ConnInv(Send(s))
  {
    var t := Send(s);
    if t.table != s.table {
      forall c: ConnId | c < |t.table|
        ensures ConnOk(t.table[c], t.listener == LClosing(c))
      {
        if c < |s.table| {
          assert t.table[c] == s.table[c];
        }
      }
    }
  }

  /** No other step of the read loop touches the channel or a connection. */
  lemma ReaderLeavesTable(s: State, step: ReaderStep)
    requires ReaderEnabled(s, step) && !step.ReaderSend?
    ensures var t := AfterReader(s, step);
            && t == s.(reader := t.reader, lock := t.lock, conns := t.conns, readDone := t.readDone, readWG := t.readWG)
            && !t.reader.RSent?
  {
  }

  lemma ReaderKeepsTable(s: State, step: ReaderStep)
    requires ChannelInv(s) && ConnInv(s) && ReaderEnabled(s, step)
    ensures ChannelInv(AfterReader(s, step)) && ConnInv(AfterReader(s, step))
  {
    if step.ReaderSend? {
      SendKeepsChannel(s);
      SendKeepsConns(s);
    } else {
      ReaderLeavesTable(s, step);
    }
  }

  lemma SendKeepsMap(s: State)
    requires LockInv(s) && ConnInv(s) && MapInv(s) && s.reader.RCreating?
    ensures MapInv(Send(s))
  {
    var t := Send(s);
    if t.table != s.table {
      forall c: ConnId | c < |s.table|
        ensures t.table[c] == s.table[c] && Registered(t, c) == Registered(s, c)
      {
      }
      assert !Registered(t, |s.table|);
    }
  }

  lemma InsertKeepsMap(s: State)
    requires LockInv(s) && ConnInv(s) && MapInv(s) && s.reader.RSent?
    ensures MapInv(AfterReader(s, ReaderInsert))
  {
    var t := AfterReader(s, ReaderInsert);
    assert forall c: ConnId :: c < |s.table| && c != s.reader.c ==> (Registered(t, c) <==> Registered(s, c));
  }

  /** The other steps leave the map alone and know what they found in it. */
  lemma ReaderFinds(s: State, step: ReaderStep)
    requires MapInv(s) && ReaderEnabled(s, step) && !step.ReaderSend? && !step.ReaderInsert?
    ensures var t := AfterReader(s, step);
            && t.conns == s.conns && !s.reader.RSent?
            && (t.reader.RMissed? || t.reader.RAccepting? || t.reader.RCreating? ==> t.reader.p.addr !in s.conns)
            && (t.reader.RUnlocking? && t.reader.to.Some? ==> IsConnOf(s, t.reader.to.value, t.reader.p))
            && (t.reader.RPushing? ==> IsConnOf(s, t.reader.c, t.reader.p))
  {
  }

  lemma ReaderKeepsMap(s: State, step: ReaderStep)
    requires LockInv(s) && ConnInv(s) && MapInv(s) && ReaderEnabled(s, step)
    ensures MapInv(AfterReader(s, step))
  {
    if step.ReaderSend? {
      SendKeepsMap(s);
    } else if step.ReaderInsert? {
      InsertKeepsMap(s);
    } else {
      ReaderLeavesTable(s, step);
      ReaderFinds(s, step);
    }
  }

  lemma ReaderKeepsWaitGroup(s: State, step: ReaderStep)
    requires WaitGroupInv(s) && ReaderEnabled(s, step)
    ensures WaitGroupInv(AfterReader(s, step))
  {
    if step.ReaderSend? {
      OpenAppend(s.table, Conn(s.reader.p.addr, Queued, CNotCalled, 0, 0));
    }
  }

  lemma ReaderKeepsSweep(s: State, step: ReaderStep)
    requires LockInv(s) && SweepInv(s) && ReaderEnabled(s, step)
    ensures LockInv(AfterReader(s, step)) && SweepInv(AfterReader(s, step))
  {
  }

  lemma ReaderKeepsRest(s: State, step: ReaderStep)
    requires SweepInv(s) && SocketInv(s) && WaiterInv(s) && ReaderEnabled(s, step)
    ensures SocketInv(AfterReader(s, step)) && WaiterInv(AfterReader(s, step))
  {
  }

  // supConn.Close.

  lemma ListenerKeepsTable(s: State, step: ListenerStep)
    requires LockInv(s) && ChannelInv(s) && ConnInv(s) && ListenerEnabled(s, step)
    ensures ChannelInv(AfterListener(s, step)) && ConnInv(AfterListener(s, step))
  {
    if step.ListenerTake? {
      HeadIsQueued(s);
      TakeKeepsChannel(s, Drained);
    }
  }

  /** Only the drain's take and delete touch the map or a claim to an entry. */
  lemma ListenerKeepsMap(s: State, step: ListenerStep)
    requires LockInv(s) && ChannelInv(s) && ConnInv(s) && MapInv(s) && ListenerEnabled(s, step)
    ensures MapInv(AfterListener(s, step))
  {
    if step.ListenerTake? {
      DrainTakeKeepsMap(s);
    } else if step.ListenerDelete? {
      DrainDeleteKeepsMap(s);
    } else {
      ListenerKeepsClaims(s, step);
      SameClaimsKeepMap(s, AfterListener(s, step));
    }
  }

  lemma ListenerKeepsClaims(s: State, step: ListenerStep)
    requires ListenerEnabled(s, step) && !step.ListenerTake? && !step.ListenerDelete?
    ensures var t := AfterListener(s, step);
            && t.conns == s.conns && t.reader == s.reader && |t.table| == |s.table|
            && (forall c: ConnId {:trigger t.table[c]} :: c < |s.table| ==>
                  t.table[c].addr == s.table[c].addr && Registered(t, c) == Registered(s, c))
  {
    var t := AfterListener(s, step);
    forall c: ConnId | c < |s.table|
      ensures t.table[c].addr == s.table[c].addr && Registered(t, c) == Registered(s, c)
    {
      assert t.table[c].place == s.table[c].place && t.table[c].closing == s.table[c].closing;
    }
  }

  lemma DrainTakeKeepsMap(s: State)
    requires LockInv(s) && ChannelInv(s) && ConnInv(s) && MapInv(s) && ListenerEnabled(s, ListenerTake)
    ensures MapInv(AfterListener(s, ListenerTake))
  {
    HeadIsQueued(s);
  }

  lemma DrainDeleteKeepsMap(s: State)
    requires LockInv(s) && ConnInv(s) && MapInv(s) && ListenerEnabled(s, ListenerDelete)
    ensures MapInv(AfterListener(s, ListenerDelete))
  {
  }

  lemma ListenerKeepsWaitGroup(s: State, step: ListenerStep)
    requires ChannelInv(s) && ConnInv(s) && WaitGroupInv(s) && ListenerEnabled(s, step)
    ensures WaitGroupInv(AfterListener(s, step))
  {
    match step
    case ListenerTake =>
      HeadIsQueued(s);
      OpenUpdate(s.table, s.acceptCh[0], s.table[s.acceptCh[0]].(place := Drained));
    case ListenerCloseConn =>
      var k := s.table[s.listener.c];
      OpenUpdate(s.table, s.listener.c, k.(doneCloses := k.doneCloses + 1));
    case _ =>
  }

  /** supConn.Close touches no program counter but its own. */
  lemma ListenerLeavesOthers(s: State, step: ListenerStep)
    requires ListenerEnabled(s, step)
    ensures var t := AfterListener(s, step);
            && t.reader == s.reader && t.closer == s.closer && |t.table| == |s.table|
            && (forall c: ConnId :: c < |s.table| ==> t.table[c].closing == s.table[c].closing)
            && t.socketOpen == s.socketOpen && t.errClose == s.errClose && t.closeResult == s.closeResult
  {
  }

  lemma ListenerKeepsLock(s: State, step: ListenerStep)
    requires LockInv(s) && ListenerEnabled(s, step)
    ensures LockInv(AfterListener(s, step))
  {
    ListenerLeavesOthers(s, step);
    ListenerTakesLock(s, step);
  }

  lemma ListenerTakesLock(s: State, step: ListenerStep)
    requires ListenerEnabled(s, step) && (s.lock == ByListener <==> ListenerHoldsLock(s.listener))
    ensures var t := AfterListener(s, step);
            && (t.lock == ByListener <==> ListenerHoldsLock(t.listener))
            && (t.lock == s.lock || (s.lock == Free && t.lock == ByListener) || (s.lock == ByListener && t.lock == Free))
  {
  }

  lemma ListenerKeepsSweep(s: State, step: ListenerStep)
    requires LockInv(s) && SweepInv(s) && ListenerEnabled(s, step)
    ensures SweepInv(AfterListener(s, step))
  {
  }

  lemma ListenerKeepsSocket(s: State, step: ListenerStep)
    requires WaitGroupInv(s) && SocketInv(s) && ListenerEnabled(s, step)
    ensures SocketInv(AfterListener(s, step))
  {
    ListenerLeavesOthers(s, step);
    ListenerReports(s, step);
    assert forall c: ConnId :: c < |s.table| ==> ReportOk(s, s.table[c].closing);
  }

  lemma ListenerReports(s: State, step: ListenerStep)
    requires WaitGroupInv(s) && ListenerEnabled(s, step)
    ensures var t := AfterListener(s, step);
            && (ListenerReleased(s.listener) ==> ListenerReleased(t.listener))
            && (t.listener.LFinished? && t.listener.waited ==>
                  t.listener == s.listener || (s.closer.GDone? && t.listener.err == s.errClose))
  {
  }

  lemma ListenerKeepsWaiter(s: State, step: ListenerStep)
    requires WaiterInv(s) && ListenerEnabled(s, step)
    ensures WaiterInv(AfterListener(s, step))
  {
    var t := AfterListener(s, step);
    ListenerLeavesOthers(s, step);
    if Swept(s.listener) {
      ListenerWaits(s, step);
      if |s.conns| == 0 && !ListenerWillWait(s.listener) {
        var c: ConnId :| c < |s.table| && ConnWillWait(s.table[c].closing);
        assert ConnWillWait(t.table[c].closing);
      }
    } else {
      ListenerSweeps(s, step);
    }
  }

  lemma ListenerWaits(s: State, step: ListenerStep)
    requires ListenerEnabled(s, step) && Swept(s.listener)
    ensures var t := AfterListener(s, step);
            t.conns == s.conns && (ListenerWillWait(s.listener) ==> ListenerWillWait(t.listener))
  {
  }

  lemma ListenerSweeps(s: State, step: ListenerStep)
    requires ListenerEnabled(s, step) && !Swept(s.listener)
    ensures var t := AfterListener(s, step);
            Swept(t.listener) ==> t.listener == LCounted(|t.conns|)
  {
  }

  // Conn.Close.

  /** t is s after a step of c's Close: only c's record, the lock, the map and
      connWG can differ, and c keeps its address and its place. */
  ghost predicate ConnMoves(s: State, c: ConnId, t: State) {
    && c < |s.table| == |t.table|
    && t == s.(table := t.table, lock := t.lock, conns := t.conns, connWG := t.connWG)
    && (forall d: ConnId :: d < |s.table| && d != c ==> t.table[d] == s.table[d])
    && t.table[c].addr == s.table[c].addr
    && t.table[c].place == s.table[c].place
  }

  lemma ConnStepMoves(s: State, c: ConnId, step: ConnStep)
    requires c < |s.table| && ConnEnabled(s, c, step)
    ensures ConnMoves(s, c, AfterConn(s, c, step))
  {
  }

  lemma ConnStepOk(s: State, c: ConnId, step: ConnStep)
    requires c < |s.table| && ConnOk(s.table[c], s.listener == LClosing(c)) && ConnEnabled(s, c, step)
    ensures var t := AfterConn(s, c, step);
            |t.table| == |s.table| && ConnOk(t.table[c], s.listener == LClosing(c))
  {
  }

  lemma ConnStepDeletes(s: State, c: ConnId, step: ConnStep)
    requires c < |s.table| && ConnEnabled(s, c, step) && !step.ConnDelete?
    ensures var t := AfterConn(s, c, step);
            |t.table| == |s.table| && t.conns == s.conns && Deleted(t.table[c].closing) == Deleted(s.table[c].closing)
  {
  }

  lemma ConnStepReleases(s: State, c: ConnId, step: ConnStep)
    requires c < |s.table| && (!s.table[c].closing.CNotCalled? ==> s.table[c].place.HandedOut?) && ConnEnabled(s, c, step)
    ensures var t := AfterConn(s, c, step);
            && |t.table| == |s.table|
            && t.connWG == s.connWG - (if step.ConnRelease? then 1 else 0)
            && Open(s.table[c]) == (Open(t.table[c]) || step.ConnRelease?)
            && (step.ConnRelease? ==> !Open(t.table[c]))
  {
  }

  lemma MoveKeepsTable(s: State, c: ConnId, t: State)
    requires ChannelInv(s) && ConnInv(s) && ConnMoves(s, c, t)
    requires ConnOk(t.table[c], s.listener == LClosing(c))
    requires s.reader.RSent? && s.reader.c == c ==> !Deleted(t.table[c].closing)
    ensures ChannelInv(t) && ConnInv(t)
  {
  }

  lemma MoveKeepsMap(s: State, c: ConnId, t: State)
    requires MapInv(s) && ConnMoves(s, c, t)
    requires t.conns == s.conns && Deleted(t.table[c].closing) == Deleted(s.table[c].closing)
    ensures MapInv(t)
  {
    forall d: ConnId | d < |s.table|
      ensures t.table[d].addr == s.table[d].addr && Registered(t, d) == Registered(s, d)
    {
      assert d != c ==> t.table[d] == s.table[d];
    }
    SameClaimsKeepMap(s, t);
  }

  lemma DeleteKeepsMap(s: State, c: ConnId, t: State)
    requires MapInv(s) && ConnMoves(s, c, t) && t.conns == s.conns - {s.table[c].addr}
    requires Registered(s, c) && !Registered(t, c) && !s.reader.RSent?
    ensures MapInv(t)
  {
    forall d: ConnId | d < |t.table| && Registered(t, d)
      ensures t.table[d].addr in t.conns && t.conns[t.table[d].addr] == d
    {
      assert t.table[d] == s.table[d] && Registered(s, d);
      assert s.conns[s.table[c].addr] == c;
    }
  }

  lemma ConnTakesLock(s: State, c: ConnId, step: ConnStep)
    requires c < |s.table| && ConnEnabled(s, c, step) && (s.lock == ByConn(c) <==> ConnHoldsLock(s.table[c].closing))
    ensures var t := AfterConn(s, c, step);
            && |t.table| == |s.table|
            && (t.lock == ByConn(c) <==> ConnHoldsLock(t.table[c].closing))
            && (t.lock == s.lock || (s.lock == Free && t.lock == ByConn(c)) || (s.lock == ByConn(c) && t.lock == Free))
  {
  }

  lemma ConnKeepsLock(s: State, c: ConnId, step: ConnStep)
    requires LockInv(s) && c < |s.table| && ConnEnabled(s, c, step) && ConnMoves(s, c, AfterConn(s, c, step))
    ensures LockInv(AfterConn(s, c, step))
  {
    ConnTakesLock(s, c, step);
  }

  lemma ConnKeepsReport(s: State, c: ConnId, step: ConnStep)
    requires WaitGroupInv(s) && SocketInv(s) && c < |s.table| && ConnEnabled(s, c, step)
    ensures |AfterConn(s, c, step).table| == |s.table|
    ensures ReportOk(s, AfterConn(s, c, step).table[c].closing)
  {
    assert ReportOk(s, s.table[c].closing);
  }

  lemma ConnKeepsSocket(s: State, c: ConnId, step: ConnStep)
    requires WaitGroupInv(s) && SocketInv(s) && c < |s.table| && ConnEnabled(s, c, step)
    requires ConnMoves(s, c, AfterConn(s, c, step))
    ensures SocketInv(AfterConn(s, c, step))
  {
    var t := AfterConn(s, c, step);
    ConnKeepsReport(s, c, step);
    forall d: ConnId | d < |t.table|
      ensures ReportOk(t, t.table[d].closing)
    {
      assert ReportOk(s, t.table[d].closing);
    }
  }

  /** Whoever was going to wait still is; and a delete remembers what it left. */
  lemma ConnStepWaits(s: State, c: ConnId, step: ConnStep)
    requires c < |s.table| && ConnEnabled(s, c, step) && !s.accepting
    ensures var t := AfterConn(s, c, step);
            && (ConnWillWait(s.table[c].closing) ==> ConnWillWait(t.table[c].closing))
            && (step.ConnDelete? ==> t.table[c].closing == CCounted(|t.conns|))
  {
  }

  lemma MoveKeepsWaiter(s: State, c: ConnId, t: State)
    requires WaiterInv(s) && ConnMoves(s, c, t)
    requires Swept(s.listener) ==>
               && (ConnWillWait(s.table[c].closing) ==> ConnWillWait(t.table[c].closing))
               && (|s.conns| > 0 && |t.conns| == 0 ==> ConnWillWait(t.table[c].closing))
    ensures WaiterInv(t)
  {
    if Swept(s.listener) && |s.conns| == 0 && !ListenerWillWait(s.listener) {
      var d: ConnId :| d < |s.table| && ConnWillWait(s.table[d].closing);
      assert ConnWillWait(t.table[d].closing);
    }
  }

  lemma ConnKeepsTable(s: State, c: ConnId, step: ConnStep)
    requires LockInv(s) && ChannelInv(s) && ConnInv(s) && c < |s.table| && ConnEnabled(s, c, step)
    ensures ChannelInv(AfterConn(s, c, step)) && ConnInv(AfterConn(s, c, step))
  {
    ConnStepMoves(s, c, step);
    ConnStepOk(s, c, step);
    if !step.ConnDelete? {
      ConnStepDeletes(s, c, step);
    }
    MoveKeepsTable(s, c, AfterConn(s, c, step));
  }

  /** Under the lock, c's entry is in the map and nobody else's delete is on its way. */
  lemma DeleteClaim(s: State, c: ConnId)
    requires LockInv(s) && ConnInv(s) && c < |s.table| && s.table[c].closing.CLocked?
    ensures Registered(s, c) && !s.reader.RSent? && s.listener != LClosing(c) && s.listener != LDeleting(c)
  {
    assert ConnOk(s.table[c], s.listener == LClosing(c));
  }

  lemma DeleteEffect(s: State, c: ConnId)
    requires c < |s.table| && ConnEnabled(s, c, ConnDelete)
    ensures var t := AfterConn(s, c, ConnDelete);
            && |t.table| == |s.table| && t.listener == s.listener
            && t.conns == s.conns - {s.table[c].addr} && Deleted(t.table[c].closing)
  {
  }

  lemma ConnKeepsMap(s: State, c: ConnId, step: ConnStep)
    requires LockInv(s) && ConnInv(s) && MapInv(s) && c < |s.table| && ConnEnabled(s, c, step)
    ensures MapInv(AfterConn(s, c, step))
  {
    ConnStepMoves(s, c, step);
    if step.ConnDelete? {
      DeleteClaim(s, c);
      DeleteEffect(s, c);
      DeleteKeepsMap(s, c, AfterConn(s, c, step));
    } else {
      ConnStepDeletes(s, c, step);
      MoveKeepsMap(s, c, AfterConn(s, c, step));
    }
  }

  lemma ConnKeepsRest(s: State, c: ConnId, step: ConnStep)
    requires LockInv(s) && ConnInv(s) && WaitGroupInv(s) && SweepInv(s) && WaiterInv(s)
    requires c < |s.table| && ConnEnabled(s, c, step)
    ensures var t := AfterConn(s, c, step); WaitGroupInv(t) && SweepInv(t) && WaiterInv(t)
  {
    var t := AfterConn(s, c, step);
    ConnStepMoves(s, c, step);
    ConnStepReleases(s, c, step);
    OpenUpdate(s.table, c, t.table[c]);
    assert t.table == s.table[c := t.table[c]];
    if Swept(s.listener) {
      ConnStepWaits(s, c, step);
      if !step.ConnDelete? {
        ConnStepDeletes(s, c, step);
      }
    }
    MoveKeepsWaiter(s, c, t);
  }

  // All together.

  /** Nobody but the goroutine itself moves the socket-closing goroutine. */
  lemma OthersLeaveCloser(s: State, step: Step)
    requires Enabled(s, step) && !step.Closer?
    ensures After(s, step).closer == s.closer && After(s, step).closeResult == s.closeResult
  {
    match step
    case Reader(r) =>
      if !r.ReaderSend? {
        ReaderLeavesTable(s, r);
      }
    case Accept(a) =>
    case Listener(l) => ListenerLeavesOthers(s, l);
    case OfConn(c, k) => ConnStepMoves(s, c, k);
  }

  lemma StepKeeps(s: State, step: Step)
    requires Inv(s) && Enabled(s, step)
    ensures Inv(After(s, step))
  {
    match step
    case Reader(r) =>
      ReaderKeepsTable(s, r);
      ReaderKeepsMap(s, r);
      ReaderKeepsWaitGroup(s, r);
      ReaderKeepsSweep(s, r);
      ReaderKeepsRest(s, r);
    case Closer(g) =>
      CloserKeeps(s, g);
    case Accept(a) =>
      AcceptKeepsTable(s, a);
      AcceptKeepsMap(s, a);
      AcceptKeepsWaitGroup(s, a);
      AcceptKeepsRest(s, a);
    case Listener(l) =>
      ListenerKeepsTable(s, l);
      ListenerKeepsMap(s, l);
      ListenerKeepsWaitGroup(s, l);
      ListenerKeepsSweep(s, l);
      ListenerKeepsLock(s, l);
      ListenerKeepsSocket(s, l);
      ListenerKeepsWaiter(s, l);
    case OfConn(c, k) =>
      ConnStepMoves(s, c, k);
      ConnKeepsLock(s, c, k);
      ConnKeepsTable(s, c, k);
      ConnKeepsMap(s, c, k);
      ConnKeepsSocket(s, c, k);
      ConnKeepsRest(s, c, k);
  }

  lemma {:induction false} RunKeeps(s: State, steps: seq<Step>, t: State)
    requires Inv(s) && Leads(s, steps, t)
    ensures Inv(t)
    decreases |steps|
  {
    if steps != [] {
      StepKeeps(s, steps[0]);
      RunKeeps(After(s, steps[0]), steps[1..], t);
    }
  }

  /** The invariant holds in every state of every run. */
  lemma ReachableInv(t: State)
    requires Reachable(t)
    ensures Inv(t)
  {
    var s, steps :| Init(s) && Leads(s, steps, t);
    InitKeeps(s);
    RunKeeps(s, steps, t);
  }
}
