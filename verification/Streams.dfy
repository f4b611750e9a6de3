/** What a connection's reader gets of what arrives from its address. */
module Streams {
  import opened Wrappers
  import opened Protocol
  import opened ProtocolInvariant
  import opened Traffic

  // ---- the invariant -------------------------------------------------------

  predicate Carrying(pc: ReaderPc) {
    pc.RDispatching? || pc.RLocked? || pc.RMissed? || pc.RAccepting? || pc.RCreating? || pc.RSent?
    || pc.RUnlocking? || pc.RPushing?
  }

  /** The packet the read loop is bringing to connection c, if it is. */
  function Bringing(pc: ReaderPc, c: ConnId): Option<Packet> {
    match pc
    case RSent(p, d) => if d == c then Some(p) else None
    case RUnlocking(p, to) => if to == Some(c) then Some(p) else None
    case RPushing(p, d) => if d == c then Some(p) else None
    case _ => None
  }

  /** How many arrivals the read loop is done with. */
  function Handled(w: World): int {
    |w.arrivals| - if Carrying(w.ctl.reader) then 1 else 0
  }

  /** xs are the entries of ys numbered by `at`, in order, all before `bound`. */
  ghost predicate PickedInOrder(xs: seq<Packet>, at: seq<nat>, ys: seq<Packet>, bound: int) {
    && |xs| == |at|
    && (forall i :: 0 <= i < |at| ==> at[i] < bound && at[i] < |ys| && xs[i] == ys[at[i]])
    && (forall i, j :: 0 <= i < j < |at| ==> at[i] < at[j])
  }

  /** What the read loop carries is the last arrival, in buffers of the right kind. */
  ghost predicate CarryOk(w: World) {
    && (Carrying(w.ctl.reader) ==>
          && w.data.Some? && w.oob.Some?
          && w.arrivals != [] && w.arrivals[|w.arrivals| - 1] == w.ctl.reader.p)
    && (w.ctl.reader.RCreating? || w.ctl.reader.RSent? ==> w.ctl.reader.p.admitted)
    && (w.data.Some? ==> w.data.value.Data?)
    && (w.oob.Some? ==> w.oob.value.Oob?)
    && (forall b :: b in w.bufPool ==> b.Data?)
    && (forall b :: b in w.oobPool ==> b.Oob?)
  }

  predicate KindsOk(items: seq<Item>) {
    forall i :: 0 <= i < |items| ==> items[i].data.Data? && items[i].oob.Oob?
  }

  /** Nothing is lost, doubled or reordered between push and read. */
  ghost predicate Faithful(st: Stream) {
    && st.pushed == st.read + Packets(st.queue) + st.flushed
    && (if st.closed then st.queue == [] else st.flushed == [])
  }

  /** The creating packet comes first, unless the queue was closed before it came. */
  ghost predicate HeadOk(st: Stream, bringing: Option<Packet>) {
    && st.creator.admitted
    && (st.pushed != [] ==> st.pushed[0] == st.creator)
    && (st.pushed == [] && !st.closed ==> bringing == Some(st.creator))
  }

  /** What is pushed to a connection came from its address, in order of arrival. */
  ghost predicate OrderOk(st: Stream, a: Addr, arrivals: seq<Packet>, handled: int) {
    && PickedInOrder(st.pushed, st.at, arrivals, handled)
    && (forall i :: 0 <= i < |st.pushed| ==> st.pushed[i].addr == a)
  }

  ghost predicate StreamOk(st: Stream, k: Conn, bringing: Option<Packet>, arrivals: seq<Packet>, handled: int) {
    && Faithful(st)
    && HeadOk(st, bringing)
    && st.creator.addr == k.addr
    && (st.closed <==> k.closing.CFinished?)
    && OrderOk(st, k.addr, arrivals, handled)
    && KindsOk(st.queue) && KindsOk(st.hands)
  }

  ghost predicate FlowInv(w: World) {
    && |w.streams| == |w.ctl.table|
    && (forall c: ConnId :: c < |w.streams| ==>
          StreamOk(w.streams[c], w.ctl.table[c], Bringing(w.ctl.reader, c), w.arrivals, Handled(w)))
  }

  // ---- one stream ----------------------------------------------------------

  lemma DequeueKeeps(st: Stream, k: Conn, bringing: Option<Packet>, arrivals: seq<Packet>, handled: int)
    requires StreamOk(st, k, bringing, arrivals, handled) && st.queue != [] && !st.closed
    ensures StreamOk(Dequeue(st), k, bringing, arrivals, handled)
  {
    DequeueFaithful(st);
    assert KindsOk(st.queue[1..]);
    assert KindsOk(st.hands + [st.queue[0]]);
  }

  lemma DequeueFaithful(st: Stream)
    requires Faithful(st) && st.queue != []
    ensures Faithful(Dequeue(st))
  {
    assert Packets(st.queue) == [st.queue[0].p] + Packets(st.queue[1..]);
  }

  lemma EnqueueKeeps(st: Stream, k: Conn, item: Item, arrivals: seq<Packet>, handled: int)
    requires StreamOk(st, k, Some(item.p), arrivals, handled) && !st.closed
    requires item.data.Data? && item.oob.Oob? && item.p.addr == k.addr
    requires 0 <= handled == |arrivals| - 1 && arrivals[handled] == item.p
    ensures StreamOk(Enqueue(st, item, handled), k, None, arrivals, |arrivals|)
  {
    assert Packets(st.queue + [item]) == Packets(st.queue) + [item.p];
  }

  lemma CloseQueueKeeps(st: Stream, k: Conn, bringing: Option<Packet>, arrivals: seq<Packet>, handled: int)
    requires StreamOk(st, k, bringing, arrivals, handled) && !st.closed
    ensures forall pc: ConnPc :: pc.CFinished? ==>
              StreamOk(CloseQueue(st), k.(closing := pc), bringing, arrivals, handled)
  {
  }

  lemma LetGoKeeps(st: Stream, i: nat, k: Conn, bringing: Option<Packet>, arrivals: seq<Packet>, handled: int)
    requires StreamOk(st, k, bringing, arrivals, handled) && i < |st.hands|
    ensures StreamOk(LetGo(st, i), k, bringing, arrivals, handled)
  {
  }

  // ---- moves that leave the protocol alone ---------------------------------

  /** v differs from w in one stream, which is as good as before. */
  lemma OneStreamKeeps(w: World, c: ConnId, v: World)
    requires FlowInv(w) && c < |w.streams|
    requires v.ctl == w.ctl && v.arrivals == w.arrivals
    requires |v.streams| == |w.streams| && v.streams == w.streams[c := v.streams[c]]
    requires StreamOk(v.streams[c], w.ctl.table[c], Bringing(w.ctl.reader, c), w.arrivals, Handled(w))
    ensures FlowInv(v)
  {
    forall d: ConnId | d < |v.streams|
      ensures StreamOk(v.streams[d], v.ctl.table[d], Bringing(v.ctl.reader, d), v.arrivals, Handled(v))
    {
      if d != c {
        assert v.streams[d] == w.streams[d];
      }
    }
  }

  lemma PopKeeps(w: World, c: ConnId)
    requires FlowInv(w) && CanMove(w, Pop(c))
    ensures FlowInv(PopFrom(w, c))
  {
    DequeueKeeps(w.streams[c], w.ctl.table[c], Bringing(w.ctl.reader, c), w.arrivals, Handled(w));
    OneStreamKeeps(w, c, PopFrom(w, c));
  }

  lemma PutKeeps(w: World, c: ConnId, i: nat)
    requires FlowInv(w) && CanMove(w, PutBack(c, i))
    ensures FlowInv(PutBoth(w, c, i))
  {
    LetGoKeeps(w.streams[c], i, w.ctl.table[c], Bringing(w.ctl.reader, c), w.arrivals, Handled(w));
    OneStreamKeeps(w, c, PutBoth(w, c, i));
  }

  // ---- protocol moves ------------------------------------------------------

  /** A stream nobody touches stays good while arrivals go on. */
  lemma QuietStream(st: Stream, k: Conn, k': Conn, bringing: Option<Packet>, bringing': Option<Packet>,
                    arrivals: seq<Packet>, arrivals': seq<Packet>, handled: int, handled': int)
    requires StreamOk(st, k, bringing, arrivals, handled)
    requires k'.addr == k.addr && k'.closing.CFinished? == k.closing.CFinished?
    requires bringing == Some(st.creator) ==> bringing' == bringing || st.pushed != [] || st.closed
    requires arrivals <= arrivals' && handled <= handled'
    ensures StreamOk(st, k', bringing', arrivals', handled')
  {
    assert forall i :: 0 <= i < |arrivals| ==> arrivals'[i] == arrivals[i];
  }

  /** Connections keep their address, and only c's Close may reach its end. */
  ghost predicate SameConns(s: State, t: State, c: Option<ConnId>) {
    && |t.table| == |s.table|
    && (forall d: ConnId {:trigger t.table[d]} :: d < |s.table| ==>
          && t.table[d].addr == s.table[d].addr
          && (Some(d) == c || t.table[d].closing.CFinished? == s.table[d].closing.CFinished?))
  }

  /** Whose queue a step closes. */
  function Closes(step: Step): Option<ConnId> {
    if step.OfConn? && step.k.ConnCloseQueue? then Some(step.c) else None
  }

  lemma AcceptSameConns(s: State, step: AcceptStep)
    requires AcceptEnabled(s, step)
    ensures SameConns(s, AfterAccept(s, step), None) && AfterAccept(s, step).reader == s.reader
  {
  }

  lemma ListenerSameConns(s: State, step: ListenerStep)
    requires ListenerEnabled(s, step)
    ensures SameConns(s, AfterListener(s, step), None) && AfterListener(s, step).reader == s.reader
  {
  }

  lemma ConnSameConns(s: State, c: ConnId, step: ConnStep)
    requires c < |s.table| && ConnEnabled(s, c, step)
    ensures SameConns(s, AfterConn(s, c, step), Closes(OfConn(c, step))) && AfterConn(s, c, step).reader == s.reader
  {
  }

  lemma StepSameConns(s: State, step: Step)
    requires Enabled(s, step) && !step.Reader?
    ensures SameConns(s, After(s, step), Closes(step)) && After(s, step).reader == s.reader
  {
    match step
    case Closer(g) =>
    case Accept(a) => AcceptSameConns(s, a);
    case Listener(l) => ListenerSameConns(s, l);
    case OfConn(c, k) => ConnSameConns(s, c, k);
  }

  /** A protocol step of anybody but the read loop that closes no queue. */
  lemma OthersKeep(w: World, step: Step)
    requires FlowInv(w) && CanMove(w, Ctl(step)) && !step.Reader? && Closes(step).None?
    ensures FlowInv(w.(ctl := After(w.ctl, step)))
  {
    var v := w.(ctl := After(w.ctl, step));
    StepSameConns(w.ctl, step);
    forall c: ConnId | c < |v.streams|
      ensures StreamOk(v.streams[c], v.ctl.table[c], Bringing(v.ctl.reader, c), v.arrivals, Handled(v))
    {
      QuietStream(w.streams[c], w.ctl.table[c], v.ctl.table[c], Bringing(w.ctl.reader, c), Bringing(v.ctl.reader, c),
                  w.arrivals, v.arrivals, Handled(w), Handled(v));
    }
  }

  /** The step in which Conn.Close closes its queue. */
  lemma CloseKeeps(w: World, c: ConnId, err: Option<Error>)
    requires FlowInv(w) && CanMove(w, Ctl(OfConn(c, ConnCloseQueue(err))))
    ensures FlowInv(Moved(w, Ctl(OfConn(c, ConnCloseQueue(err)))))
  {
    var v := Moved(w, Ctl(OfConn(c, ConnCloseQueue(err))));
    StepSameConns(w.ctl, OfConn(c, ConnCloseQueue(err)));
    forall d: ConnId | d < |v.streams|
      ensures StreamOk(v.streams[d], v.ctl.table[d], Bringing(v.ctl.reader, d), v.arrivals, Handled(v))
    {
      if d == c {
        CloseQueueKeeps(w.streams[c], w.ctl.table[c], Bringing(w.ctl.reader, c), w.arrivals, Handled(w));
        assert v.ctl.table[c] == w.ctl.table[c].(closing := v.ctl.table[c].closing);
      } else {
        QuietStream(w.streams[d], w.ctl.table[d], v.ctl.table[d], Bringing(w.ctl.reader, d), Bringing(v.ctl.reader, d),
                    w.arrivals, v.arrivals, Handled(w), Handled(v));
      }
    }
  }

  /** A step of the read loop that neither creates a connection nor pushes. */
  predicate Passing(w: World, step: ReaderStep) {
    !step.ReaderPush? && !(step.ReaderSend? && |w.ctl.acceptCh| < w.ctl.backlog)
  }

  lemma PassingFacts(w: World, step: ReaderStep, c: ConnId)
    requires CarryOk(w) && CanMove(w, Ctl(Reader(step))) && Passing(w, step)
    ensures var v := Moved(w, Ctl(Reader(step)));
            && v.streams == w.streams && v.ctl.table == w.ctl.table
            && w.arrivals <= v.arrivals && Handled(w) <= Handled(v)
            && (Bringing(w.ctl.reader, c).Some? ==> Bringing(v.ctl.reader, c) == Bringing(w.ctl.reader, c))
  {
  }

  lemma PassingKeeps(w: World, step: ReaderStep)
    requires CarryOk(w) && FlowInv(w) && CanMove(w, Ctl(Reader(step))) && Passing(w, step)
    ensures FlowInv(Moved(w, Ctl(Reader(step))))
  {
    var v := Moved(w, Ctl(Reader(step)));
    PassingFacts(w, step, 0);
    forall c: ConnId | c < |v.streams|
      ensures StreamOk(v.streams[c], v.ctl.table[c], Bringing(v.ctl.reader, c), v.arrivals, Handled(v))
    {
      PassingFacts(w, step, c);
      QuietStream(w.streams[c], w.ctl.table[c], v.ctl.table[c], Bringing(w.ctl.reader, c), Bringing(v.ctl.reader, c),
                  w.arrivals, v.arrivals, Handled(w), Handled(v));
    }
  }

  lemma SendFacts(w: World)
    requires CanMove(w, Ctl(Reader(ReaderSend))) && !Passing(w, ReaderSend)
    ensures var v := Moved(w, Ctl(Reader(ReaderSend)));
            var p := w.ctl.reader.p;
            && v.streams == w.streams + [Stream(p, [], false, [], [], [], [], [])]
            && v.ctl.table == w.ctl.table + [Conn(p.addr, Queued, CNotCalled, 0, 0)]
            && v.ctl.reader == RSent(p, |w.ctl.table|) && w.ctl.reader == RCreating(p)
            && v.arrivals == w.arrivals && Handled(v) == Handled(w)
  {
  }

  lemma SendKeeps(w: World)
    requires CarryOk(w) && FlowInv(w) && CanMove(w, Ctl(Reader(ReaderSend))) && !Passing(w, ReaderSend)
    ensures FlowInv(Moved(w, Ctl(Reader(ReaderSend))))
  {
    var v := Moved(w, Ctl(Reader(ReaderSend)));
    SendFacts(w);
    forall c: ConnId | c < |v.streams|
      ensures StreamOk(v.streams[c], v.ctl.table[c], Bringing(v.ctl.reader, c), v.arrivals, Handled(v))
    {
      if c < |w.streams| {
        QuietStream(w.streams[c], w.ctl.table[c], v.ctl.table[c], Bringing(w.ctl.reader, c), Bringing(v.ctl.reader, c),
                    w.arrivals, v.arrivals, Handled(w), Handled(v));
      }
    }
  }

  lemma PushFacts(w: World)
    requires CarryOk(w) && CanMove(w, Ctl(Reader(ReaderPush)))
    ensures var v := Moved(w, Ctl(Reader(ReaderPush)));
            var c := w.ctl.reader.c;
            && v.ctl.table == w.ctl.table && v.ctl.reader == RReading && v.arrivals == w.arrivals
            && Handled(v) == Handled(w) + 1 == |w.arrivals|
            && (v.streams == w.streams ||
                (&& c < |w.streams| && !w.streams[c].closed
                 && v.streams == w.streams[c := Enqueue(w.streams[c], Item(w.ctl.reader.p, w.data.value, w.oob.value), Handled(w))]))
            && (c < |w.streams| && v.streams == w.streams ==>
                  w.streams[c].closed || |w.streams[c].queue| >= RECEIVE_BACKLOG)
  {
  }

  /** The stream that gets the packet, or would have. */
  lemma PushKeepsTarget(w: World)
    requires MapInv(w.ctl) && CarryOk(w) && FlowInv(w) && CanMove(w, Ctl(Reader(ReaderPush)))
    ensures var c := w.ctl.reader.c;
            var v := Moved(w, Ctl(Reader(ReaderPush)));
            c < |w.streams| == |v.streams| && StreamOk(v.streams[c], w.ctl.table[c], None, w.arrivals, |w.arrivals|)
  {
    PushFacts(w);
    var v := Moved(w, Ctl(Reader(ReaderPush)));
    var c := w.ctl.reader.c;
    assert StreamOk(w.streams[c], w.ctl.table[c], Bringing(w.ctl.reader, c), w.arrivals, Handled(w));
    if v.streams == w.streams {
      QuietStream(w.streams[c], w.ctl.table[c], w.ctl.table[c], Bringing(w.ctl.reader, c), None,
                  w.arrivals, w.arrivals, Handled(w), |w.arrivals|);
    } else {
      EnqueueKeeps(w.streams[c], w.ctl.table[c], Item(w.ctl.reader.p, w.data.value, w.oob.value), w.arrivals, Handled(w));
    }
  }

  lemma PushKeeps(w: World)
    requires MapInv(w.ctl) && CarryOk(w) && FlowInv(w) && CanMove(w, Ctl(Reader(ReaderPush)))
    ensures FlowInv(Moved(w, Ctl(Reader(ReaderPush))))
  {
    var v := Moved(w, Ctl(Reader(ReaderPush)));
    PushFacts(w);
    PushKeepsTarget(w);
    forall c: ConnId | c < |v.streams|
      ensures StreamOk(v.streams[c], v.ctl.table[c], Bringing(v.ctl.reader, c), v.arrivals, Handled(v))
    {
      if c != w.ctl.reader.c {
        QuietStream(w.streams[c], w.ctl.table[c], w.ctl.table[c], None, None,
                    w.arrivals, w.arrivals, Handled(w), |w.arrivals|);
      }
    }
  }

  // ---- what the read loop carries ------------------------------------------

  lemma {:induction false} FlushKinds(items: seq<Item>)
    requires KindsOk(items)
    ensures forall b :: b in DataOf(items) ==> b.Data?
    ensures forall b :: b in OobOf(items) ==> b.Oob?
    decreases |items|
  {
    if items != [] {
      FlushKinds(items[..|items| - 1]);
    }
  }

  lemma CarryKept(w: World, m: Move)
    requires CarryOk(w) && FlowInv(w) && CanMove(w, m)
    ensures CarryOk(Moved(w, m))
  {
    match m
    case Ctl(step) => CtlCarryKept(w, step);
    case PutBack(c, i) =>
      assert KindsOk(w.streams[c].hands);
    case _ => PoolCarryKept(w, m);
  }

  lemma PoolCarryKept(w: World, m: Move)
    requires CarryOk(w) && CanMove(w, m) && !m.Ctl? && !m.PutBack?
    ensures CarryOk(Moved(w, m))
  {
  }

  lemma CtlCarryKept(w: World, step: Step)
    requires CarryOk(w) && FlowInv(w) && CanMove(w, Ctl(step))
    ensures CarryOk(Moved(w, Ctl(step)))
  {
    if step.Reader? {
      ReaderCarryKept(w, step.r);
    } else {
      StepSameConns(w.ctl, step);
      if Closes(step).Some? {
        FlushKinds(w.streams[step.c].queue);
      }
    }
  }

  /** The read loop puts nothing into a pool, and keeps its buffers or drops both. */
  lemma ReaderKeepsPools(w: World, step: ReaderStep)
    ensures var v := ReaderCarries(w, step);
            && v.bufPool == w.bufPool && v.oobPool == w.oobPool
            && ((v.data == w.data && v.oob == w.oob) || (v.data.None? && v.oob.None?))
            && (!step.Deliver? ==> v.arrivals == w.arrivals)
            && (!step.ReadFail? && !step.ReaderPush? && !step.ReaderUnlock? ==> v.data == w.data && v.oob == w.oob)
  {
  }

  lemma ReaderCarryKept(w: World, step: ReaderStep)
    requires CarryOk(w) && CanMove(w, Ctl(Reader(step)))
    ensures CarryOk(Moved(w, Ctl(Reader(step))))
  {
    ReaderKeepsPools(w, step);
  }

  // ---- every run -----------------------------------------------------------

  lemma CtlFlowKept(w: World, step: Step)
    requires MapInv(w.ctl) && CarryOk(w) && FlowInv(w) && CanMove(w, Ctl(step))
    ensures FlowInv(Moved(w, Ctl(step)))
  {
    if Closes(step).Some? {
      CloseKeeps(w, step.c, step.k.queueErr);
    } else if !step.Reader? {
      OthersKeep(w, step);
    } else if step.r.ReaderPush? {
      PushKeeps(w);
    } else if Passing(w, step.r) {
      PassingKeeps(w, step.r);
    } else {
      SendKeeps(w);
    }
  }

  lemma FlowKept(w: World, m: Move)
    requires MapInv(w.ctl) && CarryOk(w) && FlowInv(w) && CanMove(w, m)
    ensures FlowInv(Moved(w, m))
  {
    match m
    case Ctl(step) => CtlFlowKept(w, step);
    case Pop(c) => PopKeeps(w, c);
    case PutBack(c, i) => PutKeeps(w, c, i);
    case _ => PoolFlowKept(w, m);
  }

  lemma PoolFlowKept(w: World, m: Move)
    requires FlowInv(w) && CanMove(w, m) && !m.Ctl? && !m.Pop? && !m.PutBack?
    ensures FlowInv(Moved(w, m))
  {
    var v := Moved(w, m);
    assert v.streams == w.streams && v.ctl == w.ctl && v.arrivals == w.arrivals;
  }

  lemma {:induction false} RunFlows(w: World, moves: seq<Move>, v: World)
    requires Reachable(w.ctl) && CarryOk(w) && FlowInv(w) && MovesTo(w, moves, v)
    ensures Reachable(v.ctl) && CarryOk(v) && FlowInv(v)
    decreases |moves|
  {
    if moves != [] {
      ReachableInv(w.ctl);
      CarryKept(w, moves[0]);
      FlowKept(w, moves[0]);
      if moves[0].Ctl? {
        ReachableStep(w.ctl, moves[0].step, Moved(w, moves[0]).ctl);
      }
      RunFlows(Moved(w, moves[0]), moves[1..], v);
    }
  }

  /** Every reachable world is a reachable state of the protocol with good streams. */
  lemma WorldFlows(v: World)
    requires WorldReachable(v)
    ensures Reachable(v.ctl) && CarryOk(v) && FlowInv(v)
  {
    var w, moves :| WorldInit(w) && MovesTo(w, moves, v);
    assert Leads(w.ctl, [], w.ctl);
    RunFlows(w, moves, v);
  }

  /** xs are some of ys, in their order. */
  ghost predicate InOrderOf(xs: seq<Packet>, ys: seq<Packet>) {
    exists at :: PickedInOrder(xs, at, ys, |ys|)
  }

  /** For each connection, in every reachable state: the packets read, then those
      queued or handed back when the queue was closed, are the packets pushed;
      these are arrivals from the connection's address in their order. */
  lemma StreamIsFaithful(v: World, c: ConnId)
    requires WorldReachable(v) && c < |v.streams|
    ensures c < |v.ctl.table|
    ensures var st := v.streams[c];
            && st.pushed == st.read + Packets(st.queue) + st.flushed
            && (if st.closed then st.queue == [] else st.flushed == [])
            && InOrderOf(st.pushed, v.arrivals)
            && (forall i :: 0 <= i < |st.pushed| ==> st.pushed[i].addr == v.ctl.table[c].addr)
  {
    WorldFlows(v);
    var st := v.streams[c];
    assert StreamOk(st, v.ctl.table[c], Bringing(v.ctl.reader, c), v.arrivals, Handled(v));
    assert PickedInOrder(st.pushed, st.at, v.arrivals, |v.arrivals|);
  }

  /** The packet that created a connection passed the accept filter, came from
      its address and is the first one pushed; nothing was pushed only while the
      read loop is still on its way with it, or if the queue was closed first. */
  lemma CreatorComesFirst(v: World, c: ConnId)
    requires WorldReachable(v) && c < |v.streams|
    ensures c < |v.ctl.table|
    ensures var st := v.streams[c];
            && st.creator.admitted
            && st.creator.addr == v.ctl.table[c].addr
            && (st.pushed != [] ==> st.pushed[0] == st.creator)
            && (st.pushed == [] ==> st.closed || Bringing(v.ctl.reader, c) == Some(st.creator))
  {
    WorldFlows(v);
    assert StreamOk(v.streams[c], v.ctl.table[c], Bringing(v.ctl.reader, c), v.arrivals, Handled(v));
  }

  /** A packet on its way to a connection is pushed to that connection's queue, and
      to no other, if and only if the queue is open and has room. */
  lemma PushIsExact(v: World)
    requires WorldReachable(v) && v.ctl.reader.RPushing?
    ensures CanMove(v, Ctl(Reader(ReaderPush)))
    ensures var c, p := v.ctl.reader.c, v.ctl.reader.p;
            var u := Moved(v, Ctl(Reader(ReaderPush)));
            && c < |v.streams| == |u.streams| && c < |v.ctl.table| && v.ctl.table[c].addr == p.addr
            && v.arrivals != [] && v.arrivals[|v.arrivals| - 1] == p
            && (forall d: ConnId :: d < |v.streams| && d != c ==> u.streams[d] == v.streams[d])
            && u.streams[c].pushed ==
                 if !v.streams[c].closed && |v.streams[c].queue| < 1024 then v.streams[c].pushed + [p]
                 else v.streams[c].pushed
  {
    PushTarget(v);
    MovedByPush(v);
  }

  lemma PushTarget(v: World)
    requires WorldReachable(v) && v.ctl.reader.RPushing?
    ensures v.ctl.reader.c < |v.streams| == |v.ctl.table| && v.ctl.table[v.ctl.reader.c].addr == v.ctl.reader.p.addr
    ensures v.arrivals != [] && v.arrivals[|v.arrivals| - 1] == v.ctl.reader.p && v.data.Some? && v.oob.Some?
  {
    WorldFlows(v);
    ReachableInv(v.ctl);
  }

  /** A closed socket stays closed and brings no more packets. */
  lemma {:induction false} ClosedSocketIsSilent(w: World, moves: seq<Move>, v: World)
    requires MovesTo(w, moves, v) && !w.ctl.socketOpen
    ensures !v.ctl.socketOpen && v.arrivals == w.arrivals
    decreases |moves|
  {
    if moves != [] {
      SilentMove(w, moves[0]);
      ClosedSocketIsSilent(Moved(w, moves[0]), moves[1..], v);
    }
  }

  lemma SilentMove(w: World, m: Move)
    requires CanMove(w, m) && !w.ctl.socketOpen
    ensures !Moved(w, m).ctl.socketOpen && Moved(w, m).arrivals == w.arrivals
  {
    if m.Ctl? {
      SocketStaysClosed(w.ctl, m.step);
      if m.step.Reader? {
        ReaderKeepsPools(w, m.step.r);
      }
    }
  }

  lemma SocketStaysClosed(s: State, step: Step)
    requires Enabled(s, step) && !s.socketOpen
    ensures !After(s, step).socketOpen
  {
    match step
    case Reader(r) =>
      if !r.ReaderSend? {
        ReaderLeavesTable(s, r);
      }
    case Closer(g) =>
    case Accept(a) =>
    case Listener(l) => ListenerLeavesOthers(s, l);
    case OfConn(c, k) => ConnStepMoves(s, c, k);
  }

  /** Each pool gets back buffers of its own kind only. */
  lemma PoolsKeepTheirKind(v: World, b: Buf)
    requires WorldReachable(v)
    ensures b in v.bufPool ==> b.Data?
    ensures b in v.oobPool ==> b.Oob?
  {
    WorldFlows(v);
  }
}
