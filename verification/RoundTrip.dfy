/** A packet of a new remote all the way to its reader, and its buffers back. */
module RoundTrip {
  import opened Wrappers
  import opened Protocol
  import opened ErrorReport
  import opened Traffic

  /** A protocol step that carries nothing. */
  lemma CtlMove(w: World, step: Step, s: State)
    requires WorldReachable(w) && CanMove(w, Ctl(step)) && Carry(w, step) == w && s == After(w.ctl, step)
    ensures WorldReachable(w.(ctl := s))
  {
    WorldReachableMove(w, Ctl(step), w.(ctl := s));
  }

  lemma ReaderMove(w: World, step: ReaderStep, s: State)
    requires WorldReachable(w) && ReaderEnabled(w.ctl, step) && !step.Deliver? && !step.ReadFail?
    requires ReaderCarries(w, step) == w && s == AfterReader(w.ctl, step)
    ensures WorldReachable(w.(ctl := s))
  {
    CtlMove(w, Reader(step), s);
  }

  /** The read loop with two new buffers. */
  function Reading(s: State): World {
    World(s, [], [], [], Some(Data(0)), Some(Oob(0)), multiset{}, multiset{}, multiset{}, 1, 1)
  }

  lemma GetsBuffers()
    ensures WorldReachable(Reading(Fresh()))
  {
    var w := World(Fresh(), [], [], [], None, None, multiset{}, multiset{}, multiset{}, 0, 0);
    assert MovesTo(w, [], w);
    var w1 := w.(data := Some(Data(0)), dataMade := 1);
    WorldReachableMove(w, GetData(None), w1);
    WorldReachableMove(w1, GetOob(None), Reading(Fresh()));
  }

  /** It has read p and is at pc. */
  function Carrying(p: Packet, s: State): World {
    Reading(s).(arrivals := [p])
  }

  lemma ArrivesAndMisses(p: Packet)
    ensures WorldReachable(Carrying(p, Fresh().(lock := ByReader, reader := RMissed(p))))
  {
    GetsBuffers();
    var s := Fresh();
    var s1 := s.(reader := RDispatching(p));
    WorldReachableMove(Reading(s), Ctl(Reader(Deliver(p))), Carrying(p, s1));
    var s2 := s.(lock := ByReader, reader := RLocked(p));
    ReaderMove(Carrying(p, s1), ReaderLock, s2);
    ReaderMove(Carrying(p, s2), ReaderLookup, s2.(reader := RMissed(p)));
  }

  lemma PassesTheFilter(p: Packet)
    requires p.admitted
    ensures WorldReachable(Carrying(p, Fresh().(lock := ByReader, reader := RCreating(p))))
  {
    ArrivesAndMisses(p);
    var s := Fresh().(lock := ByReader, reader := RMissed(p));
    var s1 := s.(reader := RAccepting(p));
    ReaderMove(Carrying(p, s), ReaderLoad, s1);
    ReaderMove(Carrying(p, s1), ReaderFilter, s.(reader := RCreating(p)));
  }

  function Opened(p: Packet): Stream {
    Stream(p, [], false, [], [], [], [], [])
  }

  lemma IsSent(p: Packet)
    requires p.admitted
    ensures var s := OneQueued(p).(conns := map[], lock := ByReader, reader := RSent(p, 0));
            WorldReachable(Carrying(p, s).(streams := [Opened(p)]))
  {
    PassesTheFilter(p);
    var s := Fresh().(lock := ByReader, reader := RCreating(p));
    var s1 := OneQueued(p).(conns := map[], lock := ByReader, reader := RSent(p, 0));
    MovedBySend(Carrying(p, s));
    assert Send(s) == s1;
    WorldReachableMove(Carrying(p, s), Ctl(Reader(ReaderSend)), Carrying(p, s1).(streams := [Opened(p)]));
  }

  /** The connection is there, with an empty queue. */
  lemma GetsAConnection(p: Packet)
    requires p.admitted
    ensures WorldReachable(Carrying(p, OneQueued(p).(reader := RPushing(p, 0))).(streams := [Opened(p)]))
  {
    IsSent(p);
    var s1 := OneQueued(p).(conns := map[], lock := ByReader, reader := RSent(p, 0));
    var w1 := Carrying(p, s1).(streams := [Opened(p)]);
    var s2 := OneQueued(p).(lock := ByReader, reader := RUnlocking(p, Some(0)));
    ReaderMove(w1, ReaderInsert, s2);
    ReaderMove(w1.(ctl := s2), ReaderUnlock, OneQueued(p).(reader := RPushing(p, 0)));
  }

  /** The packet and its buffers are in the queue. */
  function InQueue(p: Packet, s: State): World {
    World(s, [Enqueue(Opened(p), Item(p, Data(0), Oob(0)), 0)], [p], [], None, None,
          multiset{}, multiset{}, multiset{}, 1, 1)
  }

  lemma IsPushed(p: Packet)
    requires p.admitted
    ensures WorldReachable(InQueue(p, OneQueued(p)))
  {
    GetsAConnection(p);
    var w := Carrying(p, OneQueued(p).(reader := RPushing(p, 0))).(streams := [Opened(p)]);
    MovedByPush(w);
    assert [Opened(p)][0 := Enqueue(Opened(p), Item(p, Data(0), Oob(0)), 0)] == InQueue(p, OneQueued(p)).streams;
    WorldReachableMove(w, Ctl(Reader(ReaderPush)), InQueue(p, OneQueued(p)));
  }

  ghost function OneHandedOut(p: Packet): State {
    OneQueued(p).(acceptCh := [], taken := [0], connWG := 2, table := [Conn(p.addr, HandedOut, CNotCalled, 0, 0)])
  }

  lemma IsAccepted(p: Packet)
    requires p.admitted
    ensures WorldReachable(InQueue(p, OneHandedOut(p)))
  {
    IsPushed(p);
    var s := OneQueued(p);
    var s1 := s.(acceptors := 1);
    CtlMove(InQueue(p, s), Accept(AcceptCall), s1);
    var s2 := s.(acceptCh := [], taken := [0], table := [Conn(p.addr, Received, CNotCalled, 0, 0)]);
    CtlMove(InQueue(p, s1), Accept(AcceptReceive), s2);
    CtlMove(InQueue(p, s2), Accept(AcceptAdd(0)), OneHandedOut(p));
  }

  lemma IsPopped(p: Packet, s: State)
    ensures var w := PopFrom(InQueue(p, s), 0);
            |w.streams| == 1 && w.streams[0].hands == [Item(p, Data(0), Oob(0))] && w.streams[0].queue == []
  {
  }

  /** There is a run in which an admitted packet of a new remote is read from the
      connection it created and both its buffers are back in their pools. */
  lemma PacketComesThrough(p: Packet) returns (w: World)
    requires p.admitted
    ensures WorldReachable(w) && w.arrivals == [p] && w.discarded == []
    ensures |w.streams| == 1 && w.streams[0].read == [p] && w.streams[0].queue == [] && w.streams[0].hands == []
    ensures w.bufPool == multiset{Data(0)} && w.oobPool == multiset{Oob(0)} && w.dropped == multiset{}
  {
    IsAccepted(p);
    var s := OneHandedOut(p);
    WorldReachableMove(InQueue(p, s), Pop(0), PopFrom(InQueue(p, s), 0));
    IsPopped(p, s);
    w := PutBoth(PopFrom(InQueue(p, s), 0), 0, 0);
    WorldReachableMove(PopFrom(InQueue(p, s), 0), PutBack(0, 0), w);
  }
}
