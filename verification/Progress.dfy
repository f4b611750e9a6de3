/** Shutdown neither deadlocks nor runs on. */
module Progress {
  import opened Wrappers
  import opened Sums
  import opened Protocol
  import opened ProtocolInvariant

  // ---- how much work is left -----------------------------------------------

  function ReaderRank(pc: ReaderPc): nat {
    match pc
    case RDone => 0
    case RAnnounced => 1
    case RFailed => 2
    case RReading => 3
    case RPushing(_, _) => 4
    case RUnlocking(_, _) => 5
    case RSent(_, _) => 6
    case RCreating(_) => 20   // the send brings a connection into the table
    case RAccepting(_) => 21
    case RMissed(_) => 22
    case RLocked(_) => 23
    case RDispatching(_) => 24
  }

  function CloserRank(pc: CloserPc): nat {
    match pc
    case GDone => 0
    case GReporting => 1
    case GStoring => 2
    case GClosing => 3
    case GWaiting => 4
  }

  function ListenerRank(pc: ListenerPc): nat {
    match pc
    case LFinished(_, _) => 0
    case LWaiting => 1
    case LReleased(_) => 2
    case LUnlocked(_) => 3
    case LCounted(_) => 4
    case LDraining => 5
    case LDeleting(_) => 6
    case LClosing(_) => 7
    case LAnnounced => 8
    case LRefusing => 9
    case LEntered => 10
    case LNotCalled => 11
  }

  function CloseRank(pc: ConnPc): nat {
    match pc
    case CFinished(_, _) => 0
    case CClosingQueue(_, _) => 1
    case CWaiting => 2
    case CUnlocked(_) => 3
    case CCounted(_) => 4
    case CLocked => 5
    case CAnnounced => 6
    case CReleased => 7
    case CEntered => 8
    case CNotCalled => 9
  }

  function ConnRank(k: Conn): nat {
    k.repeats +
    match k.place
    case Drained => 0
    case HandedOut => CloseRank(k.closing)
    case Received => 10
    case Queued => 13
  }

  /** An upper bound on the steps the goroutines can still take on their own. */
  function Rank(s: State): nat {
    ReaderRank(s.reader) + CloserRank(s.closer) + ListenerRank(s.listener) +
    s.acceptors + s.repeats + Sum(s.table, ConnRank)
  }

  /** Steps the outside world takes: a datagram arrives, Accept is called, or a
      Close that was called before is called again. */
  predicate External(step: Step) {
    || (step.Reader? && step.r.Deliver?)
    || step == Accept(AcceptCall)
    || step == Listener(ListenerRepeat)
    || (step.OfConn? && step.k.ConnRepeat?)
  }

  lemma ReaderCounts(s: State, step: ReaderStep)
    requires ReaderEnabled(s, step) && !step.Deliver?
    ensures Rank(AfterReader(s, step)) < Rank(s)
  {
    if step.ReaderSend? {
      SendCounts(s);
    } else {
      ReaderLeavesTable(s, step);
      ReaderRankFalls(s, step);
    }
  }

  lemma SendCounts(s: State)
    requires s.reader.RCreating?
    ensures Rank(Send(s)) < Rank(s)
  {
    SumAppend(s.table, Conn(s.reader.p.addr, Queued, CNotCalled, 0, 0), ConnRank);
  }

  lemma ReaderRankFalls(s: State, step: ReaderStep)
    requires ReaderEnabled(s, step) && !step.Deliver? && !step.ReaderSend?
    ensures ReaderRank(AfterReader(s, step).reader) < ReaderRank(s.reader)
  {
  }

  lemma TakeCounts(s: State, place: Place)
    requires ChannelInv(s) && CanTake(s) && (place.Received? || place.Drained?)
    ensures Sum(Take(s, place).table, ConnRank) + 3 <= Sum(s.table, ConnRank)
  {
    HeadIsQueued(s);
    var c := s.acceptCh[0];
    SumUpdate(s.table, c, s.table[c].(place := place), ConnRank);
  }

  lemma AcceptCounts(s: State, step: AcceptStep)
    requires ChannelInv(s) && ConnInv(s) && AcceptEnabled(s, step) && !step.AcceptCall?
    ensures Rank(AfterAccept(s, step)) < Rank(s)
  {
    match step
    case AcceptReceive => TakeCounts(s, Received);
    case AcceptAdd(c) => SumUpdate(s.table, c, s.table[c].(place := HandedOut), ConnRank);
    case _ =>
  }

  lemma ListenerCounts(s: State, step: ListenerStep)
    requires ChannelInv(s) && ListenerEnabled(s, step) && !step.ListenerRepeat?
    ensures Rank(AfterListener(s, step)) < Rank(s)
  {
    match step
    case ListenerTake => TakeCounts(s, Drained);
    case ListenerCloseConn =>
      var k := s.table[s.listener.c];
      SumUpdate(s.table, s.listener.c, k.(doneCloses := k.doneCloses + 1), ConnRank);
    case _ => OwnListenerCounts(s, step);
  }

  lemma OwnListenerCounts(s: State, step: ListenerStep)
    requires ListenerEnabled(s, step) && !step.ListenerRepeat? && !step.ListenerTake? && !step.ListenerCloseConn?
    ensures Rank(AfterListener(s, step)) < Rank(s)
  {
    ListenerLeavesOthers(s, step);
    ListenerLeavesTable(s, step);
    OnlyListenerReturnsCount(s, step);
    if !step.ListenerRepeatReturn? {
      ListenerRankFalls(s, step);
    }
  }

  lemma ListenerLeavesTable(s: State, step: ListenerStep)
    requires ListenerEnabled(s, step) && !step.ListenerTake? && !step.ListenerCloseConn?
    ensures AfterListener(s, step).table == s.table && AfterListener(s, step).acceptors == s.acceptors
  {
  }

  lemma ListenerRankFalls(s: State, step: ListenerStep)
    requires ListenerEnabled(s, step) && !step.ListenerRepeat? && !step.ListenerTake? && !step.ListenerRepeatReturn?
    ensures ListenerRank(AfterListener(s, step).listener) < ListenerRank(s.listener)
  {
  }

  lemma OnlyListenerReturnsCount(s: State, step: ListenerStep)
    requires ListenerEnabled(s, step) && !step.ListenerRepeat?
    ensures AfterListener(s, step).repeats == s.repeats - (if step.ListenerRepeatReturn? then 1 else 0)
    ensures step.ListenerRepeatReturn? ==> AfterListener(s, step).listener == s.listener
  {
  }

  lemma CloseRankFalls(s: State, c: ConnId, step: ConnStep)
    requires c < |s.table| && ConnEnabled(s, c, step) && !step.ConnRepeat? && !step.ConnRepeatReturn?
    ensures |AfterConn(s, c, step).table| == |s.table|
    ensures CloseRank(AfterConn(s, c, step).table[c].closing) < CloseRank(s.table[c].closing)
  {
  }

  lemma OnlyReturnsCount(s: State, c: ConnId, step: ConnStep)
    requires c < |s.table| && ConnEnabled(s, c, step) && !step.ConnRepeat?
    ensures |AfterConn(s, c, step).table| == |s.table|
    ensures AfterConn(s, c, step).table[c].repeats == s.table[c].repeats - (if step.ConnRepeatReturn? then 1 else 0)
    ensures step.ConnRepeatReturn? ==> AfterConn(s, c, step).table[c].closing == s.table[c].closing
  {
  }

  lemma MoveCounts(s: State, c: ConnId, t: State)
    requires ConnMoves(s, c, t) && ConnRank(t.table[c]) < ConnRank(s.table[c])
    ensures Rank(t) < Rank(s)
  {
    SumUpdate(s.table, c, t.table[c], ConnRank);
    assert t.table == s.table[c := t.table[c]];
  }

  lemma ConnCounts(s: State, c: ConnId, step: ConnStep)
    requires ConnInv(s) && c < |s.table| && ConnEnabled(s, c, step) && !step.ConnRepeat?
    ensures Rank(AfterConn(s, c, step)) < Rank(s)
  {
    ConnStepMoves(s, c, step);
    OnlyReturnsCount(s, c, step);
    if !step.ConnRepeatReturn? {
      CloseRankFalls(s, c, step);
    }
    assert ConnOk(s.table[c], s.listener == LClosing(c));
    assert s.table[c].place.HandedOut?;
    MoveCounts(s, c, AfterConn(s, c, step));
  }

  /** Every step that is not external uses up some of the work left. */
  lemma EveryStepCounts(s: State, step: Step)
    requires ChannelInv(s) && ConnInv(s) && Enabled(s, step) && !External(step)
    ensures Rank(After(s, step)) < Rank(s)
  {
    match step
    case Reader(r) => ReaderCounts(s, r);
    case Closer(g) =>
    case Accept(a) => AcceptCounts(s, a);
    case Listener(l) => ListenerCounts(s, l);
    case OfConn(c, k) => ConnCounts(s, c, k);
  }

  /** Close can be called again at any time after the first call, on the listener
      and on a connection, and this changes nothing but the number of callers. */
  lemma CloseMayBeRepeated(s: State, c: ConnId)
    requires c < |s.table|
    ensures !s.listener.LNotCalled? ==> CanReach(s, s.(repeats := s.repeats + 1))
    ensures !s.table[c].closing.CNotCalled? ==>
              CanReach(s, s.(table := s.table[c := s.table[c].(repeats := s.table[c].repeats + 1)]))
  {
    CanReachItself(s);
    if !s.listener.LNotCalled? {
      CanReachStep(s, s, Listener(ListenerRepeat), s.(repeats := s.repeats + 1));
    }
    if !s.table[c].closing.CNotCalled? {
      CanReachStep(s, s, OfConn(c, ConnRepeat),
                   s.(table := s.table[c := s.table[c].(repeats := s.table[c].repeats + 1)]));
    }
  }

  // ---- somebody can always move --------------------------------------------

  /** Close was called on the listener and on every connection handed out. */
  ghost predicate CloseCalled(s: State) {
    && !s.listener.LNotCalled?
    && (forall c: ConnId :: c < |s.table| && s.table[c].place.HandedOut? ==> !s.table[c].closing.CNotCalled?)
  }

  /** Every goroutine, every Close and every Accept call has returned. */
  ghost predicate AllDone(s: State) {
    && s.reader.RDone? && s.closer.GDone? && s.listener.LFinished?
    && s.acceptors == 0 && s.repeats == 0
    && (forall c: ConnId :: c < |s.table| ==> ConnDone(s.table[c]))
  }

  predicate ConnDone(k: Conn) {
    k.place.Drained? || (k.place.HandedOut? && k.closing.CFinished? && k.repeats == 0)
  }

  /** A step the goroutines take by themselves: nobody calls anything, no
      datagram arrives, no deadline fires, and reading an open socket blocks. */
  predicate Unprompted(s: State, step: Step) {
    && Enabled(s, step)
    && !External(step)
    && step != Listener(ListenerCall)
    && !(step.OfConn? && step.k.ConnCall?)
    && step != Accept(AcceptDeadline)
    && (step == Reader(ReadFail) ==> !s.socketOpen)
  }

  /** Whoever holds the lock is not blocked. */
  lemma HolderMoves(s: State) returns (step: Step)
    requires LockInv(s) && ChannelInv(s) && ConnInv(s) && !s.lock.Free?
    ensures Unprompted(s, step)
  {
    match s.lock
    case ByReader =>
      step := Reader(match s.reader
                     case RLocked(_) => ReaderLookup
                     case RMissed(_) => ReaderLoad
                     case RAccepting(_) => ReaderFilter
                     case RCreating(_) => ReaderSend
                     case RSent(_, _) => ReaderInsert
                     case _ => ReaderUnlock);
    case ByListener =>
      step := DrainerMoves(s);
    case ByConn(c) =>
      step := OfConn(c, if s.table[c].closing.CLocked? then ConnDelete else ConnUnlock);
  }

  lemma DrainerMoves(s: State) returns (step: Step)
    requires ChannelInv(s) && ConnInv(s) && ListenerHoldsLock(s.listener)
    ensures Unprompted(s, step)
  {
    if s.acceptCh != [] {
      HeadIsQueued(s);
    }
    step := Listener(match s.listener
                     case LDraining => if s.acceptCh == [] then ListenerCount else ListenerTake
                     case LClosing(_) => ListenerCloseConn
                     case LDeleting(_) => ListenerDelete
                     case _ => ListenerUnlock);
  }

  /** supConn.Close moves, unless it waits for readWG or is over. */
  lemma ListenerMoves(s: State) returns (step: Step)
    requires Inv(s) && !s.listener.LNotCalled? && !s.listener.LWaiting? && !s.listener.LFinished?
    ensures Unprompted(s, step)
  {
    if ListenerHoldsLock(s.listener) {
      step := DrainerMoves(s);
    } else if s.listener.LAnnounced? && !s.lock.Free? {
      step := HolderMoves(s);
    } else {
      step := Listener(match s.listener
                       case LEntered => ListenerRefuse
                       case LRefusing => ListenerAnnounce
                       case LAnnounced => ListenerLock
                       case LUnlocked(_) => ListenerRelease
                       case _ => ListenerDecide);
    }
  }

  /** Conn.Close moves, unless it waits for readWG or is over. */
  lemma CloseMoves(s: State, c: ConnId) returns (step: Step)
    requires Inv(s) && c < |s.table|
    requires var pc := s.table[c].closing; !pc.CNotCalled? && !pc.CWaiting? && !pc.CFinished?
    ensures Unprompted(s, step)
  {
    if s.table[c].closing.CAnnounced? && !s.lock.Free? {
      step := HolderMoves(s);
    } else {
      step := OfConn(c, match s.table[c].closing
                        case CEntered => ConnRelease
                        case CReleased => ConnAnnounce
                        case CAnnounced => ConnLock
                        case CLocked => ConnDelete
                        case CCounted(_) => ConnUnlock
                        case CUnlocked(_) => ConnDecide
                        case _ => ConnCloseQueue(None));
    }
  }

  /** The read loop moves, unless it reads an open socket or is over. */
  lemma ReaderMoves(s: State) returns (step: Step)
    requires Inv(s) && !s.reader.RDone? && (s.reader.RReading? ==> !s.socketOpen)
    ensures Unprompted(s, step)
  {
    if ReaderHoldsLock(s.reader) || (s.reader.RDispatching? && !s.lock.Free?) {
      step := HolderMoves(s);
    } else {
      step := Reader(match s.reader
                     case RReading => ReadFail
                     case RDispatching(_) => ReaderLock
                     case RPushing(_, _) => ReaderPush
                     case RFailed => ReaderAnnounce
                     case _ => ReaderDone);
    }
  }

  /** With nothing open the closing goroutine moves, unless it is over. */
  lemma CloserMoves(s: State) returns (step: Step)
    requires Inv(s) && !s.closer.GDone? && ListenerReleased(s.listener) && OpenConns(s.table) == {}
    ensures Unprompted(s, step)
  {
    step := Closer(match s.closer
                   case GWaiting => CloserWake
                   case GClosing => CloserClose(None)
                   case GStoring => CloserStore
                   case _ => CloserDone);
  }

  /** c's Close waits for readWG, or is over with no caller left. */
  predicate Parked(k: Conn) {
    k.place.HandedOut? && (k.closing.CWaiting? || (k.closing.CFinished? && k.repeats == 0))
  }

  /** A connection that is neither drained nor parked lets somebody move. */
  lemma UnparkedMoves(s: State, c: ConnId) returns (step: Step)
    requires Inv(s) && CloseCalled(s) && Swept(s.listener)
    requires c < |s.table| && !s.table[c].place.Drained? && !Parked(s.table[c])
    ensures Unprompted(s, step)
  {
    var k := s.table[c];
    assert !k.place.Queued?;
    if k.place.Received? {
      step := Accept(AcceptAdd(c));
    } else if k.closing.CFinished? {
      step := OfConn(c, ConnRepeatReturn);
    } else {
      step := CloseMoves(s, c);
    }
  }

  /** All connections parked and both goroutines over: whoever waits wakes. */
  lemma WaiterMoves(s: State) returns (step: Step)
    requires Inv(s) && !AllDone(s) && s.reader.RDone? && s.closer.GDone?
    requires s.listener.LWaiting? || (s.listener.LFinished? && s.repeats == 0)
    requires s.acceptors == 0
    requires forall c: ConnId :: c < |s.table| ==> s.table[c].place.Drained? || Parked(s.table[c])
    ensures Unprompted(s, step)
  {
    if s.listener.LWaiting? {
      step := Listener(ListenerWake);
    } else {
      var c: ConnId :| c < |s.table| && !ConnDone(s.table[c]);
      assert Parked(s.table[c]);
      step := OfConn(c, ConnWake);
    }
  }

  /** Somebody can move until everybody is done. */
  lemma SomebodyMoves(s: State) returns (step: Step)
    requires Inv(s) && CloseCalled(s) && !AllDone(s)
    ensures Unprompted(s, step)
  {
    if !s.listener.LWaiting? && !s.listener.LFinished? {
      step := ListenerMoves(s);
    } else if s.listener.LFinished? && s.repeats > 0 {
      step := Listener(ListenerRepeatReturn);
    } else if s.acceptors > 0 {
      step := Accept(AcceptRefuse);
    } else if c: ConnId :| c < |s.table| && !s.table[c].place.Drained? && !Parked(s.table[c]) {
      step := UnparkedMoves(s, c);
    } else {
      assert OpenConns(s.table) == {};
      if !s.closer.GDone? {
        step := CloserMoves(s);
      } else if !s.reader.RDone? {
        step := ReaderMoves(s);
      } else {
        step := WaiterMoves(s);
      }
    }
  }

  /** Once Close was called on the listener and on every connection handed out,
      no reachable state is stuck before everybody is done. */
  lemma ShutdownNeverDeadlocks(s: State)
    requires Reachable(s) && CloseCalled(s) && !AllDone(s)
    ensures exists step :: Unprompted(s, step)
  {
    ReachableInv(s);
    var step := SomebodyMoves(s);
  }

  /** A run of steps nobody prompts. */
  ghost predicate UnpromptedRun(s: State, steps: seq<Step>, t: State)
    decreases |steps|
  {
    if steps == [] then s == t
    else Unprompted(s, steps[0]) && UnpromptedRun(After(s, steps[0]), steps[1..], t)
  }

  /** Left alone, the goroutines stop within Rank(s) steps; and if they stop with
      every Close called, then because everybody is done. */
  lemma {:induction false} ShutdownTerminates(s: State, steps: seq<Step>, t: State)
    requires Reachable(s) && UnpromptedRun(s, steps, t)
    ensures Reachable(t) && |steps| + Rank(t) <= Rank(s)
    ensures CloseCalled(t) && (forall step :: !Unprompted(t, step)) ==> AllDone(t)
    decreases |steps|
  {
    if steps == [] {
      if CloseCalled(t) && !AllDone(t) {
        ShutdownNeverDeadlocks(t);
      }
    } else {
      ReachableInv(s);
      EveryStepCounts(s, steps[0]);
      ReachableStep(s, steps[0], After(s, steps[0]));
      ShutdownTerminates(After(s, steps[0]), steps[1..], t);
    }
  }
}
