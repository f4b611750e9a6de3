/** No packet vanishes between the socket and the readers. */
module Conservation {
  import opened Sums
  import opened Protocol
  import opened Traffic
  import opened Streams

  function PushedAs(p: Packet): Stream -> nat {
    (st: Stream) => multiset(st.pushed)[p]
  }

  function Carried(pc: ReaderPc, p: Packet): nat {
    if Carrying(pc) && pc.p == p then 1 else 0
  }

  /** How often p was pushed to a queue, was discarded or is with the read loop. */
  function Found(w: World, p: Packet): nat {
    Sum(w.streams, PushedAs(p)) + multiset(w.discarded)[p] + Carried(w.ctl.reader, p)
  }

  /** v accounts for as many more p than w as have arrived in between. */
  predicate Accounts(w: World, v: World, p: Packet) {
    Found(v, p) + multiset(w.arrivals)[p] == Found(w, p) + multiset(v.arrivals)[p]
  }

  lemma OneStreamAccounts(w: World, c: ConnId, st: Stream, p: Packet)
    requires c < |w.streams| && st.pushed == w.streams[c].pushed
    ensures Sum(w.streams[c := st], PushedAs(p)) == Sum(w.streams, PushedAs(p))
  {
    SumUpdate(w.streams, c, st, PushedAs(p));
  }

  lemma EnqueueAccounts(w: World, c: ConnId, item: Item, n: nat, p: Packet)
    requires c < |w.streams|
    ensures Sum(w.streams[c := Enqueue(w.streams[c], item, n)], PushedAs(p)) ==
            Sum(w.streams, PushedAs(p)) + if item.p == p then 1 else 0
  {
    SumUpdate(w.streams, c, Enqueue(w.streams[c], item, n), PushedAs(p));
  }

  /** A push that succeeds shows in the stream, one that fails in the discarded. */
  lemma PushCounts(w: World, c: ConnId, q: Packet, p: Packet)
    ensures var v := Push(w, c, q);
            && v.arrivals == w.arrivals
            && Sum(v.streams, PushedAs(p)) + multiset(v.discarded)[p] ==
               Sum(w.streams, PushedAs(p)) + multiset(w.discarded)[p] + if q == p then 1 else 0
  {
    var v := Push(w, c, q);
    if v.discarded == w.discarded {
      EnqueueAccounts(w, c, Item(q, w.data.value, w.oob.value), |w.arrivals| - 1, p);
    } else {
      assert v.streams == w.streams;
    }
  }

  lemma PushAccounts(w: World, p: Packet)
    requires CanMove(w, Ctl(Reader(ReaderPush)))
    ensures Accounts(w, Moved(w, Ctl(Reader(ReaderPush))), p)
  {
    MovedByPush(w);
    PushCounts(w, w.ctl.reader.c, w.ctl.reader.p, p);
  }

  lemma SendAccounts(w: World, p: Packet)
    requires CanMove(w, Ctl(Reader(ReaderSend)))
    ensures Accounts(w, Moved(w, Ctl(Reader(ReaderSend))), p)
  {
    MovedBySend(w);
    SumAppend(w.streams, Stream(w.ctl.reader.p, [], false, [], [], [], [], []), PushedAs(p));
  }

  /** The other steps of the read loop leave the streams alone. */
  lemma PassingAccounts(w: World, step: ReaderStep, p: Packet)
    requires CanMove(w, Ctl(Reader(step))) && !step.ReaderPush? && !step.ReaderSend?
    ensures Accounts(w, Moved(w, Ctl(Reader(step))), p)
  {
    PassingCounts(w, step, p);
    PassingCarries(w.ctl, step, p);
  }

  lemma PassingCounts(w: World, step: ReaderStep, p: Packet)
    requires ReaderReady(w.ctl.reader, step) && !step.ReaderPush? && !step.ReaderSend?
    ensures var v := ReaderCarries(w, step);
            && v.streams == w.streams
            && v.arrivals == w.arrivals + (if step.Deliver? then [step.p] else [])
            && v.discarded == w.discarded + (if step.ReaderUnlock? && w.ctl.reader.to.None? then [w.ctl.reader.p] else [])
  {
  }

  lemma PassingCarries(s: State, step: ReaderStep, p: Packet)
    requires ReaderEnabled(s, step) && !step.ReaderPush? && !step.ReaderSend?
    ensures Carried(AfterReader(s, step).reader, p) ==
            Carried(s.reader, p) + (if step.Deliver? && step.p == p then 1 else 0)
                                 - (if step.ReaderUnlock? && s.reader.to.None? && s.reader.p == p then 1 else 0)
  {
  }

  lemma OthersAccount(w: World, step: Step, p: Packet)
    requires CanMove(w, Ctl(step)) && !step.Reader?
    ensures Accounts(w, Moved(w, Ctl(step)), p)
  {
    StepSameConns(w.ctl, step);
    if Closes(step).Some? && step.c < |w.streams| {
      OneStreamAccounts(w, step.c, CloseQueue(w.streams[step.c]), p);
    }
  }

  lemma CtlAccounts(w: World, step: Step, p: Packet)
    requires CanMove(w, Ctl(step))
    ensures Accounts(w, Moved(w, Ctl(step)), p)
  {
    if !step.Reader? {
      OthersAccount(w, step, p);
    } else if step.r.ReaderPush? {
      PushAccounts(w, p);
    } else if step.r.ReaderSend? {
      SendAccounts(w, p);
    } else {
      PassingAccounts(w, step.r, p);
    }
  }

  lemma MoveAccounts(w: World, m: Move, p: Packet)
    requires CanMove(w, m)
    ensures Accounts(w, Moved(w, m), p)
  {
    match m
    case Ctl(step) => CtlAccounts(w, step, p);
    case Pop(c) => OneStreamAccounts(w, c, Dequeue(w.streams[c]), p);
    case PutBack(c, i) => OneStreamAccounts(w, c, LetGo(w.streams[c], i), p);
    case _ => assert Moved(w, m).streams == w.streams;
  }

  lemma {:induction false} RunAccounts(w: World, moves: seq<Move>, v: World, p: Packet)
    requires MovesTo(w, moves, v)
    ensures Accounts(w, v, p)
    decreases |moves|
  {
    if moves != [] {
      MoveAccounts(w, moves[0], p);
      RunAccounts(Moved(w, moves[0]), moves[1..], v, p);
    }
  }

  /** What became of the packets pushed to a connection. */
  function FateOf(p: Packet): Stream -> nat {
    (st: Stream) => multiset(st.read)[p] + multiset(Packets(st.queue))[p] + multiset(st.flushed)[p]
  }

  lemma {:induction false} FatesAgree(streams: seq<Stream>, p: Packet)
    requires forall c :: 0 <= c < |streams| ==> Faithful(streams[c])
    ensures Sum(streams, FateOf(p)) == Sum(streams, PushedAs(p))
  {
    if streams != [] {
      FatesAgree(streams[..|streams| - 1], p);
      assert Faithful(streams[|streams| - 1]);
    }
  }

  /** In every reachable state each packet that arrived was read by a connection,
      is in its queue, was handed back when the queue was closed, was discarded or
      is with the read loop: counted with repetition, there are exactly as many of
      these as have arrived. */
  lemma NoPacketVanishes(v: World, p: Packet)
    requires WorldReachable(v)
    ensures multiset(v.arrivals)[p] ==
            Sum(v.streams, FateOf(p)) + multiset(v.discarded)[p] + Carried(v.ctl.reader, p)
  {
    var w, moves :| WorldInit(w) && MovesTo(w, moves, v);
    RunAccounts(w, moves, v, p);
    WorldFlows(v);
    forall c | 0 <= c < |v.streams|
      ensures Faithful(v.streams[c])
    {
      assert StreamOk(v.streams[c], v.ctl.table[c], Bringing(v.ctl.reader, c), v.arrivals, Handled(v));
    }
    FatesAgree(v.streams, p);
  }
}
