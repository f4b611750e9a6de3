/** Packets and buffers on top of the demultiplexer's step system.

    A World is a State of the protocol together with what the goroutines carry:
    the queue of every connection, the two buffer pools, and the buffers in the
    hands of the read loop and of Read calls.  Every protocol step may happen in
    a World, so all that is proved of the protocol holds here too.

    The ring queue enters by its contract: a bounded first-in first-out queue
    whose push fails when it is full or closed, whose pop fails when it is
    closed, and whose close hands the packets left to onQueueClose.  A pool may
    forget a buffer at any time. */
module Traffic {
  import opened Wrappers
  import opened Protocol

  const RECEIVE_BACKLOG: nat := 1024

  datatype Buf = Data(n: nat) | Oob(n: nat)

  /** receivedPacket: the packet with the two buffers that hold it. */
  datatype Item = Item(p: Packet, data: Buf, oob: Buf)

  /** One connection's side of the traffic.  `queue` is the ring queue and `hands`
      what Read calls have popped and not yet put back.  The rest is history: the
      packet that created the connection, what was pushed and as which arrival,
      what was popped, and what the close of the queue handed back. */
  datatype Stream = Stream(
    creator: Packet,
    queue: seq<Item>,
    closed: bool,
    hands: seq<Item>,
    pushed: seq<Packet>,
    at: seq<nat>,
    read: seq<Packet>,
    flushed: seq<Packet>
  )

  datatype World = World(
    ctl: State,
    streams: seq<Stream>,
    arrivals: seq<Packet>,
    discarded: seq<Packet>, // history: arrivals that were pushed to no queue
    data: Option<Buf>,      // the read loop's buf
    oob: Option<Buf>,       // the read loop's oobBuf
    bufPool: multiset<Buf>,
    oobPool: multiset<Buf>,
    dropped: multiset<Buf>,
    dataMade: nat,
    oobMade: nat
  )

  ghost predicate WorldInit(w: World) {
    && Init(w.ctl)
    && w == World(w.ctl, [], [], [], None, None, multiset{}, multiset{}, multiset{}, 0, 0)
  }

  datatype Move =
    | Ctl(step: Step)
    | GetData(from: Option<Buf>)      // bufPool.Get: a pooled buffer, or a new one
    | GetOob(from: Option<Buf>)       // oobPool.Get
    | Pop(c: ConnId)                  // queue.Pop of a Read call
    | PutBack(c: ConnId, i: nat)      // the two Put of that Read call
    | Forget(b: Buf)                  // a pool lets a buffer go

  predicate CanMove(w: World, m: Move) {
    match m
    case Ctl(step) =>
      && Enabled(w.ctl, step)
      && (step.Reader? && (step.r.Deliver? || step.r.ReadFail?) ==> w.data.Some? && w.oob.Some?)
    case GetData(from) =>
      w.ctl.reader.RReading? && w.data.None? && (from.Some? ==> from.value in w.bufPool)
    case GetOob(from) =>
      w.ctl.reader.RReading? && w.data.Some? && w.oob.None? && (from.Some? ==> from.value in w.oobPool)
    case Pop(c) =>
      && c < |w.streams| && c < |w.ctl.table| && w.ctl.table[c].place.HandedOut?
      && !w.streams[c].closed && w.streams[c].queue != []
    case PutBack(c, i) => c < |w.streams| && i < |w.streams[c].hands|
    case Forget(b) => b in w.bufPool || b in w.oobPool
  }

  function Moved(w: World, m: Move): World
    requires CanMove(w, m)
  {
    match m
    case Ctl(step) => Carry(w, step).(ctl := After(w.ctl, step))
    case GetData(from) => TakeData(w, from)
    case GetOob(from) => TakeOob(w, from)
    case Pop(c) => PopFrom(w, c)
    case PutBack(c, i) => PutBoth(w, c, i)
    case Forget(b) => Discard(w, b)
  }

  /** What a protocol step does to packets and buffers. */
  function Carry(w: World, step: Step): World {
    if step.Reader? then ReaderCarries(w, step.r)
    else if step.OfConn? && step.k.ConnCloseQueue? && step.c < |w.streams| then Flush(w, step.c)
    else w
  }

  function ReaderCarries(w: World, step: ReaderStep): World {
    var pc := w.ctl.reader;
    match step
    case Deliver(p) => w.(arrivals := w.arrivals + [p])
    case ReadFail => Drop(w)
    case ReaderSend => if pc.RCreating? && |w.ctl.acceptCh| < w.ctl.backlog then Open(w, pc.p) else w
    case ReaderUnlock => if pc.RUnlocking? && pc.to.None? then DropPacket(w, pc.p) else w
    case ReaderPush => if pc.RPushing? then Push(w, pc.c, pc.p) else w
    case _ => w
  }

  /** newSubConn: an empty queue for the connection p creates. */
  function Open(w: World, p: Packet): World {
    w.(streams := w.streams + [Stream(p, [], false, [], [], [], [], [])])
  }

  /** The read loop lets go of its buffers without putting them back. */
  function Drop(w: World): World {
    w.(data := None, oob := None, dropped := w.dropped + Loose(w.data) + Loose(w.oob))
  }

  function DropPacket(w: World, p: Packet): World {
    Drop(w).(discarded := w.discarded + [p])
  }

  function Loose(b: Option<Buf>): multiset<Buf> {
    if b.Some? then multiset{b.value} else multiset{}
  }

  /** queue.Push of dispatchMsg, whose error is ignored. */
  function Push(w: World, c: ConnId, p: Packet): World {
    if c < |w.streams| && w.data.Some? && w.oob.Some? && w.arrivals != []
       && !w.streams[c].closed && |w.streams[c].queue| < RECEIVE_BACKLOG
    then
      var st := w.streams[c];
      w.(data := None, oob := None,
         streams := w.streams[c := Enqueue(st, Item(p, w.data.value, w.oob.value), |w.arrivals| - 1)])
    else DropPacket(w, p)
  }

  function Enqueue(st: Stream, item: Item, n: nat): Stream {
    st.(queue := st.queue + [item], pushed := st.pushed + [item.p], at := st.at + [n])
  }

  /** queue.Close: onQueueClose puts the buffers of every packet left back. */
  function Flush(w: World, c: ConnId): World
    requires c < |w.streams|
  {
    var st := w.streams[c];
    w.(streams := w.streams[c := CloseQueue(st)],
       bufPool := w.bufPool + DataOf(st.queue),
       oobPool := w.oobPool + OobOf(st.queue))
  }

  function CloseQueue(st: Stream): Stream {
    st.(queue := [], closed := true, flushed := st.flushed + Packets(st.queue))
  }

  function TakeData(w: World, from: Option<Buf>): World {
    if from.Some?
    then w.(data := from, bufPool := w.bufPool - multiset{from.value})
    else w.(data := Some(Data(w.dataMade)), dataMade := w.dataMade + 1)
  }

  function TakeOob(w: World, from: Option<Buf>): World {
    if from.Some?
    then w.(oob := from, oobPool := w.oobPool - multiset{from.value})
    else w.(oob := Some(Oob(w.oobMade)), oobMade := w.oobMade + 1)
  }

  function PopFrom(w: World, c: ConnId): World
    requires c < |w.streams| && w.streams[c].queue != []
  {
    w.(streams := w.streams[c := Dequeue(w.streams[c])])
  }

  function Dequeue(st: Stream): Stream
    requires st.queue != []
  {
    st.(queue := st.queue[1..], hands := st.hands + [st.queue[0]], read := st.read + [st.queue[0].p])
  }

  function PutBoth(w: World, c: ConnId, i: nat): World
    requires c < |w.streams| && i < |w.streams[c].hands|
  {
    var item := w.streams[c].hands[i];
    w.(streams := w.streams[c := LetGo(w.streams[c], i)],
       bufPool := w.bufPool + multiset{item.data},
       oobPool := w.oobPool + multiset{item.oob})
  }

  function LetGo(st: Stream, i: nat): Stream
    requires i < |st.hands|
  {
    st.(hands := st.hands[..i] + st.hands[i + 1..])
  }

  function Discard(w: World, b: Buf): World
    requires b in w.bufPool || b in w.oobPool
  {
    if b in w.bufPool
    then w.(bufPool := w.bufPool - multiset{b}, dropped := w.dropped + multiset{b})
    else w.(oobPool := w.oobPool - multiset{b}, dropped := w.dropped + multiset{b})
  }

  function Packets(items: seq<Item>): (ps: seq<Packet>)
    ensures |ps| == |items| && forall i :: 0 <= i < |items| ==> ps[i] == items[i].p
  {
    seq(|items|, i requires 0 <= i < |items| => items[i].p)
  }

  function DataOf(items: seq<Item>): multiset<Buf> {
    if |items| == 0 then multiset{} else DataOf(items[..|items| - 1]) + multiset{items[|items| - 1].data}
  }

  function OobOf(items: seq<Item>): multiset<Buf> {
    if |items| == 0 then multiset{} else OobOf(items[..|items| - 1]) + multiset{items[|items| - 1].oob}
  }

  lemma MovedByPush(w: World)
    requires w.ctl.reader.RPushing?
    ensures CanMove(w, Ctl(Reader(ReaderPush)))
    ensures Moved(w, Ctl(Reader(ReaderPush))) ==
            Push(w, w.ctl.reader.c, w.ctl.reader.p).(ctl := w.ctl.(reader := RReading))
  {
  }

  lemma MovedBySend(w: World)
    requires w.ctl.reader.RCreating?
    ensures CanMove(w, Ctl(Reader(ReaderSend)))
    ensures Moved(w, Ctl(Reader(ReaderSend))) ==
            (if |w.ctl.acceptCh| < w.ctl.backlog then Open(w, w.ctl.reader.p) else w).(ctl := Send(w.ctl))
  {
  }

  // ---- runs ----------------------------------------------------------------

  ghost predicate MovesTo(w: World, moves: seq<Move>, v: World)
    decreases |moves|
  {
    if moves == [] then w == v
    else CanMove(w, moves[0]) && MovesTo(Moved(w, moves[0]), moves[1..], v)
  }

  ghost predicate WorldReachable(v: World) {
    exists w, moves :: WorldInit(w) && MovesTo(w, moves, v)
  }

  lemma {:induction false} MovesConcat(w: World, moves: seq<Move>, u: World, m: Move)
    requires MovesTo(w, moves, u) && CanMove(u, m)
    ensures MovesTo(w, moves + [m], Moved(u, m))
    decreases |moves|
  {
    if moves == [] {
      assert moves + [m] == [m];
      assert MovesTo(Moved(u, m), [], Moved(u, m));
    } else {
      assert (moves + [m])[1..] == moves[1..] + [m];
      MovesConcat(Moved(w, moves[0]), moves[1..], u, m);
    }
  }

  lemma WorldReachableMove(u: World, m: Move, v: World)
    requires WorldReachable(u) && CanMove(u, m) && v == Moved(u, m)
    ensures WorldReachable(v)
  {
    var w, moves :| WorldInit(w) && MovesTo(w, moves, u);
    MovesConcat(w, moves, u, m);
  }
}
