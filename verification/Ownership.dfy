/** Every buffer the read loop ever took has exactly one owner. */
module Ownership {
  import opened Wrappers
  import opened Sums
  import opened Protocol
  import opened Traffic

  function Uses(b: Buf): Item -> nat {
    (item: Item) => (if item.data == b then 1 else 0) + (if item.oob == b then 1 else 0)
  }

  /** How often b is in the queue or in the readers' hands of a connection. */
  function Holds(b: Buf): Stream -> nat {
    (st: Stream) => Sum(st.queue, Uses(b)) + Sum(st.hands, Uses(b))
  }

  function Is(o: Option<Buf>, b: Buf): nat {
    if o == Some(b) then 1 else 0
  }

  /** How often b occurs with all its possible owners together: the pools, the
      dropped, the read loop, and the queues and readers of all connections. */
  function Owners(w: World, b: Buf): nat {
    w.bufPool[b] + w.oobPool[b] + w.dropped[b] + Is(w.data, b) + Is(w.oob, b) + Sum(w.streams, Holds(b))
  }

  predicate Made(w: World, b: Buf) {
    match b
    case Data(n) => n < w.dataMade
    case Oob(n) => n < w.oobMade
  }

  /** Linear ownership. */
  ghost predicate Owned(w: World) {
    forall b :: Owners(w, b) == if Made(w, b) then 1 else 0
  }

  // ---- every move conserves ------------------------------------------------

  lemma {:induction false} ItemsCount(items: seq<Item>, b: Buf)
    ensures DataOf(items)[b] + OobOf(items)[b] == Sum(items, Uses(b))
  {
    if items != [] {
      ItemsCount(items[..|items| - 1], b);
    }
  }

  lemma PushConserves(w: World, c: ConnId, p: Packet, b: Buf)
    ensures Owners(Push(w, c, p), b) == Owners(w, b)
  {
    var v := Push(w, c, p);
    if v.streams != w.streams {
      SumAppend(w.streams[c].queue, Item(p, w.data.value, w.oob.value), Uses(b));
      SumUpdate(w.streams, c, v.streams[c], Holds(b));
    }
  }

  lemma DropConserves(w: World, b: Buf)
    ensures Owners(Drop(w), b) == Owners(w, b)
  {
  }

  lemma ReaderConserves(w: World, step: ReaderStep, b: Buf)
    ensures Owners(ReaderCarries(w, step), b) == Owners(w, b)
  {
    var pc := w.ctl.reader;
    match step
    case ReaderSend =>
      if pc.RCreating? {
        SumAppend(w.streams, Stream(pc.p, [], false, [], [], [], [], []), Holds(b));
      }
    case ReaderPush =>
      if pc.RPushing? {
        PushConserves(w, pc.c, pc.p, b);
      }
    case ReadFail => DropConserves(w, b);
    case ReaderUnlock => DropConserves(w, b);
    case _ =>
  }

  lemma FlushConserves(w: World, c: ConnId, b: Buf)
    requires c < |w.streams|
    ensures Owners(Flush(w, c), b) == Owners(w, b)
  {
    ItemsCount(w.streams[c].queue, b);
    SumUpdate(w.streams, c, Flush(w, c).streams[c], Holds(b));
  }

  lemma PopConserves(w: World, c: ConnId, b: Buf)
    requires c < |w.streams| && w.streams[c].queue != []
    ensures Owners(PopFrom(w, c), b) == Owners(w, b)
  {
    DequeueConserves(w.streams[c], b);
    SumUpdate(w.streams, c, Dequeue(w.streams[c]), Holds(b));
  }

  lemma DequeueConserves(st: Stream, b: Buf)
    requires st.queue != []
    ensures Holds(b)(Dequeue(st)) == Holds(b)(st)
  {
    SumRemove(st.queue, 0, Uses(b));
    assert st.queue[..0] + st.queue[1..] == st.queue[1..];
    SumAppend(st.hands, st.queue[0], Uses(b));
  }

  lemma PutConserves(w: World, c: ConnId, i: nat, b: Buf)
    requires c < |w.streams| && i < |w.streams[c].hands|
    ensures Owners(PutBoth(w, c, i), b) == Owners(w, b)
  {
    SumRemove(w.streams[c].hands, i, Uses(b));
    SumUpdate(w.streams, c, PutBoth(w, c, i).streams[c], Holds(b));
  }

  lemma CarryConserves(w: World, step: Step, b: Buf)
    ensures Owners(Carry(w, step), b) == Owners(w, b)
  {
    if step.Reader? {
      ReaderConserves(w, step.r, b);
    } else if step.OfConn? && step.k.ConnCloseQueue? && step.c < |w.streams| {
      FlushConserves(w, step.c, b);
    }
  }

  lemma CarryMakesNothing(w: World, step: Step)
    ensures Carry(w, step).dataMade == w.dataMade && Carry(w, step).oobMade == w.oobMade
  {
  }

  /** v's owners of b are w's, and one more if b was made in between. */
  predicate Balanced(w: World, v: World, b: Buf) {
    && Owners(v, b) == Owners(w, b) + (if Made(v, b) && !Made(w, b) then 1 else 0)
    && (Made(w, b) ==> Made(v, b))
  }

  lemma CtlBalances(w: World, step: Step, b: Buf)
    requires CanMove(w, Ctl(step))
    ensures Balanced(w, Moved(w, Ctl(step)), b)
  {
    CarryConserves(w, step, b);
    CarryMakesNothing(w, step);
    var v := Moved(w, Ctl(step));
    assert v == Carry(w, step).(ctl := v.ctl);
  }

  lemma GetDataBalances(w: World, from: Option<Buf>, b: Buf)
    requires w.data.None? && (from.Some? ==> from.value in w.bufPool)
    ensures Balanced(w, TakeData(w, from), b)
  {
    var v := TakeData(w, from);
    assert v.streams == w.streams;
  }

  lemma GetOobBalances(w: World, from: Option<Buf>, b: Buf)
    requires w.oob.None? && (from.Some? ==> from.value in w.oobPool)
    ensures Balanced(w, TakeOob(w, from), b)
  {
    var v := TakeOob(w, from);
    assert v.streams == w.streams;
  }

  lemma DiscardBalances(w: World, lost: Buf, b: Buf)
    requires lost in w.bufPool || lost in w.oobPool
    ensures Balanced(w, Discard(w, lost), b)
  {
    assert Discard(w, lost).streams == w.streams;
  }

  /** A move takes from one owner what it gives to another; only Get makes. */
  lemma MoveBalances(w: World, m: Move, b: Buf)
    requires CanMove(w, m)
    ensures Balanced(w, Moved(w, m), b)
  {
    match m
    case Ctl(step) => CtlBalances(w, step, b);
    case GetData(from) => GetDataBalances(w, from, b);
    case GetOob(from) => GetOobBalances(w, from, b);
    case Pop(c) => PopConserves(w, c, b);
    case PutBack(c, i) => PutConserves(w, c, i, b);
    case Forget(lost) => DiscardBalances(w, lost, b);
  }

  lemma {:induction false} RunOwns(w: World, moves: seq<Move>, v: World)
    requires Owned(w) && MovesTo(w, moves, v)
    ensures Owned(v)
    decreases |moves|
  {
    if moves != [] {
      var m := Moved(w, moves[0]);
      forall b
        ensures Owners(m, b) == if Made(m, b) then 1 else 0
      {
        MoveBalances(w, moves[0], b);
      }
      RunOwns(m, moves[1..], v);
    }
  }

  // ---- what it means -------------------------------------------------------

  /** c's queue or one of its Read calls has b. */
  ghost predicate HasIn(items: seq<Item>, b: Buf) {
    exists i :: 0 <= i < |items| && (items[i].data == b || items[i].oob == b)
  }

  lemma HoldersAreCounted(w: World, c: ConnId, b: Buf)
    requires c < |w.streams|
    ensures HasIn(w.streams[c].queue, b) ==> Sum(w.streams[c].queue, Uses(b)) >= 1
    ensures HasIn(w.streams[c].hands, b) ==> Sum(w.streams[c].hands, Uses(b)) >= 1
    ensures Holds(b)(w.streams[c]) <= Sum(w.streams, Holds(b))
  {
    var st := w.streams[c];
    if HasIn(st.queue, b) {
      var i :| 0 <= i < |st.queue| && (st.queue[i].data == b || st.queue[i].oob == b);
      SumBoundsPart(st.queue, i, Uses(b));
    }
    if HasIn(st.hands, b) {
      var i :| 0 <= i < |st.hands| && (st.hands[i].data == b || st.hands[i].oob == b);
      SumBoundsPart(st.hands, i, Uses(b));
    }
    SumBoundsPart(w.streams, c, Holds(b));
  }

  /** In every reachable state every buffer ever made has exactly one owner. */
  lemma OneOwner(v: World, b: Buf)
    requires WorldReachable(v)
    ensures Owners(v, b) == if Made(v, b) then 1 else 0
  {
    var w, moves :| WorldInit(w) && MovesTo(w, moves, v);
    RunOwns(w, moves, v);
  }

  /** So a buffer that a queue or a reader has is not in a pool, nor with the
      read loop, nor dropped: it can be put back, and only once. */
  lemma HeldIsNotPooled(v: World, c: ConnId, b: Buf)
    requires WorldReachable(v) && c < |v.streams|
    requires HasIn(v.streams[c].queue, b) || HasIn(v.streams[c].hands, b)
    ensures b !in v.bufPool && b !in v.oobPool && b !in v.dropped && v.data != Some(b) && v.oob != Some(b)
    ensures !(HasIn(v.streams[c].queue, b) && HasIn(v.streams[c].hands, b))
  {
    OneOwner(v, b);
    HoldersAreCounted(v, c, b);
  }

  /** And no two connections have the same buffer. */
  lemma HeldByOneConn(v: World, c: ConnId, d: ConnId, b: Buf)
    requires WorldReachable(v) && c < |v.streams| && d < |v.streams|
    requires HasIn(v.streams[c].queue, b) || HasIn(v.streams[c].hands, b)
    requires HasIn(v.streams[d].queue, b) || HasIn(v.streams[d].hands, b)
    ensures c == d
  {
    OneOwner(v, b);
    HoldersAreCounted(v, c, b);
    HoldersAreCounted(v, d, b);
    if c != d {
      SumBoundsTwo(v.streams, c, d, Holds(b));
      assert false;
    }
  }
}
