/** What every move does to the two pools and to the dropped buffers, exactly. */
module Pools {
  import opened Wrappers
  import opened Protocol
  import opened Traffic
  import opened Streams

  /** Conn.Close of c closes its queue. */
  predicate ClosesQueue(m: Move) {
    m.Ctl? && m.step.OfConn? && m.step.k.ConnCloseQueue?
  }

  /** The read loop lets go of its two buffers: the read failed, the packet got no
      connection, or its queue is closed or holds 1024 packets. */
  ghost predicate LetsGoOfBoth(w: World, m: Move) {
    && m.Ctl? && m.step.Reader?
    && (|| m.step.r.ReadFail?
        || (m.step.r.ReaderUnlock? && w.ctl.reader.RUnlocking? && w.ctl.reader.to.None?)
        || (m.step.r.ReaderPush? && w.ctl.reader.RPushing? && w.ctl.reader.c < |w.streams|
            && (w.streams[w.ctl.reader.c].closed || |w.streams[w.ctl.reader.c].queue| >= 1024)))
  }

  ghost function DataBuffers(items: seq<Item>): (bs: seq<Buf>)
    ensures |bs| == |items| && forall i :: 0 <= i < |items| ==> bs[i] == items[i].data
  {
    seq(|items|, i requires 0 <= i < |items| => items[i].data)
  }

  ghost function OobBuffers(items: seq<Item>): (bs: seq<Buf>)
    ensures |bs| == |items| && forall i :: 0 <= i < |items| ==> bs[i] == items[i].oob
  {
    seq(|items|, i requires 0 <= i < |items| => items[i].oob)
  }

  // ---- the three counts ----------------------------------------------------

  ghost predicate DroppedExactly(w: World, m: Move, v: World) {
    v.dropped == w.dropped +
      if m.Forget? then multiset{m.b}
      else if LetsGoOfBoth(w, m) && w.data.Some? && w.oob.Some? then multiset{w.data.value} + multiset{w.oob.value}
      else multiset{}
  }

  ghost predicate BufPoolExactly(w: World, m: Move, v: World) {
    if ClosesQueue(m) then
      && m.step.c < |w.streams|
      && v.bufPool == w.bufPool + multiset(DataBuffers(w.streams[m.step.c].queue))
    else if m.PutBack? then
      && m.c < |w.streams| && m.i < |w.streams[m.c].hands|
      && v.bufPool == w.bufPool + multiset{w.streams[m.c].hands[m.i].data}
    else if m.GetData? && m.from.Some? then
      m.from.value in w.bufPool && v.bufPool == w.bufPool - multiset{m.from.value}
    else if m.Forget? && m.b in w.bufPool then
      v.bufPool == w.bufPool - multiset{m.b}
    else
      v.bufPool == w.bufPool
  }

  ghost predicate OobPoolExactly(w: World, m: Move, v: World) {
    if ClosesQueue(m) then
      && m.step.c < |w.streams|
      && v.oobPool == w.oobPool + multiset(OobBuffers(w.streams[m.step.c].queue))
    else if m.PutBack? then
      && m.c < |w.streams| && m.i < |w.streams[m.c].hands|
      && v.oobPool == w.oobPool + multiset{w.streams[m.c].hands[m.i].oob}
    else if m.GetOob? && m.from.Some? then
      m.from.value in w.oobPool && v.oobPool == w.oobPool - multiset{m.from.value}
    else if m.Forget? && m.b !in w.bufPool then
      m.b in w.oobPool && v.oobPool == w.oobPool - multiset{m.b}
    else
      v.oobPool == w.oobPool
  }

  ghost predicate Exactly(w: World, m: Move, v: World) {
    DroppedExactly(w, m, v) && BufPoolExactly(w, m, v) && OobPoolExactly(w, m, v)
  }

  // ---- move by move --------------------------------------------------------

  lemma {:induction false} QueueData(q: seq<Item>)
    ensures DataOf(q) == multiset(DataBuffers(q))
    decreases |q|
  {
    if |q| > 0 {
      var last := |q| - 1;
      QueueData(q[..last]);
      assert DataBuffers(q) == DataBuffers(q[..last]) + [q[last].data];
    }
  }

  lemma {:induction false} QueueOob(q: seq<Item>)
    ensures OobOf(q) == multiset(OobBuffers(q))
    decreases |q|
  {
    if |q| > 0 {
      var last := |q| - 1;
      QueueOob(q[..last]);
      assert OobBuffers(q) == OobBuffers(q[..last]) + [q[last].oob];
    }
  }

  lemma CloseReturns(w: World, step: Step)
    requires CanMove(w, Ctl(step)) && ClosesQueue(Ctl(step)) && step.c < |w.streams|
    ensures Exactly(w, Ctl(step), Moved(w, Ctl(step)))
  {
    QueueData(w.streams[step.c].queue);
    QueueOob(w.streams[step.c].queue);
    var v := Moved(w, Ctl(step));
    assert v == Flush(w, step.c).(ctl := v.ctl);
  }

  lemma ReaderLetsGo(w: World, step: ReaderStep)
    requires CarryOk(w) && CanMove(w, Ctl(Reader(step))) && (w.ctl.reader.RPushing? ==> w.ctl.reader.c < |w.streams|)
    ensures Exactly(w, Ctl(Reader(step)), Moved(w, Ctl(Reader(step))))
  {
    ReaderDrops(w, step);
    ReaderKeepsPools(w, step);
    var v := Moved(w, Ctl(Reader(step)));
    assert v == ReaderCarries(w, step).(ctl := v.ctl);
  }

  lemma ReaderDrops(w: World, step: ReaderStep)
    requires CarryOk(w) && ReaderReady(w.ctl.reader, step) && (step.ReadFail? ==> w.data.Some? && w.oob.Some?)
    requires w.ctl.reader.RPushing? ==> w.ctl.reader.c < |w.streams|
    ensures DroppedExactly(w, Ctl(Reader(step)), ReaderCarries(w, step))
  {
  }

  lemma OthersTouchNothing(w: World, step: Step)
    requires CanMove(w, Ctl(step)) && !step.Reader? && !ClosesQueue(Ctl(step))
    ensures Exactly(w, Ctl(step), Moved(w, Ctl(step)))
  {
    assert Carry(w, step) == w;
  }

  lemma PoolMoves(w: World, m: Move)
    requires CanMove(w, m) && !m.Ctl?
    ensures Exactly(w, m, Moved(w, m))
  {
  }

  /** In every reachable world: closing a queue puts the data buffers of its packets
      into the one pool and their out-of-band buffers into the other, a Read puts its
      two back, Get takes from its pool, and buffers are dropped only by a pool that
      forgets one, a failed read, a packet that gets no connection and a failed push. */
  lemma PoolsAreExact(w: World, m: Move)
    requires WorldReachable(w) && CanMove(w, m)
    ensures Exactly(w, m, Moved(w, m))
  {
    WorldFlows(w);
    if !m.Ctl? {
      PoolMoves(w, m);
    } else if m.step.Reader? {
      if w.ctl.reader.RPushing? {
        PushTarget(w);
      }
      ReaderLetsGo(w, m.step.r);
    } else if ClosesQueue(m) {
      CloseReturns(w, m.step);
    } else {
      OthersTouchNothing(w, m.step);
    }
  }
}
