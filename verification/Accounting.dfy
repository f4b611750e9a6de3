/** What the invariant says about the map, the accept channel and the wait
    group, in every reachable state of every interleaving. */
module Accounting {
  import opened Sequences
  import opened Protocol
  import opened ProtocolInvariant

  /** Enqueued, and neither drained by the listener nor deleted by its Close. */
  predicate Live(k: Conn) {
    !k.place.Drained? && !Deleted(k.closing)
  }

  /** Whenever the lock is free the map holds exactly the live connections, each
      under its own address. */
  lemma MapIsExact(s: State, a: Addr, c: ConnId)
    requires Reachable(s) && s.lock.Free?
    ensures a in s.conns && s.conns[a] == c <==> c < |s.table| && c in s.sent && s.table[c].addr == a && Live(s.table[c])
  {
    ReachableInv(s);
    if c < |s.table| {
      assert s.sent[c] == c;
      assert Registered(s, c) <==> Live(s.table[c]);
    }
  }

  /** No two live connections share an address while the lock is free. */
  lemma OnePerAddress(s: State, c: ConnId, d: ConnId)
    requires Reachable(s) && s.lock.Free?
    requires c < |s.table| && Live(s.table[c]) && d < |s.table| && Live(s.table[d])
    requires s.table[c].addr == s.table[d].addr
    ensures c == d
  {
    ReachableInv(s);
    assert s.sent[c] == c && s.sent[d] == d;
    MapIsExact(s, s.table[c].addr, c);
    MapIsExact(s, s.table[d].addr, d);
  }

  /** t's map is s's map without c's own entry. */
  ghost predicate RemovesOwnEntry(s: State, c: ConnId, t: State) {
    && c < |s.table|
    && s.table[c].addr in s.conns && s.conns[s.table[c].addr] == c
    && (forall a :: a in t.conns <==> a in s.conns && s.conns[a] != c)
    && (forall a :: a in t.conns ==> t.conns[a] == s.conns[a])
  }

  /** The delete in Conn.Close never removes another connection's entry. */
  lemma CloseDeletesOwnEntry(s: State, c: ConnId)
    requires Reachable(s) && Enabled(s, OfConn(c, ConnDelete))
    ensures RemovesOwnEntry(s, c, After(s, OfConn(c, ConnDelete)))
  {
    ReachableInv(s);
    assert Registered(s, c);
  }

  /** Nor does the delete in the drain of supConn.Close. */
  lemma DrainDeletesOwnEntry(s: State)
    requires Reachable(s) && Enabled(s, Listener(ListenerDelete))
    ensures RemovesOwnEntry(s, s.listener.c, After(s, Listener(ListenerDelete)))
  {
    ReachableInv(s);
    assert Registered(s, s.listener.c);
  }

  // ---- the accept channel --------------------------------------------------

  /** Every connection enters acceptCh once and leaves it at most once, in
      order, either to Accept or to the drain. */
  lemma OnceThroughTheChannel(s: State)
    requires Reachable(s)
    ensures s.sent == s.taken + s.acceptCh && Distinct(s.sent)
    ensures forall c: ConnId :: c < |s.table| <==> c in s.sent
    ensures forall c: ConnId :: c < |s.table| ==> (c in s.acceptCh <==> s.table[c].place.Queued?)
    ensures |s.acceptCh| <= s.backlog
  {
    ReachableInv(s);
    forall c: ConnId | c < |s.table|
      ensures c in s.sent && (c in s.acceptCh <==> s.table[c].place.Queued?)
    {
      assert s.sent[c] == c;
      assert forall i: nat :: i < |s.acceptCh| ==> s.acceptCh[i] == s.sent[|s.taken| + i];
      if |s.taken| <= c {
        assert s.acceptCh[c - |s.taken|] == c;
      }
    }
  }

  /** No doneCh is ever closed twice, whatever the number of Close calls. */
  lemma DoneClosedOnce(s: State)
    requires Reachable(s)
    ensures s.doneCloses <= 1
    ensures forall c: ConnId :: c < |s.table| ==> s.table[c].doneCloses <= 1
  {
    ReachableInv(s);
  }

  // ---- the wait groups -----------------------------------------------------

  /** connWG is one for the listener until its Done, plus one for each
      connection handed out whose Close has not run Done; it is never negative,
      and neither Done nor the closing goroutine's Wait can misfire. */
  lemma ConnWGIsExact(s: State)
    requires Reachable(s)
    ensures s.connWG == (if ListenerReleased(s.listener) then 0 else 1) + |OpenConns(s.table)|
    ensures Enabled(s, Listener(ListenerRelease)) ==> s.connWG >= 1
    ensures forall c: ConnId :: Enabled(s, OfConn(c, ConnRelease)) ==> s.connWG >= 1
    ensures 0 <= s.readWG <= 2
  {
    ReachableInv(s);
    forall c: ConnId | Enabled(s, OfConn(c, ConnRelease))
      ensures s.connWG >= 1
    {
      assert c in OpenConns(s.table);
    }
  }

  /** Nobody waits for a wait group while holding the lock. */
  lemma NobodyWaitsWithLock(s: State)
    requires Reachable(s)
    ensures s.lock == ByListener ==> !s.listener.LWaiting?
    ensures s.lock.ByConn? ==> s.lock.c < |s.table| && !s.table[s.lock.c].closing.CWaiting?
  {
    ReachableInv(s);
  }

  // ---- after the drain -----------------------------------------------------

  /** From the end of the drain on: nothing enters the channel, no connection is
      created, and the map only loses entries. */
  ghost predicate OnlyShrinks(s: State, t: State) {
    && Swept(t.listener)
    && t.acceptCh == []
    && t.sent == s.sent
    && |t.table| == |s.table|
    && (forall a :: a in t.conns ==> a in s.conns && s.conns[a] == t.conns[a])
  }

  lemma ReaderOnlyShrinks(s: State, step: ReaderStep)
    requires SweepInv(s) && Swept(s.listener) && ReaderEnabled(s, step)
    ensures OnlyShrinks(s, AfterReader(s, step))
  {
  }

  lemma ListenerOnlyShrinks(s: State, step: ListenerStep)
    requires SweepInv(s) && Swept(s.listener) && ListenerEnabled(s, step)
    ensures OnlyShrinks(s, AfterListener(s, step))
  {
  }

  lemma ConnOnlyShrinks(s: State, c: ConnId, step: ConnStep)
    requires SweepInv(s) && Swept(s.listener) && c < |s.table| && ConnEnabled(s, c, step)
    ensures OnlyShrinks(s, AfterConn(s, c, step))
  {
  }

  lemma StepOnlyShrinks(s: State, step: Step)
    requires SweepInv(s) && Swept(s.listener) && Enabled(s, step)
    ensures OnlyShrinks(s, After(s, step))
  {
    match step
    case Reader(r) => ReaderOnlyShrinks(s, r);
    case Closer(g) =>
    case Accept(a) =>
    case Listener(l) => ListenerOnlyShrinks(s, l);
    case OfConn(c, k) => ConnOnlyShrinks(s, c, k);
  }

  /** The drain is final, although accepting is cleared outside the lock. */
  lemma {:induction false} DrainIsFinal(s: State, steps: seq<Step>, t: State)
    requires Reachable(s) && Swept(s.listener) && Leads(s, steps, t)
    ensures OnlyShrinks(s, t)
    decreases |steps|
  {
    ReachableInv(s);
    if steps != [] {
      var m := After(s, steps[0]);
      StepOnlyShrinks(s, steps[0]);
      ReachableStep(s, steps[0], m);
      DrainIsFinal(m, steps[1..], t);
    }
  }

}
