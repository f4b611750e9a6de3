/** batchReader of raw/sys_conn_oob_reader.go: packets read from the kernel in
    batches and handed out one at a time.

    Byte buffers are named by BufId, and `store` is the memory behind the names:
    what a ByteBuffer's slice B holds.  A slot refers to its buffers by name, so
    two slots that name the same buffer share it, as slices do.  The kernel's
    answer to a ReadBatch call is a parameter of the call that needs it. */
module BatchReading {
  import opened Wrappers
  import opened Sequences
  import opened Bytes

  type Uint8 = x: int | 0 <= x < 256

  type BufId = nat

  type Error = string

  const BATCH_SIZE: nat := 8
  const MAX_PACKET_BUFFER_SIZE: nat := 1452
  const OOB_BUFFER_SIZE: nat := 128

  datatype Message = Message(data: seq<Byte>, oob: seq<Byte>, addr: string)

  /** ipv4.Message with its one data slice. */
  datatype Slot = Slot(data: BufId, oob: BufId, n: nat, nn: nat, addr: string)

  /** What ReadBatch returns: the messages it stored, and an error. */
  datatype KernelResult = KernelResult(msgs: seq<Message>, err: Option<Error>)

  type Store = map<BufId, seq<Byte>>

  function Min(a: nat, b: nat): (m: nat)
    ensures m <= a && m <= b && (m == a || m == b)
  {
    if a < b then a else b
  }

  /** As much of m as fits. */
  function Clip(m: Message, dataLen: nat, oobLen: nat): Message {
    Message(m.data[..Min(|m.data|, dataLen)], m.oob[..Min(|m.oob|, oobLen)], m.addr)
  }

  predicate SlotOk(store: Store, s: Slot) {
    s.data in store && s.oob in store && s.n <= |store[s.data]| && s.nn <= |store[s.oob]|
  }

  /** The message a slot holds. */
  function Content(store: Store, s: Slot): Message
    requires SlotOk(store, s)
  {
    Message(store[s.data][..s.n], store[s.oob][..s.nn], s.addr)
  }

  /** The messages of consecutive slots. */
  function Contents(store: Store, slots: seq<Slot>): (ms: seq<Message>)
    requires forall i :: 0 <= i < |slots| ==> SlotOk(store, slots[i])
    ensures |ms| == |slots| && forall i :: 0 <= i < |slots| ==> ms[i] == Content(store, slots[i])
  {
    seq(|slots|, i requires 0 <= i < |slots| => Content(store, slots[i]))
  }

  /** Sixteen different buffers, large enough. */
  predicate BuffersOk(store: Store, buffers: seq<BufId>, oobBuffers: seq<BufId>) {
    && |buffers| == |oobBuffers| == BATCH_SIZE
    && Distinct(buffers) && Distinct(oobBuffers)
    && (forall i, j :: 0 <= i < BATCH_SIZE && 0 <= j < BATCH_SIZE ==> buffers[i] != oobBuffers[j])
    && (forall i :: 0 <= i < BATCH_SIZE ==> buffers[i] in store && |store[buffers[i]]| >= MAX_PACKET_BUFFER_SIZE)
    && (forall i :: 0 <= i < BATCH_SIZE ==> oobBuffers[i] in store && |store[oobBuffers[i]]| >= OOB_BUFFER_SIZE)
  }

  /** Each message as far as it fits the buffers of its slot. */
  function Fit(msgs: seq<Message>, store: Store, buffers: seq<BufId>, oobBuffers: seq<BufId>): (f: seq<Message>)
    requires BuffersOk(store, buffers, oobBuffers) && |msgs| <= BATCH_SIZE
    ensures |f| == |msgs|
    ensures forall i :: 0 <= i < |msgs| ==> f[i] == Clip(msgs[i], |store[buffers[i]]|, |store[oobBuffers[i]]|)
  {
    seq(|msgs|, i requires 0 <= i < |msgs| => Clip(msgs[i], |store[buffers[i]]|, |store[oobBuffers[i]]|))
  }

  /** Slot i points at its own two buffers. */
  predicate OwnBuffers(slots: seq<Slot>, buffers: seq<BufId>, oobBuffers: seq<BufId>, i: nat)
    requires i < |slots| && i < |buffers| && i < |oobBuffers|
  {
    slots[i].data == buffers[i] && slots[i].oob == oobBuffers[i]
  }

  /** What every ReadBatch call finds: all slots point at buffers of their own,
      none shared, each large enough. */
  predicate ReadyForBatch(store: Store, slots: seq<Slot>, buffers: seq<BufId>, oobBuffers: seq<BufId>) {
    && |slots| == BATCH_SIZE
    && BuffersOk(store, buffers, oobBuffers)
    && (forall i :: 0 <= i < BATCH_SIZE ==> OwnBuffers(slots, buffers, oobBuffers, i) && SlotOk(store, slots[i]))
  }

  // ---- the kernel's side ---------------------------------------------------

  function Overwrite(old': seq<Byte>, new': seq<Byte>): (r: seq<Byte>)
    ensures |r| == |old'|
    ensures r[..Min(|new'|, |old'|)] == new'[..Min(|new'|, |old'|)]
  {
    var n := Min(|new'|, |old'|);
    new'[..n] + old'[n..]
  }

  /** The kernel stores one message through a slot. */
  function Receive(store: Store, s: Slot, m: Message): (Store, Slot)
    requires SlotOk(store, s)
  {
    var store1 := store[s.data := Overwrite(store[s.data], m.data)];
    var store2 := store1[s.oob := Overwrite(store1[s.oob], m.oob)];
    (store2, s.(n := Min(|m.data|, |store[s.data]|), nn := Min(|m.oob|, |store[s.oob]|), addr := m.addr))
  }

  /** Through a slot whose two buffers differ the message arrives whole, as far as
      it fits; no other buffer changes. */
  lemma ReceiveArrives(store: Store, s: Slot, m: Message)
    requires SlotOk(store, s) && s.data != s.oob
    ensures var (t, s') := Receive(store, s, m);
            && s'.data == s.data && s'.oob == s.oob
            && SlotOk(t, s')
            && Content(t, s') == Clip(m, |store[s.data]|, |store[s.oob]|)
            && t.Keys == store.Keys
            && (forall b :: b in store ==> |t[b]| == |store[b]|)
            && (forall b :: b in store && b != s.data && b != s.oob ==> t[b] == store[b])
  {
  }

  /** Through a slot whose two names are one buffer the out-of-band bytes go over
      the data: it survives if and only if they agree with it as far as they reach. */
  lemma SharedSlotKeepsDataIff(store: Store, s: Slot, m: Message)
    requires SlotOk(store, s) && s.data == s.oob
    ensures var (t, s') := Receive(store, s, m);
            && SlotOk(t, s')
            && (Content(t, s').data == Clip(m, |store[s.data]|, |store[s.oob]|).data <==>
                forall i :: 0 <= i < |m.data| && i < |m.oob| && i < |store[s.data]| ==> m.oob[i] == m.data[i])
  {
    var (t, s') := Receive(store, s, m);
    var len := |store[s.data]|;
    var data, clipped := Content(t, s').data, Clip(m, len, len).data;
    assert |data| == |clipped| == Min(|m.data|, len);
    forall i | 0 <= i < |data|
      ensures data[i] == if i < |m.oob| then m.oob[i] else m.data[i]
      ensures clipped[i] == m.data[i]
    {
    }
    if forall i :: 0 <= i < |m.data| && i < |m.oob| && i < len ==> m.oob[i] == m.data[i] {
      assert data == clipped;
    } else {
      var i :| 0 <= i < |m.data| && i < |m.oob| && i < len && m.oob[i] != m.data[i];
      assert data[i] != clipped[i];
    }
  }

  /** reader.ReadBatch over the whole window: it must find all slots on buffers of
      their own, and stores the messages into the first of them. */
  method ReadBatch(store: Store, slots: seq<Slot>, ghost buffers: seq<BufId>, ghost oobBuffers: seq<BufId>,
                   kernel: KernelResult)
    returns (store': Store, slots': seq<Slot>)
    requires ReadyForBatch(store, slots, buffers, oobBuffers)
    requires |kernel.msgs| <= BATCH_SIZE
    ensures ReadyForBatch(store', slots', buffers, oobBuffers)
    ensures store'.Keys == store.Keys && forall b :: b in store ==> |store'[b]| == |store[b]|
    ensures Contents(store', slots'[..|kernel.msgs|]) == Fit(kernel.msgs, store', buffers, oobBuffers)
    ensures forall i :: |kernel.msgs| <= i < BATCH_SIZE ==>
              slots'[i] == slots[i] && Content(store', slots'[i]) == Content(store, slots[i])
  {
    store', slots' := store, slots;
    for i := 0 to |kernel.msgs|
      invariant ReadyForBatch(store', slots', buffers, oobBuffers)
      invariant store'.Keys == store.Keys && forall b :: b in store ==> |store'[b]| == |store[b]|
      invariant forall j :: 0 <= j < i ==>
                  Content(store', slots'[j]) == Clip(kernel.msgs[j], |store[buffers[j]]|, |store[oobBuffers[j]]|)
      invariant forall j :: i <= j < BATCH_SIZE ==>
                  slots'[j] == slots[j] && Content(store', slots'[j]) == Content(store, slots[j])
    {
      ReceiveArrives(store', slots'[i], kernel.msgs[i]);
      var (t, s) := Receive(store', slots'[i], kernel.msgs[i]);
      ReceiveSpares(store', slots', buffers, oobBuffers, i, kernel.msgs[i]);
      store', slots' := t, slots'[i := s];
    }
  }

  /** A receive through slot i leaves every other slot's message alone. */
  lemma ReceiveSpares(store: Store, slots: seq<Slot>, buffers: seq<BufId>, oobBuffers: seq<BufId>,
                      i: nat, m: Message)
    requires ReadyForBatch(store, slots, buffers, oobBuffers) && i < BATCH_SIZE
    ensures var (t, s) := Receive(store, slots[i], m);
            && ReadyForBatch(t, slots[i := s], buffers, oobBuffers)
            && forall j :: 0 <= j < BATCH_SIZE && j != i ==> Content(t, slots[j]) == Content(store, slots[j])
  {
    ReceiveArrives(store, slots[i], m);
    var (t, s) := Receive(store, slots[i], m);
    forall j | 0 <= j < BATCH_SIZE && j != i
      ensures SlotOk(t, slots[j]) && Content(t, slots[j]) == Content(store, slots[j])
    {
      assert OwnBuffers(slots, buffers, oobBuffers, j) && OwnBuffers(slots, buffers, oobBuffers, i);
    }
  }

  // ---- buffer pools --------------------------------------------------------

  /** A pool's free buffers are known; `next` names no buffer yet. */
  ghost predicate PoolOk(free: set<BufId>, store: Store, next: nat) {
    && free <= store.Keys
    && (forall b :: b in store ==> b < next)
  }

  /** Pool.Get: some free buffer, or a new empty one. */
  method PoolGet(free: set<BufId>, store: Store, next: nat)
    returns (id: BufId, free': set<BufId>, store': Store, next': nat)
    requires PoolOk(free, store, next)
    ensures PoolOk(free', store', next') && id in store' && free' == free - {id}
    ensures if id in free then store' == store && next' == next
            else id !in store && store' == store[id := []] && next' == next + 1
  {
    if free == {} {
      id, free', store', next' := next, free, store[next := []], next + 1;
    } else {
      id :| id in free;
      free', store', next' := free - {id}, store, next;
    }
  }

  /** renewBuffer: a buffer that is too short goes back to the pool and another is
      taken, made long enough; one that is not stays. */
  method RenewBuffer(bufs: seq<BufId>, free: set<BufId>, store: Store, next: nat, idx: nat, size: nat)
    returns (bufs': seq<BufId>, free': set<BufId>, store': Store, next': nat, ghost puts: multiset<BufId>)
    requires idx < |bufs| && bufs[idx] in store && bufs[idx] !in free && PoolOk(free, store, next)
    ensures PoolOk(free', store', next') && |bufs'| == |bufs|
    ensures bufs'[idx] in store' && |store'[bufs'[idx]]| >= size && bufs'[idx] !in free'
    ensures forall j :: 0 <= j < |bufs| && j != idx ==> bufs'[j] == bufs[j]
    ensures |store[bufs[idx]]| >= size ==> bufs' == bufs && free' == free && store' == store && next' == next
    ensures |store[bufs[idx]]| < size ==> free' == free + {bufs[idx]} - {bufs'[idx]}
    ensures puts == if |store[bufs[idx]]| < size then multiset{bufs[idx]} else multiset{}
  {
    bufs', free', store', next', puts := bufs, free, store, next, multiset{};
    if |store[bufs[idx]]| < size {
      puts := multiset{bufs[idx]};
      free' := free' + {bufs[idx]};
      var id;
      id, free', store', next' := PoolGet(free', store', next');
      bufs' := bufs'[idx := id];
      if |store'[id]| < size {
        store' := store'[id := Zeros(size)];
      }
    }
  }

  /** A buffer taken from the pools and long enough for a packet. */
  predicate Held(b: BufId, free: set<BufId>, otherFree: set<BufId>, store: Store) {
    b in store && b !in free && b !in otherFree && |store[b]| >= MAX_PACKET_BUFFER_SIZE
  }

  /** All buffers taken so far are different and out of both pools. */
  ghost predicate HeldOk(held: seq<BufId>, free: set<BufId>, otherFree: set<BufId>, store: Store, next: nat) {
    && Distinct(held)
    && (forall i :: 0 <= i < |held| ==> Held(held[i], free, otherFree, store))
    && PoolOk(free, store, next) && PoolOk(otherFree, store, next)
    && free !! otherFree
  }

  /** One more buffer for the constructor. */
  method TakeBuffer(free: set<BufId>, ghost otherFree: set<BufId>, store: Store, next: nat, ghost held: seq<BufId>)
    returns (id: BufId, free': set<BufId>, store': Store, next': nat)
    requires HeldOk(held, free, otherFree, store, next)
    ensures HeldOk(held + [id], free', otherFree, store', next')
    ensures HeldOk(held + [id], otherFree, free', store', next')
  {
    id, free', store', next' := PoolGet(free, store, next);
    if |store'[id]| < MAX_PACKET_BUFFER_SIZE {
      store' := store'[id := Zeros(MAX_PACKET_BUFFER_SIZE)];
    }
    assert forall i :: 0 <= i < |held| ==> held[i] != id;
  }

  lemma HeldMakesBuffersOk(held: seq<BufId>, free: set<BufId>, otherFree: set<BufId>, store: Store, next: nat,
                           body: seq<BufId>, outOfBand: seq<BufId>)
    requires HeldOk(held, free, otherFree, store, next)
    requires |body| == |outOfBand| == BATCH_SIZE && |held| == 2 * BATCH_SIZE
    requires forall j :: 0 <= j < BATCH_SIZE ==> body[j] == held[2 * j] && outOfBand[j] == held[2 * j + 1]
    ensures BuffersOk(store, body, outOfBand)
    ensures PoolsOk(free, otherFree, store, next, body, outOfBand, false)
  {
    forall i, j | 0 <= i < BATCH_SIZE && 0 <= j < BATCH_SIZE
      ensures body[i] != outOfBand[j] && (i < j ==> body[i] != body[j] && outOfBand[i] != outOfBand[j])
    {
      assert 2 * i != 2 * j + 1;
    }
  }

  /** copy(dst, src) */
  method CopyInto(dst: array<Byte>, src: seq<Byte>) returns (n: nat)
    modifies dst
    ensures n == Min(|src|, dst.Length)
    ensures dst[..] == src[..n] + old(dst[n..])
  {
    n := Min(|src|, dst.Length);
    for i := 0 to n
      invariant dst[..i] == src[..i]
      invariant forall j :: i <= j < dst.Length ==> dst[j] == old(dst[j])
    {
      dst[i] := src[i];
    }
    assert dst[n..] == old(dst[n..]);
    assert dst[..] == dst[..n] + dst[n..];
  }

  /** The loop of the refill: every slot read since the last one gets its own
      buffers again, exchanged first if they are too short. */
  method RenewSlots(slots: seq<Slot>, readPos: Uint8, buffers: seq<BufId>, oobBuffers: seq<BufId>,
                    pool: set<BufId>, oobPool: set<BufId>, store: Store, next: nat)
    returns (slots': seq<Slot>, buffers': seq<BufId>, oobBuffers': seq<BufId>,
             pool': set<BufId>, oobPool': set<BufId>, store': Store, next': nat, ghost puts: multiset<BufId>)
    requires |slots| == BATCH_SIZE && readPos <= BATCH_SIZE && BuffersOk(store, buffers, oobBuffers)
    requires PoolOk(pool, store, next) && PoolOk(oobPool, store, next)
    requires forall i :: 0 <= i < BATCH_SIZE ==> buffers[i] !in pool && oobBuffers[i] !in oobPool
    ensures buffers' == buffers && oobBuffers' == oobBuffers && store' == store
    ensures pool' == pool && oobPool' == oobPool && next' == next && puts == multiset{}
    ensures |slots'| == BATCH_SIZE
    ensures forall j :: 0 <= j < readPos ==> slots'[j] == slots[j].(data := buffers[j], oob := oobBuffers[j])
    ensures forall j :: readPos <= j < BATCH_SIZE ==> slots'[j] == slots[j]
  {
    slots', buffers', oobBuffers', store' := slots, buffers, oobBuffers, store;
    pool', oobPool', next', puts := pool, oobPool, next, multiset{};
    for i := 0 to readPos
      invariant buffers' == buffers && oobBuffers' == oobBuffers && store' == store
      invariant pool' == pool && oobPool' == oobPool && next' == next && puts == multiset{}
      invariant |slots'| == BATCH_SIZE
      invariant forall j :: 0 <= j < i ==> slots'[j] == slots[j].(data := buffers[j], oob := oobBuffers[j])
      invariant forall j :: i <= j < BATCH_SIZE ==> slots'[j] == slots[j]
    {
      ghost var put;
      buffers', pool', store', next', put := RenewBuffer(buffers', pool', store', next', i, MAX_PACKET_BUFFER_SIZE);
      puts := puts + put;
      oobBuffers', oobPool', store', next', put := RenewBuffer(oobBuffers', oobPool', store', next', i, OOB_BUFFER_SIZE);
      puts := puts + put;
      slots' := slots'[i := slots'[i].(data := buffers'[i], oob := oobBuffers'[i])];
    }
  }

  /** Renewed up to the cursor, the slots are ready: those behind it never left
      their buffers, and at the first refill there are none behind it. */
  lemma RenewedIsReady(slots: seq<Slot>, readPos: Uint8, buffers: seq<BufId>, oobBuffers: seq<BufId>,
                       store: Store, slots': seq<Slot>)
    requires |slots| == |slots'| == BATCH_SIZE && readPos <= BATCH_SIZE && BuffersOk(store, buffers, oobBuffers)
    requires forall i :: 0 <= i < BATCH_SIZE ==> SlotOk(store, slots[i])
    requires || (forall i :: 0 <= i < BATCH_SIZE ==> OwnBuffers(slots, buffers, oobBuffers, i))
             || (readPos == BATCH_SIZE && forall i :: 0 <= i < BATCH_SIZE ==> slots[i].n == 0 && slots[i].nn == 0)
    requires forall j :: 0 <= j < readPos ==> slots'[j] == slots[j].(data := buffers[j], oob := oobBuffers[j])
    requires forall j :: readPos <= j < BATCH_SIZE ==> slots'[j] == slots[j]
    ensures ReadyForBatch(store, slots', buffers, oobBuffers)
    ensures Contents(store, slots') == Contents(store, slots)
  {
    forall i | 0 <= i < BATCH_SIZE
      ensures OwnBuffers(slots', buffers, oobBuffers, i) && SlotOk(store, slots'[i])
      ensures Content(store, slots'[i]) == Content(store, slots[i])
    {
      assert SlotOk(store, slots[i]);
      assert OwnBuffers(slots, buffers, oobBuffers, i) || (slots[i].n == 0 && slots[i].nn == 0 && i < readPos);
    }
  }

  /** What the slots, buffers and pools of a reader satisfy between calls; at
      first the slots share buffers, but then the cursor is at the end. */
  ghost predicate SlotsOk(readPos: Uint8, window: nat, slots: seq<Slot>, buffers: seq<BufId>, oobBuffers: seq<BufId>, store: Store) {
    && BuffersOk(store, buffers, oobBuffers)
    && |slots| == BATCH_SIZE && 0 < window <= BATCH_SIZE && readPos <= window
    && (forall i :: 0 <= i < BATCH_SIZE ==> SlotOk(store, slots[i]))
    && (|| (forall i :: 0 <= i < BATCH_SIZE ==> OwnBuffers(slots, buffers, oobBuffers, i))
        || (readPos == window == BATCH_SIZE && forall i :: 0 <= i < BATCH_SIZE ==> slots[i].n == 0 && slots[i].nn == 0))
  }

  /** The pools are in order and, until the release, without the reader's buffers. */
  ghost predicate PoolsOk(pool: set<BufId>, oobPool: set<BufId>, store: Store, next: nat,
                    buffers: seq<BufId>, oobBuffers: seq<BufId>, released: bool) {
    && PoolOk(pool, store, next) && PoolOk(oobPool, store, next)
    && (!released ==> forall i :: 0 <= i < |buffers| ==> buffers[i] !in pool && buffers[i] !in oobPool)
    && (!released ==> forall i :: 0 <= i < |oobBuffers| ==> oobBuffers[i] !in pool && oobBuffers[i] !in oobPool)
  }

  /** The refill: the whole window is renewed and offered to the kernel. */
  method FillWindow(slots: seq<Slot>, readPos: Uint8, buffers: seq<BufId>, oobBuffers: seq<BufId>,
                    pool: set<BufId>, oobPool: set<BufId>, store: Store, next: nat, kernel: KernelResult)
    returns (ok: bool, window: nat, slots': seq<Slot>, buffers': seq<BufId>, oobBuffers': seq<BufId>,
             pool': set<BufId>, oobPool': set<BufId>, store': Store, next': nat, ghost puts: multiset<BufId>)
    requires SlotsOk(readPos, readPos, slots, buffers, oobBuffers, store)
    requires PoolsOk(pool, oobPool, store, next, buffers, oobBuffers, false)
    requires |kernel.msgs| <= BATCH_SIZE
    ensures ok <==> kernel.msgs != [] && kernel.err.None?
    ensures window == if ok then |kernel.msgs| else BATCH_SIZE
    ensures SlotsOk(0, window, slots', buffers', oobBuffers', store')
    ensures PoolsOk(pool', oobPool', store', next', buffers', oobBuffers', false)
    ensures ok ==> Contents(store', slots'[0..window]) == Fit(kernel.msgs, store', buffers', oobBuffers')
    ensures buffers' == buffers && oobBuffers' == oobBuffers && puts == multiset{}
    ensures Contents(store', slots') == Refilled(kernel.msgs, store, slots, buffers, oobBuffers)
  {
    slots', buffers', oobBuffers', pool', oobPool', store', next', puts :=
      RenewSlots(slots, readPos, buffers, oobBuffers, pool, oobPool, store, next);
    RenewedIsReady(slots, readPos, buffers, oobBuffers, store', slots');
    window := BATCH_SIZE;
    store', slots' := ReadBatch(store', slots', buffers', oobBuffers', kernel);
    PoolsStayOk(pool', oobPool', store, store', next', buffers', oobBuffers', false);
    ok := kernel.msgs != [] && kernel.err.None?;
    if ok {
      window := |kernel.msgs|;
      assert slots'[0..window] == slots'[..window];
    }
    ReadyIsOk(slots', window, buffers', oobBuffers', store');
    assert Contents(store', slots') == Refilled(kernel.msgs, store, slots, buffers, oobBuffers);
  }

  /** What the slots hold after a batch: its messages, then what was there before. */
  ghost function Refilled(msgs: seq<Message>, store: Store, slots: seq<Slot>, buffers: seq<BufId>, oobBuffers: seq<BufId>):
    seq<Message>
    requires BuffersOk(store, buffers, oobBuffers) && |msgs| <= BATCH_SIZE == |slots|
    requires forall i :: 0 <= i < |slots| ==> SlotOk(store, slots[i])
  {
    Fit(msgs, store, buffers, oobBuffers) + Contents(store, slots)[|msgs|..]
  }

  lemma ReadyIsOk(slots: seq<Slot>, window: nat, buffers: seq<BufId>, oobBuffers: seq<BufId>, store: Store)
    requires ReadyForBatch(store, slots, buffers, oobBuffers) && 0 < window <= BATCH_SIZE
    ensures SlotsOk(0, window, slots, buffers, oobBuffers, store)
  {
  }

  lemma PoolsStayOk(pool: set<BufId>, oobPool: set<BufId>, store: Store, store': Store, next: nat,
                    buffers: seq<BufId>, oobBuffers: seq<BufId>, released: bool)
    requires PoolsOk(pool, oobPool, store, next, buffers, oobBuffers, released) && store'.Keys == store.Keys
    ensures PoolsOk(pool, oobPool, store', next, buffers, oobBuffers, released)
  {
  }

  datatype ReadResult =
    | Packet(n: nat, nn: nat, addr: string)
    | Failed(err: Option<Error>)   // ReadBatch failed, or returned nothing
    | ErrClosed

  class BatchReader {
    var readPos: Uint8
    var slots: seq<Slot>           // the backing array of messages
    var window: nat                // len(messages)
    var buffers: seq<BufId>
    var oobBuffers: seq<BufId>
    var closed: bool
    var buffersReleased: bool
    var store: Store
    var next: nat
    var pool: set<BufId>           // free buffers of bufferPool
    var oobPool: set<BufId>        // free buffers of oobBufferPool

    ghost var puts: multiset<BufId>        // every Put, by a refill or by Close
    ghost var delivered: seq<Message>      // what the kernel stored, batch after batch
    ghost var returned: seq<Message>       // what Read took out of the slots
    ghost var failed: bool                 // some refill has failed

    /** The reader's own state, between any two calls. */
    ghost predicate Sound()
      reads `readPos, `window, `slots, `buffers, `oobBuffers, `store, `next, `pool, `oobPool, `closed, `buffersReleased
    {
      && SlotsOk(readPos, window, slots, buffers, oobBuffers, store)
      && PoolsOk(pool, oobPool, store, next, buffers, oobBuffers, buffersReleased)
      && (buffersReleased ==> closed)
    }

    /** And what it has to do with what was delivered, returned and released. */
    ghost predicate Valid()
      reads this
    {
      && Sound()
      && puts == AllBuffers(buffersReleased, buffers, oobBuffers)
      && (!failed ==> returned + Pending() == delivered)
      && (failed ==> |returned| + (window - readPos) > |delivered|)
    }

    /** The packets received from the kernel and not yet returned. */
    ghost function Pending(): seq<Message>
      requires SlotsOk(readPos, window, slots, buffers, oobBuffers, store)
      reads `readPos, `window, `slots, `buffers, `oobBuffers, `store
    {
      Contents(store, slots[readPos..window])
    }

    /** What all slots hold, read or not. */
    ghost function Held(): seq<Message>
      requires SlotsOk(readPos, window, slots, buffers, oobBuffers, store)
      reads `readPos, `window, `slots, `buffers, `oobBuffers, `store
    {
      Contents(store, slots)
    }

    /** Each message as far as it fits its slot. */
    ghost function Fitted(msgs: seq<Message>): seq<Message>
      requires BuffersOk(store, buffers, oobBuffers) && |msgs| <= BATCH_SIZE
      reads `buffers, `oobBuffers, `store
    {
      Fit(msgs, store, buffers, oobBuffers)
    }

    /** newBatchReader, on pools with the given free buffers.  Both slices of a
        slot start as the out-of-band buffer; the cursor starts at the end. */
    constructor (free: set<BufId>, oobFree: set<BufId>, memory: Store, firstNew: nat)
      requires PoolOk(free, memory, firstNew) && PoolOk(oobFree, memory, firstNew)
      requires free !! oobFree
      ensures Valid() && !closed && !buffersReleased && !failed && puts == multiset{}
      ensures readPos == 8 && |buffers| == |oobBuffers| == |slots| == 8
      ensures Pending() == [] && returned == [] && delivered == []
      ensures forall i :: 0 <= i < BATCH_SIZE ==> slots[i].data == slots[i].oob == oobBuffers[i]
    {
      var body, outOfBand, msgs := [], [], [];
      var f, o, mem, new' := free, oobFree, memory, firstNew;
      ghost var held: seq<BufId> := [];
      for i := 0 to BATCH_SIZE
        invariant |body| == |outOfBand| == |msgs| == i && |held| == 2 * i
        invariant HeldOk(held, f, o, mem, new')
        invariant forall j :: 0 <= j < i ==> body[j] == held[2 * j] && outOfBand[j] == held[2 * j + 1]
        invariant forall j :: 0 <= j < i ==> msgs[j] == Slot(outOfBand[j], outOfBand[j], 0, 0, "")
      {
        var id, id2;
        id, f, mem, new' := TakeBuffer(f, o, mem, new', held);
        held := held + [id];
        id2, o, mem, new' := TakeBuffer(o, f, mem, new', held);
        held := held + [id2];
        body, outOfBand := body + [id], outOfBand + [id2];
        msgs := msgs + [Slot(id2, id2, 0, 0, "")];
      }
      HeldMakesBuffersOk(held, f, o, mem, new', body, outOfBand);
      readPos, slots, window := BATCH_SIZE, msgs, BATCH_SIZE;
      buffers, oobBuffers := body, outOfBand;
      closed, buffersReleased := false, false;
      store, next, pool, oobPool := mem, new', f, o;
      puts, delivered, returned, failed := multiset{}, [], [], false;
    }

    method RefillSlots(kernel: KernelResult) returns (ok: bool)
      requires Sound() && !closed && readPos == window
      requires |kernel.msgs| <= BATCH_SIZE
      modifies `readPos, `window, `slots, `buffers, `oobBuffers, `store, `next, `pool, `oobPool, `puts
      ensures Sound() && buffers == old(buffers) && oobBuffers == old(oobBuffers) && puts == old(puts)
      ensures Held() == old(Fitted(kernel.msgs) + Held()[|kernel.msgs|..])
      ensures ok <==> kernel.msgs != [] && kernel.err.None?
      ensures ok ==> Pending() == Fitted(kernel.msgs)
      ensures !ok ==> readPos == 0 && window == BATCH_SIZE
    {
      ghost var more;
      ghost var held := Refilled(kernel.msgs, store, slots, buffers, oobBuffers);
      ok, window, slots, buffers, oobBuffers, pool, oobPool, store, next, more :=
        FillWindow(slots, readPos, buffers, oobBuffers, pool, oobPool, store, next, kernel);
      readPos := 0;
      puts := puts + more;
      assert !buffersReleased;
      assert Contents(store, slots) == held;
    }

    /** The refill of Read: a batch that arrives is the window; after a failed or
        empty one the window is full length with the cursor at its start. */
    method Refill(kernel: KernelResult) returns (ok: bool)
      requires Valid() && !closed && readPos == window
      requires |kernel.msgs| <= BATCH_SIZE
      modifies this
      ensures Valid() && !closed
      ensures ok <==> kernel.msgs != [] && kernel.err.None?
      ensures ok ==> failed == old(failed) && delivered == old(delivered) + Fitted(kernel.msgs)
      ensures ok ==> Pending() == Fitted(kernel.msgs)
      ensures !ok ==> failed && delivered == old(delivered) && readPos == 0 && window == BATCH_SIZE
      ensures !ok ==> Pending() == old(Fitted(kernel.msgs) + Held()[|kernel.msgs|..])
      ensures returned == old(returned) && buffers == old(buffers) && oobBuffers == old(oobBuffers)
    {
      assert Pending() == [] && returned + [] == returned;
      ok := RefillSlots(kernel);
      if ok {
        delivered := delivered + Fitted(kernel.msgs);
      } else {
        failed := true;
        assert slots[0..BATCH_SIZE] == slots;
      }
    }

    /** The other half of Read: the cursor moves past the next slot. */
    method Advance() returns (m: Message)
      requires Valid() && readPos < window
      modifies `readPos, `returned
      ensures Valid() && readPos == old(readPos) + 1
      ensures old(Pending()) == [m] + Pending()
      ensures returned == old(returned) + [m]
    {
      ghost var pending := Pending();
      NextIsFirst(store, slots, readPos, window);
      var msg := slots[readPos];
      readPos := readPos + 1;
      m := Content(store, msg);
      returned := returned + [m];
      assert pending == [m] + Pending();
      Regroup(old(returned), [m], Pending());
    }

    /** Read, up to the refill's answer from the kernel.  A packet comes from the
        window if something is left there, else from the batch just read. */
    method Read(b: array<Byte>, oob: array<Byte>, kernel: KernelResult) returns (r: ReadResult)
      requires Valid() && |kernel.msgs| <= BATCH_SIZE
      modifies this, b, oob
      ensures Valid() && closed == old(closed) && buffersReleased == old(buffersReleased)
      ensures buffers == old(buffers) && oobBuffers == old(oobBuffers)
      ensures r.ErrClosed? <==> old(closed)
      ensures r.ErrClosed? ==> unchanged(this) && unchanged(b) && unchanged(oob)
      ensures r.Failed? <==> !old(closed) && old(Pending()) == [] && (kernel.msgs == [] || kernel.err.Some?)
      ensures r.Failed? ==> r.err == kernel.err && failed && delivered == old(delivered) && returned == old(returned)
                            && readPos == 0 && window == BATCH_SIZE
                            && Pending() == old(Fitted(kernel.msgs) + Held()[|kernel.msgs|..])
      ensures r.Packet? ==>
                && failed == old(failed)
                && delivered == old(delivered) + (if old(Pending()) == [] then Fitted(kernel.msgs) else [])
                && |returned| == |old(returned)| + 1 && returned[..|old(returned)|] == old(returned)
                && Copied(r, returned[|old(returned)|], b[..], oob[..], b != oob)
                && [returned[|old(returned)|]] + Pending() ==
                     if old(Pending()) == [] then Fitted(kernel.msgs) else old(Pending())
    {
      if closed {
        return ErrClosed;
      }
      if window == readPos as nat {
        var ok := Refill(kernel);
        if !ok {
          return Failed(kernel.err);
        }
      }
      var m := Advance();
      r := CopyOut(m, b, oob);
    }

    /** The first action of Close, outside the mutex. */
    method MarkClosed()
      requires Valid()
      modifies `closed
      ensures Valid() && closed
    {
      closed := true;
    }

    /** The locked section of Close. */
    method ReleaseBuffers()
      requires Valid() && closed
      modifies `pool, `oobPool, `buffersReleased, `puts
      ensures Valid() && buffersReleased
      ensures puts == multiset(buffers) + multiset(oobBuffers)
      ensures old(buffersReleased) ==> puts == old(puts) && pool == old(pool) && oobPool == old(oobPool)
      ensures !old(buffersReleased) ==> pool == old(pool) + SetOf(buffers) && oobPool == old(oobPool) + SetOf(oobBuffers)
    {
      if !buffersReleased {
        pool, oobPool, puts := PutAll(buffers, oobBuffers, pool, oobPool, store, next);
        buffersReleased := true;
      }
    }
  }

  ghost function SetOf(xs: seq<BufId>): set<BufId> {
    set b | b in xs
  }

  lemma OneMore(xs: seq<BufId>, i: nat)
    requires i < |xs|
    ensures SetOf(xs[..i + 1]) == SetOf(xs[..i]) + {xs[i]}
    ensures multiset(xs[..i + 1]) == multiset(xs[..i]) + multiset{xs[i]}
  {
    assert xs[..i + 1] == xs[..i] + [xs[i]];
  }

  /** The loop of Close over its buffers. */
  method PutAll(buffers: seq<BufId>, oobBuffers: seq<BufId>, pool: set<BufId>, oobPool: set<BufId>,
                ghost store: Store, ghost next: nat)
    returns (pool': set<BufId>, oobPool': set<BufId>, ghost puts: multiset<BufId>)
    requires BuffersOk(store, buffers, oobBuffers) && PoolOk(pool, store, next) && PoolOk(oobPool, store, next)
    ensures PoolOk(pool', store, next) && PoolOk(oobPool', store, next)
    ensures puts == multiset(buffers) + multiset(oobBuffers)
    ensures pool' == pool + SetOf(buffers) && oobPool' == oobPool + SetOf(oobBuffers)
  {
    pool', oobPool' := pool, oobPool;
    ghost var dataPuts, oobPuts := multiset{}, multiset{};
    for i := 0 to BATCH_SIZE
      invariant pool' == pool + SetOf(buffers[..i]) && oobPool' == oobPool + SetOf(oobBuffers[..i])
      invariant dataPuts == multiset(buffers[..i]) && oobPuts == multiset(oobBuffers[..i])
    {
      OneMore(buffers, i);
      OneMore(oobBuffers, i);
      pool' := pool' + {buffers[i]};
      oobPool' := oobPool' + {oobBuffers[i]};
      dataPuts, oobPuts := dataPuts + multiset{buffers[i]}, oobPuts + multiset{oobBuffers[i]};
    }
    puts := dataPuts + oobPuts;
    assert buffers[..BATCH_SIZE] == buffers && oobBuffers[..BATCH_SIZE] == oobBuffers;
  }

  lemma {:induction false} OnceEach(xs: seq<BufId>, x: BufId)
    requires Distinct(xs)
    ensures multiset(xs)[x] == if x in xs then 1 else 0
  {
    if xs != [] {
      var last := |xs| - 1;
      OnceEach(xs[..last], x);
      assert xs == xs[..last] + [xs[last]];
    }
  }

  /** Different buffers are put back once each. */
  lemma AllBuffersOnce(store: Store, released: bool, buffers: seq<BufId>, oobBuffers: seq<BufId>, b: BufId)
    requires BuffersOk(store, buffers, oobBuffers)
    ensures AllBuffers(released, buffers, oobBuffers)[b] == if released && (b in buffers || b in oobBuffers) then 1 else 0
  {
    OnceEach(buffers, b);
    OnceEach(oobBuffers, b);
  }

  /** The sections of Read and Close that other calls see as one action; a Close
      is a Mark and later a Release. */
  datatype Op = ReadOp(b: nat, oob: nat, kernel: KernelResult) | MarkOp | ReleaseOp

  method RunOp(r: BatchReader, op: Op) returns (result: Option<ReadResult>)
    requires r.Valid() && (op.ReadOp? ==> |op.kernel.msgs| <= BATCH_SIZE) && (op.ReleaseOp? ==> r.closed)
    modifies r
    ensures r.Valid() && r.buffers == old(r.buffers) && r.oobBuffers == old(r.oobBuffers)
    ensures r.closed <==> old(r.closed) || op.MarkOp?
    ensures r.buffersReleased <==> old(r.buffersReleased) || op.ReleaseOp?
    ensures op.ReadOp? ==> (result == Some(ErrClosed) <==> old(r.closed))
  {
    match op {
      case ReadOp(bLen, oobLen, kernel) =>
        var b, oob := new Byte[bLen], new Byte[oobLen];
        var x := r.Read(b, oob, kernel);
        result := Some(x);
      case MarkOp =>
        r.MarkClosed();
        result := None;
      case ReleaseOp =>
        r.ReleaseBuffers();
        result := None;
    }
  }

  ghost predicate MarkedBefore(ops: seq<Op>, i: int) {
    exists j :: 0 <= j < i && j < |ops| && ops[j].MarkOp?
  }

  /** Any number of Read and Close calls in any interleaving: every buffer the
      reader holds is put back at most once, exactly once if a Close got to its
      release, and no Read that starts after a Close has begun touches a slot. */
  method RunCalls(r: BatchReader, ops: seq<Op>) returns (results: seq<Option<ReadResult>>)
    requires r.Valid() && !r.closed
    requires forall i :: 0 <= i < |ops| && ops[i].ReadOp? ==> |ops[i].kernel.msgs| <= BATCH_SIZE
    requires forall i :: 0 <= i < |ops| && ops[i].ReleaseOp? ==> MarkedBefore(ops, i)
    modifies r
    ensures r.Valid()
    ensures forall b :: r.puts[b] ==
              if (exists i :: 0 <= i < |ops| && ops[i].ReleaseOp?) && (b in old(r.buffers) || b in old(r.oobBuffers)) then 1
              else 0
    ensures |results| == |ops|
    ensures forall i :: 0 <= i < |ops| && ops[i].ReadOp? ==>
              (results[i] == Some(ErrClosed) <==> MarkedBefore(ops, i))
  {
    results := [];
    for k := 0 to |ops|
      invariant r.Valid() && |results| == k && r.buffers == old(r.buffers) && r.oobBuffers == old(r.oobBuffers)
      invariant r.closed <==> MarkedBefore(ops, k)
      invariant r.buffersReleased <==> exists i :: 0 <= i < k && ops[i].ReleaseOp?
      invariant forall i :: 0 <= i < k && ops[i].ReadOp? ==> (results[i] == Some(ErrClosed) <==> MarkedBefore(ops, i))
    {
      var x := RunOp(r, ops[k]);
      results := results + [x];
    }
    forall b
      ensures r.puts[b] == if r.buffersReleased && (b in r.buffers || b in r.oobBuffers) then 1 else 0
    {
      AllBuffersOnce(r.store, r.buffersReleased, r.buffers, r.oobBuffers, b);
    }
  }

  /** The two copies of Read. */
  method CopyOut(m: Message, b: array<Byte>, oob: array<Byte>) returns (r: ReadResult)
    modifies b, oob
    ensures Copied(r, m, b[..], oob[..], b != oob)
  {
    var n := CopyInto(b, m.data);
    var nn := CopyInto(oob, m.oob);
    r := Packet(n, nn, m.addr);
  }

  /** r reports m copied to a caller's buffers as far as it fits. */
  ghost predicate Copied(r: ReadResult, m: Message, b: seq<Byte>, oob: seq<Byte>, apart: bool) {
    && r == Packet(Min(|m.data|, |b|), Min(|m.oob|, |oob|), m.addr)
    && (apart ==> b[..r.n] == m.data[..r.n])
    && oob[..r.nn] == m.oob[..r.nn]
  }

  lemma NextIsFirst(store: Store, slots: seq<Slot>, readPos: nat, window: nat)
    requires readPos < window <= |slots| && forall i :: 0 <= i < |slots| ==> SlotOk(store, slots[i])
    ensures var ms := Contents(store, slots[readPos..window]);
            ms[0] == Content(store, slots[readPos]) && ms[1..] == Contents(store, slots[readPos + 1..window])
  {
  }

  /** The buffers Close puts back. */
  ghost function AllBuffers(released: bool, buffers: seq<BufId>, oobBuffers: seq<BufId>): multiset<BufId> {
    if released then multiset(buffers) + multiset(oobBuffers) else multiset{}
  }

  /** What was returned and is pending is what the kernel delivered exactly as long
      as no refill has failed. */
  lemma RefinesQueueIffNoFailure(r: BatchReader)
    requires r.Valid()
    ensures r.returned + r.Pending() == r.delivered <==> !r.failed
  {
    assert |r.returned + r.Pending()| == |r.returned| + (r.window - r.readPos);
  }

  /** After a failed refill the cursor is at the start of a full window, so the
      next Read returns what slot 0 holds, whatever the kernel has: the message that
      came with the error, or if none came the one that was there before. */
  method FailedRefillReplays(r: BatchReader, b: array<Byte>, oob: array<Byte>, first: KernelResult, second: KernelResult)
    returns (x: ReadResult)
    requires r.Valid() && !r.closed && !r.failed && r.Pending() == []
    requires |first.msgs| <= BATCH_SIZE && |second.msgs| <= BATCH_SIZE && (first.msgs == [] || first.err.Some?)
    modifies r, b, oob
    ensures r.Valid() && x.Packet?
    ensures r.delivered == old(r.delivered) && |r.returned + r.Pending()| == |r.delivered| + BATCH_SIZE
    ensures |r.returned| == |old(r.returned)| + 1
    ensures r.returned[|old(r.returned)|] ==
            if first.msgs == [] then old(r.Held())[0] else old(r.Fitted(first.msgs))[0]
    ensures Copied(x, r.returned[|old(r.returned)|], b[..], oob[..], b != oob)
  {
    assert r.returned == r.delivered;
    var y := r.Read(b, oob, first);
    assert |r.Pending()| == BATCH_SIZE;
    ghost var m := r.Pending()[0];
    x := r.Read(b, oob, second);
    assert ([r.returned[|old(r.returned)|]] + r.Pending())[0] == m;
  }
}
