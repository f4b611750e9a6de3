/** The demultiplexer of super.go and conn.go as a step system.

    One value of State is everything the goroutines share plus the program
    counter of each of them: the read loop, the goroutine that closes the
    socket, the body of supConn.Close, and for every connection the body of its
    Conn.Close.  A Step is one atomic action of one of them.  Go's sync.Once
    lets one caller run a Close body; further callers block until it is over,
    and are counted in `repeats`.

    History fields, which no step reads, record what must happen at most once:
    `sent` and `taken` list the connections that entered and left acceptCh, in
    order, and `doneCloses` counts the closes of a doneCh. */
module Protocol {
  import opened Wrappers

  /** The text form of a remote address: the key of supConn.conns. */
  type Addr = string

  type ConnId = nat

  type Error = string

  /** A datagram; `admitted` is what the accept filter says about its bytes. */
  datatype Packet = Packet(addr: Addr, admitted: bool, body: seq<int>)

  /** Where a connection is between getSubConn and its user. */
  datatype Place =
    | Queued      // in acceptCh
    | Received    // taken by an Accept that has not yet run connWG.Add(1)
    | HandedOut   // Accept has run connWG.Add(1)
    | Drained     // taken by the drain of supConn.Close

  /** The body of Conn.Close. */
  datatype ConnPc =
    | CNotCalled
    | CEntered                 // inside doneOnce, before connWG.Done
    | CReleased                // before close(doneCh)
    | CAnnounced               // before Lock
    | CLocked                  // holds the lock, before delete
    | CCounted(n: nat)         // holds the lock, before Unlock
    | CUnlocked(n: nat)        // before the load of accepting
    | CWaiting                 // in readWG.Wait
    | CClosingQueue(waited: bool, err: Option<Error>)
    | CFinished(waited: bool, err: Option<Error>)

  /** The body of supConn.Close. */
  datatype ListenerPc =
    | LNotCalled
    | LEntered                 // inside doneOnce, before accepting.Store(false)
    | LRefusing                // before close(doneCh)
    | LAnnounced               // before Lock
    | LDraining                // holds the lock, at the select
    | LClosing(c: ConnId)      // holds the lock, took c, before close(c.doneCh)
    | LDeleting(c: ConnId)     // holds the lock, before delete
    | LCounted(n: nat)         // holds the lock, before Unlock
    | LUnlocked(n: nat)        // before connWG.Done
    | LReleased(n: nat)        // before the test of n
    | LWaiting                 // in readWG.Wait
    | LFinished(waited: bool, err: Option<Error>)

  /** readLoop with dispatchMsg and getSubConn. */
  datatype ReaderPc =
    | RReading                       // in ReadPacket
    | RDispatching(p: Packet)        // before Lock
    | RLocked(p: Packet)             // before the lookup
    | RMissed(p: Packet)             // no entry, before the load of accepting
    | RAccepting(p: Packet)          // loaded true, before the filter
    | RCreating(p: Packet)           // filter passed, before the send
    | RSent(p: Packet, c: ConnId)    // sent c, before the map insert
    | RUnlocking(p: Packet, to: Option<ConnId>)  // before Unlock
    | RPushing(p: Packet, c: ConnId) // before queue.Push
    | RFailed                        // stored errRead, before close(readDoneCh)
    | RAnnounced                     // before readWG.Done
    | RDone

  /** The goroutine started by wrapConn to close the socket. */
  datatype CloserPc =
    | GWaiting                       // in connWG.Wait
    | GClosing                       // before pConn.Close
    | GStoring                       // before the store of errClose
    | GReporting                     // before readWG.Done
    | GDone

  datatype Lock = Free | ByReader | ByListener | ByConn(c: ConnId)

  datatype Conn = Conn(
    addr: Addr,
    place: Place,
    closing: ConnPc,
    doneCloses: nat,
    repeats: nat
  )

  datatype State = State(
    backlog: nat,
    lock: Lock,
    accepting: bool,
    doneCloses: nat,
    acceptCh: seq<ConnId>,
    conns: map<Addr, ConnId>,
    connWG: int,
    readWG: int,
    readDone: bool,
    socketOpen: bool,
    closeResult: Option<Error>,
    errClose: Option<Error>,
    reader: ReaderPc,
    closer: CloserPc,
    listener: ListenerPc,
    table: seq<Conn>,
    acceptors: nat,
    repeats: nat,
    sent: seq<ConnId>,
    taken: seq<ConnId>
  )

  /** What wrapConn leaves behind, with both goroutines started. */
  ghost predicate Init(s: State) {
    && s.backlog >= 1
    && s.lock == Free
    && s.accepting
    && s.doneCloses == 0
    && s.acceptCh == []
    && s.conns == map[]
    && s.connWG == 1
    && s.readWG == 2
    && !s.readDone
    && s.socketOpen
    && s.closeResult == None
    && s.errClose == None
    && s.reader == RReading
    && s.closer == GWaiting
    && s.listener == LNotCalled
    && s.table == []
    && s.acceptors == 0
    && s.repeats == 0
    && s.sent == []
    && s.taken == []
  }

  /** One atomic action of one goroutine. */
  datatype Step =
    | Reader(r: ReaderStep)
    | Closer(g: CloserStep)
    | Accept(a: AcceptStep)
    | Listener(l: ListenerStep)
    | OfConn(c: ConnId, k: ConnStep)

  datatype ReaderStep =
    | Deliver(p: Packet)
    | ReadFail
    | ReaderLock
    | ReaderLookup
    | ReaderLoad
    | ReaderFilter
    | ReaderSend
    | ReaderInsert
    | ReaderUnlock
    | ReaderPush
    | ReaderAnnounce
    | ReaderDone

  datatype CloserStep =
    | CloserWake
    | CloserClose(result: Option<Error>)
    | CloserStore
    | CloserDone

  datatype AcceptStep =
    | AcceptCall
    | AcceptReceive
    | AcceptAdd(c: ConnId)
    | AcceptRefuse
    | AcceptDeadline

  datatype ListenerStep =
    | ListenerCall
    | ListenerRefuse
    | ListenerAnnounce
    | ListenerLock
    | ListenerTake
    | ListenerCloseConn
    | ListenerDelete
    | ListenerCount
    | ListenerUnlock
    | ListenerRelease
    | ListenerDecide
    | ListenerWake
    | ListenerRepeat
    | ListenerRepeatReturn

  datatype ConnStep =
    | ConnCall
    | ConnRelease
    | ConnAnnounce
    | ConnLock
    | ConnDelete
    | ConnUnlock
    | ConnDecide
    | ConnWake
    | ConnCloseQueue(queueErr: Option<Error>)
    | ConnRepeat
    | ConnRepeatReturn

  /** When a step can be taken: the program counter is there and nothing blocks.
      Lock blocks while the mutex is held, Wait while the counter is positive,
      the channel operations as Go's select does. */
  predicate Enabled(s: State, step: Step) {
    match step
    case Reader(r) => ReaderEnabled(s, r)
    case Closer(g) => CloserEnabled(s, g)
    case Accept(a) => AcceptEnabled(s, a)
    case Listener(l) => ListenerEnabled(s, l)
    case OfConn(c, k) => c < |s.table| && ConnEnabled(s, c, k)
  }

  /** The step's effect. */
  function After(s: State, step: Step): State
    requires Enabled(s, step)
  {
    match step
    case Reader(r) => AfterReader(s, r)
    case Closer(g) => AfterCloser(s, g)
    case Accept(a) => AfterAccept(s, a)
    case Listener(l) => AfterListener(s, l)
    case OfConn(c, k) => AfterConn(s, c, k)
  }

  // ---- readLoop, dispatchMsg, getSubConn -----------------------------------

  predicate ReaderEnabled(s: State, step: ReaderStep) {
    && ReaderReady(s.reader, step)
    && (step.Deliver? ==> s.socketOpen)
    && (step.ReaderLock? ==> s.lock.Free?)
  }

  /** When the program counter allows the step. */
  predicate ReaderReady(pc: ReaderPc, step: ReaderStep) {
    match step
    case Deliver(_) => pc.RReading?
    case ReadFail => pc.RReading?
    case ReaderLock => pc.RDispatching?
    case ReaderLookup => pc.RLocked?
    case ReaderLoad => pc.RMissed?
    case ReaderFilter => pc.RAccepting?
    case ReaderSend => pc.RCreating?
    case ReaderInsert => pc.RSent?
    case ReaderUnlock => pc.RUnlocking?
    case ReaderPush => pc.RPushing?
    case ReaderAnnounce => pc.RFailed?
    case ReaderDone => pc.RAnnounced?
  }

  /** Where a step other than the send goes; accepting is what its load finds. */
  function NextReader(pc: ReaderPc, step: ReaderStep, conns: map<Addr, ConnId>, accepting: bool): ReaderPc
    requires ReaderReady(pc, step) && !step.ReaderSend?
  {
    match step
    case Deliver(p) => RDispatching(p)
    case ReadFail => RFailed
    case ReaderLock => RLocked(pc.p)
    case ReaderLookup => if pc.p.addr in conns then RUnlocking(pc.p, Some(conns[pc.p.addr])) else RMissed(pc.p)
    case ReaderLoad => if accepting then RAccepting(pc.p) else RUnlocking(pc.p, None)
    case ReaderFilter => if pc.p.admitted then RCreating(pc.p) else RUnlocking(pc.p, None)
    case ReaderInsert => RUnlocking(pc.p, Some(pc.c))
    case ReaderUnlock => if pc.to.Some? then RPushing(pc.p, pc.to.value) else RReading
    case ReaderPush => RReading
    case ReaderAnnounce => RAnnounced
    case ReaderDone => RDone
  }

  function AfterReader(s: State, step: ReaderStep): State
    requires ReaderEnabled(s, step)
  {
    if step.ReaderSend? then Send(s) else
    s.(reader := NextReader(s.reader, step, s.conns, s.accepting),
       lock := if step.ReaderLock? then ByReader else if step.ReaderUnlock? then Free else s.lock,
       conns := if step.ReaderInsert? then s.conns[s.reader.p.addr := s.reader.c] else s.conns,
       readDone := s.readDone || step.ReaderAnnounce?,
       readWG := if step.ReaderDone? then s.readWG - 1 else s.readWG)
  }

  /** The send of getSubConn: a new connection enters acceptCh, unless it is full. */
  function Send(s: State): State
    requires s.reader.RCreating?
  {
    var p := s.reader.p;
    if |s.acceptCh| < s.backlog then
      s.(acceptCh := s.acceptCh + [|s.table|],
         sent := s.sent + [|s.table|],
         table := s.table + [Conn(p.addr, Queued, CNotCalled, 0, 0)],
         reader := RSent(p, |s.table|))
    else
      s.(reader := RUnlocking(p, None))
  }

  // ---- the socket-closing goroutine ----------------------------------------

  predicate CloserEnabled(s: State, step: CloserStep) {
    match step
    case CloserWake => s.closer.GWaiting? && s.connWG == 0
    case CloserClose(_) => s.closer.GClosing?
    case CloserStore => s.closer.GStoring?
    case CloserDone => s.closer.GReporting?
  }

  function AfterCloser(s: State, step: CloserStep): State
    requires CloserEnabled(s, step)
  {
    match step
    case CloserWake => s.(closer := GClosing)
    case CloserClose(result) => s.(closer := GStoring, socketOpen := false, closeResult := result)
    case CloserStore =>
      s.(closer := GReporting, errClose := if s.closeResult.Some? then s.closeResult else s.errClose)
    case CloserDone => s.(closer := GDone, readWG := s.readWG - 1)
  }

  // ---- Accept --------------------------------------------------------------

  predicate AcceptEnabled(s: State, step: AcceptStep) {
    match step
    case AcceptCall => true
    case AcceptReceive => s.acceptors > 0 && CanTake(s)
    case AcceptAdd(c) => c < |s.table| && s.table[c].place.Received?
    case AcceptRefuse => s.acceptors > 0 && (s.readDone || s.doneCloses > 0)
    case AcceptDeadline => s.acceptors > 0
  }

  function AfterAccept(s: State, step: AcceptStep): State
    requires AcceptEnabled(s, step)
  {
    match step
    case AcceptCall => s.(acceptors := s.acceptors + 1)
    case AcceptReceive => Take(s, Received).(acceptors := s.acceptors - 1)
    case AcceptAdd(c) =>
      s.(connWG := s.connWG + 1, table := s.table[c := s.table[c].(place := HandedOut)])
    case AcceptRefuse => s.(acceptors := s.acceptors - 1)
    case AcceptDeadline => s.(acceptors := s.acceptors - 1)
  }

  predicate CanTake(s: State) {
    |s.acceptCh| > 0 && s.acceptCh[0] < |s.table|
  }

  /** A receive from acceptCh on behalf of Accept or of the drain. */
  function Take(s: State, place: Place): State
    requires CanTake(s)
  {
    var c := s.acceptCh[0];
    s.(acceptCh := s.acceptCh[1..],
       taken := s.taken + [c],
       table := s.table[c := s.table[c].(place := place)])
  }

  // ---- supConn.Close -------------------------------------------------------

  predicate ListenerEnabled(s: State, step: ListenerStep) {
    match step
    case ListenerCall => s.listener.LNotCalled?
    case ListenerRefuse => s.listener.LEntered?
    case ListenerAnnounce => s.listener.LRefusing?
    case ListenerLock => s.listener.LAnnounced? && s.lock.Free?
    case ListenerTake => s.listener.LDraining? && CanTake(s)
    case ListenerCloseConn => s.listener.LClosing? && s.listener.c < |s.table|
    case ListenerDelete => s.listener.LDeleting? && s.listener.c < |s.table|
    case ListenerCount => s.listener.LDraining? && s.acceptCh == []
    case ListenerUnlock => s.listener.LCounted?
    case ListenerRelease => s.listener.LUnlocked?
    case ListenerDecide => s.listener.LReleased?
    case ListenerWake => s.listener.LWaiting? && s.readWG == 0
    case ListenerRepeat => !s.listener.LNotCalled?
    case ListenerRepeatReturn => s.listener.LFinished? && s.repeats > 0
  }

  function AfterListener(s: State, step: ListenerStep): State
    requires ListenerEnabled(s, step)
  {
    match step
    case ListenerCall => s.(listener := LEntered)
    case ListenerRefuse => s.(listener := LRefusing, accepting := false)
    case ListenerAnnounce => s.(listener := LAnnounced, doneCloses := s.doneCloses + 1)
    case ListenerLock => s.(listener := LDraining, lock := ByListener)
    case ListenerTake => Take(s, Drained).(listener := LClosing(s.acceptCh[0]))
    case ListenerCloseConn =>
      var c := s.listener.c;
      s.(listener := LDeleting(c),
         table := s.table[c := s.table[c].(doneCloses := s.table[c].doneCloses + 1)])
    case ListenerDelete => s.(listener := LDraining, conns := s.conns - {s.table[s.listener.c].addr})
    case ListenerCount => s.(listener := LCounted(|s.conns|))
    case ListenerUnlock => s.(listener := LUnlocked(s.listener.n), lock := Free)
    case ListenerRelease => s.(listener := LReleased(s.listener.n), connWG := s.connWG - 1)
    case ListenerDecide =>
      s.(listener := if s.listener.n == 0 then LWaiting else LFinished(false, None))
    case ListenerWake => s.(listener := LFinished(true, s.errClose))
    case ListenerRepeat => s.(repeats := s.repeats + 1)
    case ListenerRepeatReturn => s.(repeats := s.repeats - 1)
  }

  // ---- Conn.Close ----------------------------------------------------------

  predicate ConnEnabled(s: State, c: ConnId, step: ConnStep)
    requires c < |s.table|
  {
    && ConnReady(s.table[c], step)
    && (step.ConnLock? ==> s.lock.Free?)
    && (step.ConnWake? ==> s.readWG == 0)
  }

  function AfterConn(s: State, c: ConnId, step: ConnStep): State
    requires c < |s.table| && ConnEnabled(s, c, step)
  {
    var k := s.table[c];
    var conns := if step.ConnDelete? then s.conns - {k.addr} else s.conns;
    var lock := if step.ConnLock? then ByConn(c) else if step.ConnUnlock? then Free else s.lock;
    s.(table := s.table[c := AfterClosing(k, step, |conns|, s.accepting, s.errClose)],
       conns := conns,
       lock := lock,
       connWG := if step.ConnRelease? then s.connWG - 1 else s.connWG)
  }

  /** When c's own record allows the step. */
  predicate ConnReady(k: Conn, step: ConnStep) {
    match step
    case ConnCall => k.closing.CNotCalled? && k.place.HandedOut?
    case ConnRelease => k.closing.CEntered?
    case ConnAnnounce => k.closing.CReleased?
    case ConnLock => k.closing.CAnnounced?
    case ConnDelete => k.closing.CLocked?
    case ConnUnlock => k.closing.CCounted?
    case ConnDecide => k.closing.CUnlocked?
    case ConnWake => k.closing.CWaiting?
    case ConnCloseQueue(_) => k.closing.CClosingQueue?
    case ConnRepeat => !k.closing.CNotCalled?
    case ConnRepeatReturn => k.closing.CFinished? && k.repeats > 0
  }

  /** The step's effect on the record, where nConns is the size of the map after
      it, and the other two are what an atomic load finds. */
  function AfterClosing(k: Conn, step: ConnStep, nConns: nat, accepting: bool, errClose: Option<Error>): Conn
    requires ConnReady(k, step)
  {
    match step
    case ConnCall => k.(closing := CEntered)
    case ConnRelease => k.(closing := CReleased)
    case ConnAnnounce => k.(closing := CAnnounced, doneCloses := k.doneCloses + 1)
    case ConnLock => k.(closing := CLocked)
    case ConnDelete => k.(closing := CCounted(nConns))
    case ConnUnlock => k.(closing := CUnlocked(k.closing.n))
    case ConnDecide => k.(closing := if k.closing.n == 0 && !accepting then CWaiting else CClosingQueue(false, None))
    case ConnWake => k.(closing := CClosingQueue(true, errClose))
    case ConnCloseQueue(queueErr) =>
      k.(closing := CFinished(k.closing.waited, if k.closing.err.Some? then k.closing.err else queueErr))
    case ConnRepeat => k.(repeats := k.repeats + 1)
    case ConnRepeatReturn => k.(repeats := k.repeats - 1)
  }

  // ---- runs ----------------------------------------------------------------

  /** t is reached from s by taking the steps in order. */
  ghost predicate Leads(s: State, steps: seq<Step>, t: State)
    decreases |steps|
  {
    if steps == [] then s == t
    else Enabled(s, steps[0]) && Leads(After(s, steps[0]), steps[1..], t)
  }

  ghost predicate Reachable(t: State) {
    exists s, steps :: Init(s) && Leads(s, steps, t)
  }

  lemma {:induction false} LeadsConcat(s: State, first: seq<Step>, m: State, second: seq<Step>, t: State)
    requires Leads(s, first, m) && Leads(m, second, t)
    ensures Leads(s, first + second, t)
    decreases |first|
  {
    if first == [] {
      assert first + second == second;
    } else {
      assert (first + second)[1..] == first[1..] + second;
      LeadsConcat(After(s, first[0]), first[1..], m, second, t);
    }
  }

  lemma ReachableStep(s: State, step: Step, t: State)
    requires Reachable(s) && Enabled(s, step) && t == After(s, step)
    ensures Reachable(t)
  {
    var i, steps :| Init(i) && Leads(i, steps, s);
    assert Leads(s, [step], t);
    LeadsConcat(i, steps, s, [step], t);
  }

  /** Some run leads from s to t. */
  ghost predicate CanReach(s: State, t: State) {
    exists steps :: Leads(s, steps, t)
  }

  lemma CanReachItself(s: State)
    ensures CanReach(s, s)
  {
    assert Leads(s, [], s);
  }

  lemma CanReachStep(s: State, m: State, step: Step, t: State)
    requires CanReach(s, m) && Enabled(m, step) && t == After(m, step)
    ensures CanReach(s, t)
  {
    var steps :| Leads(s, steps, m);
    assert Leads(m, [step], t);
    LeadsConcat(s, steps, m, [step], t);
  }

  lemma CanReachTrans(s: State, m: State, t: State)
    requires CanReach(s, m) && CanReach(m, t)
    ensures CanReach(s, t)
  {
    var first :| Leads(s, first, m);
    var second :| Leads(m, second, t);
    LeadsConcat(s, first, m, second, t);
  }

  lemma ReachableFrom(s: State, t: State)
    requires Reachable(s) && CanReach(s, t)
    ensures Reachable(t)
  {
    var i, first :| Init(i) && Leads(i, first, s);
    var second :| Leads(s, second, t);
    LeadsConcat(i, first, s, second, t);
  }

  lemma ReachableReader(s: State, step: ReaderStep, t: State)
    requires Reachable(s) && ReaderEnabled(s, step) && t == AfterReader(s, step)
    ensures Reachable(t)
  {
    ReachableStep(s, Reader(step), t);
  }

  lemma ReachableListener(s: State, step: ListenerStep, t: State)
    requires Reachable(s) && ListenerEnabled(s, step) && t == AfterListener(s, step)
    ensures Reachable(t)
  {
    ReachableStep(s, Listener(step), t);
  }

  lemma ReachableConn(s: State, c: ConnId, step: ConnStep, t: State)
    requires Reachable(s) && c < |s.table| && ConnEnabled(s, c, step) && t == AfterConn(s, c, step)
    ensures Reachable(t)
  {
    ReachableStep(s, OfConn(c, step), t);
  }
}
