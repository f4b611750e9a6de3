/** readLoop of super.go over a batch reader: from the kernel's batches to
    dispatchMsg. */
module ReadLoop {
  import opened Wrappers
  import opened Bytes
  import opened Ecn
  import opened OobConn
  import opened BatchReading

  const RECEIVE_MTU: nat := 8192
  const OOB_SIZE: nat := 128

  /** What dispatchMsg is called with. */
  datatype Dispatch = Dispatch(data: seq<Byte>, oob: seq<Byte>, ecn: ECN, addr: string)

  datatype Stop =
    | Blocked            // in ReadBatch, with no more answers from the kernel
    | BatchError         // ReadBatch returned an error
    | BadControlData     // the control messages do not parse
    | OutOfRangePanic    // an ECN message without a data byte
    | Closed             // the reader was closed before the read

  /** What Close calls on the batch reader do between two reads: nothing, only mark
      it closed, or also get to the release of its buffers. */
  datatype Closing = NoClose | Marks | MarksAndReleases

  /** What the kernel delivered before its first error. */
  function Delivered(kernels: seq<KernelResult>): seq<Message> {
    if kernels == [] then [] else
    var last := |kernels| - 1;
    Delivered(kernels[..last]) + kernels[last].msgs
  }

  /** part is the part of whole that fits a buffer of at least size bytes. */
  ghost predicate PartOf(part: seq<Byte>, whole: seq<Byte>, size: nat) {
    part <= whole && |part| >= Min(|whole|, size)
  }

  /** f is m as a slot of the batch reader keeps it. */
  ghost predicate ArrivedAs(m: Message, f: Message) {
    && f.addr == m.addr
    && PartOf(f.data, m.data, 1452)
    && PartOf(f.oob, m.oob, 128)
  }

  /** d is m on its way to a connection. */
  ghost predicate DispatchOf(m: Message, d: Dispatch) {
    && d.addr == m.addr
    && PartOf(d.data, m.data, 1452)
    && PartOf(d.oob, m.oob, 128)
    && ECNOutcome(d.oob) == Value(d.ecn)
  }

  ghost predicate AllArrived(ms: seq<Message>, fs: seq<Message>) {
    |fs| == |ms| && forall i :: 0 <= i < |ms| ==> ArrivedAs(ms[i], fs[i])
  }

  lemma FitArrives(msgs: seq<Message>, store: Store, buffers: seq<BufId>, oobBuffers: seq<BufId>)
    requires BuffersOk(store, buffers, oobBuffers) && |msgs| <= BATCH_SIZE
    ensures AllArrived(msgs, Fit(msgs, store, buffers, oobBuffers))
  {
  }

  lemma ArrivedConcat(ms: seq<Message>, fs: seq<Message>, ms': seq<Message>, fs': seq<Message>)
    requires AllArrived(ms, fs) && AllArrived(ms', fs')
    ensures AllArrived(ms + ms', fs + fs')
  {
  }

  lemma CopyOfPart(whole: seq<Byte>, part: seq<Byte>, n: nat, size: nat, room: nat)
    requires PartOf(part, whole, size) && room >= size && n == Min(|part|, room)
    ensures PartOf(part[..n], whole, size)
  {
  }

  /** One turn of the loop up to dispatchMsg. */
  method ReadOne(reader: BatchReader, kernel: KernelResult) returns (r: ReadResult, data: seq<Byte>, oob: seq<Byte>)
    requires reader.Valid() && |kernel.msgs| <= BATCH_SIZE
    modifies reader
    ensures reader.Valid() && reader.closed == old(reader.closed)
    ensures r.ErrClosed? <==> old(reader.closed)
    ensures r.ErrClosed? ==> unchanged(reader)
    ensures r.Failed? <==> !old(reader.closed) && old(reader.Pending()) == [] && (kernel.msgs == [] || kernel.err.Some?)
    ensures r.Failed? ==> r.err == kernel.err && reader.returned == old(reader.returned) && reader.delivered == old(reader.delivered)
    ensures r.Packet? ==>
              && reader.failed == old(reader.failed)
              && |reader.returned| == |old(reader.returned)| + 1
              && reader.returned[..|old(reader.returned)|] == old(reader.returned)
              && var m := reader.returned[|old(reader.returned)|];
                 && r.addr == m.addr
                 && data == m.data[..Min(|m.data|, 8192)]
                 && oob == m.oob[..Min(|m.oob|, 128)]
                 && reader.delivered == old(reader.delivered)
                      + (if old(reader.Pending()) == [] then reader.Fitted(kernel.msgs) else [])
                 && [m] + reader.Pending() ==
                      (if old(reader.Pending()) == [] then reader.Fitted(kernel.msgs) else old(reader.Pending()))
  {
    var buf := new Byte[RECEIVE_MTU];
    var oobBuf := new Byte[OOB_SIZE];
    r := reader.Read(buf, oobBuf, kernel);
    if r.Packet? {
      data, oob := buf[..r.n], oobBuf[..r.nn];
    } else {
      data, oob := [], [];
    }
  }

  lemma DeliveredNext(kernels: seq<KernelResult>, k: nat)
    requires k < |kernels|
    ensures Delivered(kernels[..k + 1]) == Delivered(kernels[..k]) + kernels[k].msgs
  {
    assert kernels[..k + 1][..k] == kernels[..k];
  }

  /** What was logged so far is what was delivered, in order. */
  ghost predicate LogOk(log: seq<Dispatch>, all: seq<Message>) {
    |log| <= |all| && forall i :: 0 <= i < |log| ==> DispatchOf(all[i], log[i])
  }

  /** The message just read, cut to the loop's buffers, is the next delivered one. */
  lemma NextDispatch(all: seq<Message>, delivered: seq<Message>, n: nat, data: seq<Byte>, oob: seq<Byte>)
    requires AllArrived(all, delivered) && n < |delivered|
    requires data == delivered[n].data[..Min(|delivered[n].data|, RECEIVE_MTU)]
    requires oob == delivered[n].oob[..Min(|delivered[n].oob|, OOB_SIZE)]
    ensures PartOf(data, all[n].data, MAX_PACKET_BUFFER_SIZE) && PartOf(oob, all[n].oob, OOB_BUFFER_SIZE)
    ensures delivered[n].addr == all[n].addr
  {
    CopyOfPart(all[n].data, delivered[n].data, |data|, MAX_PACKET_BUFFER_SIZE, RECEIVE_MTU);
    CopyOfPart(all[n].oob, delivered[n].oob, |oob|, OOB_BUFFER_SIZE, OOB_SIZE);
  }

  /** What was read is the n-th message. */
  ghost predicate NextIs(all: seq<Message>, n: nat, data: seq<Byte>, oob: seq<Byte>, addr: string) {
    && n < |all| && addr == all[n].addr
    && PartOf(data, all[n].data, MAX_PACKET_BUFFER_SIZE) && PartOf(oob, all[n].oob, OOB_BUFFER_SIZE)
  }

  /** The reader has returned n of the messages of the first `used` batches. */
  ghost predicate Tracks(reader: BatchReader, kernels: seq<KernelResult>, used: nat, n: nat)
    reads reader
  {
    && reader.Valid() && !reader.failed && |reader.returned| == n
    && used <= |kernels| && AllArrived(Delivered(kernels[..used]), reader.delivered)
  }

  ghost predicate Contract(kernels: seq<KernelResult>) {
    forall i :: 0 <= i < |kernels| ==>
      |kernels[i].msgs| <= BATCH_SIZE && (kernels[i].err.None? ==> kernels[i].msgs != [])
  }

  /** ReadPacket's reader part on the next message, or the error of its refill. */
  method Turn(reader: BatchReader, kernels: seq<KernelResult>, used: nat, ghost n: nat)
    returns (r: ReadResult, data: seq<Byte>, oob: seq<Byte>, used': nat)
    requires Tracks(reader, kernels, used, n) && Contract(kernels)
    requires reader.window == reader.readPos && !reader.closed ==> used < |kernels|
    modifies reader
    ensures used <= used' <= |kernels| && reader.closed == old(reader.closed)
    ensures r.ErrClosed? <==> old(reader.closed)
    ensures r.ErrClosed? ==> used' == used && unchanged(reader)
    ensures r.Failed? ==> used' == used < |kernels| && kernels[used].err.Some? && n == |Delivered(kernels[..used])|
    ensures r.Packet? ==>
              && Tracks(reader, kernels, used', n + 1)
              && NextIs(Delivered(kernels[..used']), n, data, oob, r.addr)
              && (if used' == used then 0 <= reader.window - reader.readPos < old(reader.window - reader.readPos)
                  else used' == used + 1 && kernels[used].err.None?)
  {
    var empty := reader.window == reader.readPos as nat;
    assert empty <==> reader.Pending() == [];
    assert |reader.returned + reader.Pending()| == |reader.delivered|;
    var kernel := if empty && used < |kernels| then kernels[used] else KernelResult([], None);
    ghost var before := reader.delivered;
    used' := used;
    r, data, oob := ReadOne(reader, kernel);
    if r.Packet? {
      if empty {
        DeliveredNext(kernels, used);
        FitArrives(kernel.msgs, reader.store, reader.buffers, reader.oobBuffers);
        ArrivedConcat(Delivered(kernels[..used]), before, kernel.msgs, reader.Fitted(kernel.msgs));
        used' := used + 1;
      }
      assert reader.delivered[n] == (reader.returned + reader.Pending())[n] == reader.returned[n];
      NextDispatch(Delivered(kernels[..used']), reader.delivered, n, data, oob);
    }
  }

  /** The n-th message makes the control-message loop fail as stop says. */
  ghost predicate FailsAt(stop: Stop, all: seq<Message>, n: nat) {
    && n < |all|
    && exists oob :: PartOf(oob, all[n].oob, OOB_BUFFER_SIZE) && Fails(oob, stop)
  }

  ghost predicate Fails(oob: seq<Byte>, stop: Stop) {
    ECNOutcome(oob) == if stop.BadControlData? then Invalid else OutOfRange
  }

  lemma LogGrows(log: seq<Dispatch>, kernels: seq<KernelResult>, used: nat, used': nat)
    requires used <= used' <= |kernels| && used' <= used + 1 && LogOk(log, Delivered(kernels[..used]))
    ensures LogOk(log, Delivered(kernels[..used']))
  {
    if used' == used + 1 {
      DeliveredNext(kernels, used);
    }
  }

  /** The rest of a turn: the control-message loop of ReadPacket, then dispatchMsg. */
  method ParseAndDispatch(log: seq<Dispatch>, data: seq<Byte>, oob: seq<Byte>, addr: string, ghost all: seq<Message>)
    returns (log': seq<Dispatch>, stop: Option<Stop>)
    requires LogOk(log, all)
    requires NextIs(all, |log|, data, oob, addr)
    ensures LogOk(log', all)
    ensures stop.None? ==> |log'| == |log| + 1
    ensures stop.Some? ==> log' == log && (stop.value.BadControlData? || stop.value.OutOfRangePanic?)
                           && FailsAt(stop.value, all, |log|)
  {
    var outcome := ReadECN(oob);
    log', stop := log, None;
    match outcome {
      case Invalid =>
        stop := Some(BadControlData);
        assert Fails(oob, BadControlData);
      case OutOfRange =>
        stop := Some(OutOfRangePanic);
        assert Fails(oob, OutOfRangePanic);
      case Value(ecn) =>
        log' := log + [Dispatch(data, oob, ecn, addr)];
    }
  }

  /** The first `used` batches came without an error. */
  ghost predicate NoErrors(kernels: seq<KernelResult>, used: nat)
    requires used <= |kernels|
  {
    forall i :: 0 <= i < used ==> kernels[i].err.None?
  }

  lemma NoErrorsSoFar(kernels: seq<KernelResult>, used: nat, used': nat)
    requires used <= used' <= |kernels| && NoErrors(kernels, used)
    requires used' == used || (used' == used + 1 && kernels[used].err.None?)
    ensures NoErrors(kernels, used')
  {
  }

  /** Between two turns: everything read so far was dispatched. */
  ghost predicate Going(reader: BatchReader, kernels: seq<KernelResult>, used: nat, log: seq<Dispatch>)
    reads reader
  {
    Tracks(reader, kernels, used, |log|) && LogOk(log, Delivered(kernels[..used]))
  }

  /** The loop ended in this way. */
  ghost predicate EndedBy(stop: Stop, kernels: seq<KernelResult>, used: nat, log: seq<Dispatch>)
    requires used <= |kernels|
  {
    var all := Delivered(kernels[..used]);
    match stop
    case Blocked => used == |kernels| && |log| == |all|
    case BatchError => used < |kernels| && kernels[used].err.Some? && |log| == |all|
    case Closed => |log| <= |all|
    case _ => FailsAt(stop, all, |log|)
  }

  /** One whole turn of the loop. */
  method Iterate(reader: BatchReader, kernels: seq<KernelResult>, used: nat, log: seq<Dispatch>)
    returns (log': seq<Dispatch>, used': nat, stop: Option<Stop>)
    requires Contract(kernels) && Going(reader, kernels, used, log) && NoErrors(kernels, used)
    requires reader.window == reader.readPos && !reader.closed ==> used < |kernels|
    modifies reader
    ensures reader.closed == old(reader.closed)
    ensures stop == Some(Closed) <==> old(reader.closed)
    ensures stop == Some(Closed) ==> Going(reader, kernels, used', log')
    ensures |log'| == if stop.None? then |log| + 1 else |log|
    ensures used <= used' <= |kernels| && NoErrors(kernels, used')
    ensures LogOk(log', Delivered(kernels[..used']))
    ensures stop.Some? ==> EndedBy(stop.value, kernels, used', log')
    ensures stop.None? ==>
              && Going(reader, kernels, used', log')
              && (used' == used ==> 0 <= reader.window - reader.readPos < old(reader.window - reader.readPos))
  {
    var r, data, oob;
    r, data, oob, used' := Turn(reader, kernels, used, |log|);
    if r.ErrClosed? {
      return log, used, Some(Closed);
    }
    if r.Failed? {
      return log, used, Some(BatchError);
    }
    LogGrows(log, kernels, used, used');
    NoErrorsSoFar(kernels, used, used');
    log', stop := ParseAndDispatch(log, data, oob, r.addr, Delivered(kernels[..used']));
  }

  /** What was not dispatched is what the window still holds. */
  lemma RestIsPending(reader: BatchReader, kernels: seq<KernelResult>, used: nat, n: nat)
    requires Tracks(reader, kernels, used, n)
    ensures n + |reader.Pending()| == |Delivered(kernels[..used])|
    ensures |reader.Pending()| == reader.window - reader.readPos
    ensures AllArrived(Delivered(kernels[..used])[n..], reader.Pending())
  {
    ArrivedRest(Delivered(kernels[..used]), reader.returned, reader.Pending());
  }

  lemma ArrivedRest(all: seq<Message>, returned: seq<Message>, pending: seq<Message>)
    requires AllArrived(all, returned + pending)
    ensures |returned| + |pending| == |all| && AllArrived(all[|returned|..], pending)
  {
    forall i | 0 <= i < |pending|
      ensures ArrivedAs(all[|returned|..][i], pending[i])
    {
      assert (returned + pending)[|returned| + i] == pending[i];
    }
  }

  /** Close calls between two reads leave the window alone. */
  method Interrupt(reader: BatchReader, closing: Closing, ghost kernels: seq<KernelResult>, ghost used: nat, ghost n: nat)
    requires Tracks(reader, kernels, used, n)
    modifies reader
    ensures Tracks(reader, kernels, used, n)
    ensures reader.closed <==> old(reader.closed) || !closing.NoClose?
    ensures reader.window == old(reader.window) && reader.readPos == old(reader.readPos)
    ensures reader.Pending() == old(reader.Pending())
  {
    if !closing.NoClose? {
      reader.MarkClosed();
      if closing.MarksAndReleases? {
        reader.ReleaseBuffers();
      }
    }
  }

  /** Some Close falls before one of the first n reads. */
  ghost predicate ClosedBefore(closings: nat -> Closing, n: nat) {
    exists i: nat :: i < n && !closings(i).NoClose?
  }

  /** The whole run of readLoop, with Close calls on the reader between any two of
      its reads.  The packets dispatched are the messages the kernel delivered, in
      order and once each, up to the first error; a Close ends the loop at the next
      read, and then exactly the messages still in the window are missing.  The
      reader could replay old slots after a failed refill, but the loop does not
      read again after an error. */
  method RunReadLoop(reader: BatchReader, kernels: seq<KernelResult>, closings: nat -> Closing)
    returns (log: seq<Dispatch>, stop: Stop, used: nat)
    requires reader.Valid() && !reader.failed && reader.returned == [] && reader.delivered == []
    requires Contract(kernels)
    modifies reader
    ensures used <= |kernels| && NoErrors(kernels, used)
    ensures LogOk(log, Delivered(kernels[..used]))
    ensures EndedBy(stop, kernels, used, log)
    ensures stop.Closed? <==> old(reader.closed) || ClosedBefore(closings, |log| + 1)
    ensures stop.Closed? ==> reader.Valid() && AllArrived(Delivered(kernels[..used])[|log|..], reader.Pending())
    ensures stop.Closed? ==> (|log| == |Delivered(kernels[..used])| <==> reader.Pending() == [])
  {
    log, used := [], 0;
    assert kernels[..0] == [];
    while true
      invariant used <= |kernels| && NoErrors(kernels, used)
      invariant Going(reader, kernels, used, log)
      invariant reader.closed <==> old(reader.closed) || ClosedBefore(closings, |log|)
      decreases |kernels| - used, reader.window - reader.readPos
    {
      Interrupt(reader, closings(|log|), kernels, used, |log|);
      ghost var n := |log|;
      assert reader.closed <==> old(reader.closed) || ClosedBefore(closings, n + 1);
      RestIsPending(reader, kernels, used, |log|);
      if reader.window == reader.readPos as nat && used == |kernels| && !reader.closed {
        return log, Blocked, used;
      }
      var end;
      log, used, end := Iterate(reader, kernels, used, log);
      if end.Some? {
        if end.value.Closed? {
          RestIsPending(reader, kernels, used, |log|);
        }
        return log, end.value, used;
      }
    }
  }
}
