/** What one goroutine can rely on while the others go on. */
module Interference {
  import opened Protocol
  import opened ProtocolInvariant

  /** Whose code runs: the read loop, the body of supConn.Close, the body of c's
      Close, or the Accept call that has received c. */
  datatype Actor = TheReader | TheListener | TheConn(c: ConnId) | TheAccept(c: ConnId)

  predicate By(step: Step, me: Actor) {
    match me
    case TheReader => step.Reader?
    case TheListener => step.Listener? && !step.l.ListenerRepeat? && !step.l.ListenerRepeatReturn?
    case TheConn(c) => step.OfConn? && step.c == c && !step.k.ConnRepeat? && !step.k.ConnRepeatReturn?
    case TheAccept(c) => step == Accept(AcceptAdd(c))
  }

  /** The steps of env, in order, as far as they can be taken and are not my own. */
  function Others(s: State, me: Actor, env: seq<Step>): State
    decreases |env|
  {
    if env == [] then s
    else if Enabled(s, env[0]) && !By(env[0], me) then Others(After(s, env[0]), me, env[1..])
    else Others(s, me, env[1..])
  }

  lemma {:induction false} OthersReach(s: State, me: Actor, env: seq<Step>)
    requires Reachable(s)
    ensures Reachable(Others(s, me, env))
    decreases |env|
  {
    if env != [] {
      if Enabled(s, env[0]) && !By(env[0], me) {
        ReachableStep(s, env[0], After(s, env[0]));
        OthersReach(After(s, env[0]), me, env[1..]);
      } else {
        OthersReach(s, me, env[1..]);
      }
    }
  }

  /** Any run of the others can come between: they take all the steps of a run that
      has none of mine. */
  lemma {:induction false} OthersTakeAll(s: State, me: Actor, env: seq<Step>, t: State)
    requires Leads(s, env, t)
    requires forall i :: 0 <= i < |env| ==>
               match me
               case TheReader => !env[i].Reader?
               case TheListener => !env[i].Listener?
               case TheConn(c) => !(env[i].OfConn? && env[i].c == c)
               case TheAccept(c) => env[i] != Accept(AcceptAdd(c))
    ensures Others(s, me, env) == t
    decreases |env|
  {
    if env != [] {
      OthersTakeAll(After(s, env[0]), me, env[1..], t);
    }
  }

  // ---- the mutex -----------------------------------------------------------

  predicate Holds(s: State, me: Actor) {
    match me
    case TheReader => s.lock == ByReader
    case TheListener => s.lock == ByListener
    case TheConn(c) => s.lock == ByConn(c)
    case TheAccept(_) => false
  }

  /** What the mutex protects. */
  ghost predicate SameUnderLock(s: State, t: State) {
    && t.lock == s.lock && t.conns == s.conns && t.sent == s.sent && |t.table| == |s.table|
    && |t.acceptCh| <= |s.acceptCh|
  }

  lemma ReaderKeepsOut(s: State, step: ReaderStep)
    requires LockInv(s) && ReaderEnabled(s, step) && !s.lock.Free? && s.lock != ByReader
    ensures SameUnderLock(s, AfterReader(s, step))
  {
  }

  lemma AcceptKeepsOut(s: State, step: AcceptStep)
    requires AcceptEnabled(s, step)
    ensures SameUnderLock(s, AfterAccept(s, step))
  {
  }

  lemma ListenerKeepsOut(s: State, step: ListenerStep)
    requires LockInv(s) && ListenerEnabled(s, step) && !s.lock.Free?
    requires s.lock != ByListener || step.ListenerRepeat? || step.ListenerRepeatReturn?
    ensures SameUnderLock(s, AfterListener(s, step))
  {
  }

  lemma ConnKeepsOut(s: State, c: ConnId, step: ConnStep)
    requires LockInv(s) && c < |s.table| && ConnEnabled(s, c, step) && !s.lock.Free?
    requires s.lock != ByConn(c) || step.ConnRepeat? || step.ConnRepeatReturn?
    ensures SameUnderLock(s, AfterConn(s, c, step))
  {
  }

  /** Nobody but its holder changes what the mutex protects. */
  lemma OthersKeepOut(s: State, me: Actor, step: Step)
    requires LockInv(s) && Enabled(s, step) && !By(step, me) && Holds(s, me)
    ensures SameUnderLock(s, After(s, step))
  {
    match step
    case Reader(r) => ReaderKeepsOut(s, r);
    case Closer(g) =>
    case Accept(a) => AcceptKeepsOut(s, a);
    case Listener(l) => ListenerKeepsOut(s, l);
    case OfConn(c, k) => ConnKeepsOut(s, c, k);
  }

  // ---- everything else -----------------------------------------------------

  /** What nobody undoes: connections stay with their addresses, accepting is not
      set again, and only supConn.Close drains. */
  ghost predicate Onward(s: State, t: State) {
    && t.backlog == s.backlog
    && (t.accepting ==> s.accepting)
    && |s.table| <= |t.table|
    && (forall c: ConnId :: c < |s.table| ==> t.table[c].addr == s.table[c].addr)
  }

  /** My own program counter and what only I change. */
  ghost predicate Mine(me: Actor, s: State, t: State) {
    match me
    case TheReader => t.reader == s.reader
    case TheListener =>
      && t.listener == s.listener && t.accepting == s.accepting && t.doneCloses == s.doneCloses
      && |s.table| <= |t.table|
      && (forall c: ConnId :: c < |s.table| ==> (t.table[c].place.Drained? <==> s.table[c].place.Drained?))
    case TheConn(c) =>
      c < |s.table| && s.table[c].place.HandedOut? ==>
        c < |t.table| && t.table[c].place.HandedOut? && t.table[c].closing == s.table[c].closing
    case TheAccept(c) =>
      c < |s.table| && s.table[c].place.Received? ==> c < |t.table| && t.table[c].place.Received?
  }

  ghost predicate Rely(me: Actor, s: State, t: State) {
    Onward(s, t) && Mine(me, s, t) && (Holds(s, me) ==> SameUnderLock(s, t))
  }

  lemma AnyoneOnward(s: State, step: Step)
    requires Enabled(s, step)
    ensures Onward(s, After(s, step))
  {
    match step
    case Reader(r) => ReaderOnward(s, r);
    case Closer(g) =>
    case Accept(a) => AcceptOnward(s, a);
    case Listener(l) => ListenerOnward(s, l);
    case OfConn(c, k) => ConnStepMoves(s, c, k);
  }

  lemma ReaderOnward(s: State, step: ReaderStep)
    requires ReaderEnabled(s, step)
    ensures Onward(s, AfterReader(s, step))
  {
    if !step.ReaderSend? {
      ReaderLeavesTable(s, step);
    }
  }

  lemma AcceptOnward(s: State, step: AcceptStep)
    requires AcceptEnabled(s, step)
    ensures Onward(s, AfterAccept(s, step))
  {
  }

  lemma ListenerOnward(s: State, step: ListenerStep)
    requires ListenerEnabled(s, step)
    ensures Onward(s, AfterListener(s, step))
  {
  }

  lemma OthersLeaveMine(s: State, me: Actor, step: Step)
    requires ChannelInv(s) && ConnInv(s) && Enabled(s, step) && !By(step, me)
    ensures Mine(me, s, After(s, step))
  {
    match step
    case Reader(r) => ReaderLeavesMine(s, me, r);
    case Closer(g) =>
    case Accept(a) => AcceptLeavesMine(s, me, a);
    case Listener(l) => ListenerLeavesMine(s, me, l);
    case OfConn(c, k) => ConnStepMoves(s, c, k);
  }

  lemma ReaderLeavesMine(s: State, me: Actor, step: ReaderStep)
    requires ReaderEnabled(s, step) && !me.TheReader?
    ensures Mine(me, s, AfterReader(s, step))
  {
    if !step.ReaderSend? {
      ReaderLeavesTable(s, step);
    }
  }

  lemma AcceptLeavesMine(s: State, me: Actor, step: AcceptStep)
    requires ChannelInv(s) && ConnInv(s) && AcceptEnabled(s, step) && !By(Accept(step), me)
    ensures Mine(me, s, AfterAccept(s, step))
  {
    if step.AcceptReceive? {
      HeadIsQueued(s);
    }
  }

  lemma ListenerLeavesMine(s: State, me: Actor, step: ListenerStep)
    requires ChannelInv(s) && ConnInv(s) && ListenerEnabled(s, step) && !By(Listener(step), me)
    ensures Mine(me, s, AfterListener(s, step))
  {
    if step.ListenerTake? {
      HeadIsQueued(s);
    }
  }

  lemma RelyTrans(me: Actor, s: State, m: State, t: State)
    requires Rely(me, s, m) && Rely(me, m, t)
    ensures Rely(me, s, t)
  {
  }

  lemma {:induction false} OthersRely(s: State, me: Actor, env: seq<Step>)
    requires Reachable(s)
    ensures Rely(me, s, Others(s, me, env))
    decreases |env|
  {
    if env != [] {
      if Enabled(s, env[0]) && !By(env[0], me) {
        var m := After(s, env[0]);
        StepRely(s, me, env[0]);
        ReachableStep(s, env[0], m);
        OthersRely(m, me, env[1..]);
        RelyTrans(me, s, m, Others(m, me, env[1..]));
      } else {
        OthersRely(s, me, env[1..]);
      }
    }
  }

  lemma StepRely(s: State, me: Actor, step: Step)
    requires Reachable(s) && Enabled(s, step) && !By(step, me)
    ensures Rely(me, s, After(s, step))
  {
    ReachableInv(s);
    AnyoneOnward(s, step);
    OthersLeaveMine(s, me, step);
    if Holds(s, me) {
      OthersKeepOut(s, me, step);
    }
  }
}
