/**
  The lobby's close protocol over its intake channel, and the yielder that takes over what is
  left. Submitters, retrievers, closers and the forwarding goroutine interleave step by step.
 */
module LobbyProtocol {
  import opened Tasks

  // ---------- State ----------

  /** A SubmitTask call: inside the read lock, first before and then after its checks. */
  datatype Submitter = Entered(offered: Option<Task>) | Sending(task: Task)

  datatype CloseReply = LobbyClosed | Closed | BuildError

  /** Where a CloseContext call stands: flag read, flag set, inside the once, or returned. */
  datatype ClosePhase = Saw | Flagged | Inside | Returned(reply: CloseReply)

  /** A CloseContext call, with what it read from the closed flag. */
  datatype Closer = Closer(sawClosed: bool, phase: ClosePhase)

  /** How far the one closer inside the once is. */
  datatype Stage = Announced | Owning | Built | Sealed

  datatype Once = Fresh | Busy(owner: nat, stage: Stage) | Spent

  datatype YielderError = Stopped | InputClosed

  datatype Forwarder = Reading | Writing(task: Task) | Ended(clean: bool, lost: seq<Task>)

  /** The handoff yielder: its output channel, what was read from it, and its forwarding goroutine. */
  datatype Yielder = Yielder(
    buf: nat,
    gen: seq<Task>,
    out: seq<Task>,
    forwarder: Forwarder,
    ctxDone: bool,
    stopCalled: bool,
    err: Option<YielderError>)

  datatype State = State(
    cap: nat,
    incoming: seq<Task>,
    incomingClosed: bool,
    closing: bool,
    closed: bool,
    once: Once,
    locked: bool,                     // the write lock is held
    submitters: map<nat, Submitter>,  // each holds the read lock
    closers: map<nat, Closer>,
    handoff: Option<Yielder>,
    buildFailed: bool,                // the handoff yielder could not be built
    accepted: seq<Task>,              // tasks whose SubmitTask returned nil, in order
    received: seq<Task>,              // tasks taken out of the channel, in order
    sealedAccepted: seq<Task>,        // accepted when the write lock was taken
    buffered: seq<Task>,              // the channel's contents at that moment
    others: nat,                      // receives by anyone but the handoff since then
    panicked: bool)                   // a send on, or a second close of, a closed channel

  datatype Action =
    | Enter(p: nat, task: Option<Task>) | Check(p: nat) | Send(p: nat) | GiveUp(p: nat)
    | Retrieve
    | BeginClose(c: nat) | Flag(c: nat) | EnterOnce(c: nat) | SkipOnce(c: nat)
    | Lock | Build | BuildFail | CloseIncoming | Unlock
    | Read | Write | End | Abort
    | CallStop | Cancel | Consume

  function Init(cap: nat): State {
    State(cap, [], false, false, false, Fresh, false, map[], map[], None, false, [], [], [], [], 0, false)
  }

  // ---------- Steps ----------

  /** The first error sticks. */
  function SetErr(y: Yielder, err: YielderError): Yielder {
    if y.err.Some? then y else y.(err := Some(err))
  }

  function NewYielder(buf: nat): Yielder {
    Yielder(if buf == 0 then 1 else buf, [], [], Reading, false, false, None)
  }

  ghost predicate Forwarding(s: State) {
    s.handoff.Some? && !s.handoff.value.forwarder.Ended?
  }

  predicate At(once: Once, stage: Stage) {
    once.Busy? && once.stage == stage
  }

  ghost predicate Enabled(s: State, a: Action) {
    match a
    case Enter(p, _) => p !in s.submitters && !s.locked
    case Check(p) => p in s.submitters && s.submitters[p].Entered?
    case Send(p) => p in s.submitters && s.submitters[p].Sending? && (s.incomingClosed || |s.incoming| < s.cap)
    case GiveUp(p) => p in s.submitters && s.submitters[p].Sending?
    case Retrieve => s.incoming != []
    case BeginClose(c) => c !in s.closers
    case Flag(c) => c in s.closers && s.closers[c].phase == Saw
    case EnterOnce(c) => c in s.closers && s.closers[c].phase == Flagged && s.once == Fresh
    case SkipOnce(c) => c in s.closers && s.closers[c].phase == Flagged && s.once == Spent
    case Lock => At(s.once, Announced) && !s.locked && s.submitters == map[]
    case Build => At(s.once, Owning)
    case BuildFail => At(s.once, Owning)
    case CloseIncoming => At(s.once, Built)
    case Unlock => At(s.once, Sealed)
    case Read => Forwarding(s) && s.handoff.value.forwarder == Reading && s.incoming != []
    case Write => Forwarding(s) && s.handoff.value.forwarder.Writing? && |s.handoff.value.gen| < s.handoff.value.buf
    case End => Forwarding(s) && s.handoff.value.forwarder == Reading && s.incoming == [] && s.incomingClosed
    case Abort => Forwarding(s) && s.handoff.value.ctxDone
    case CallStop => s.handoff.Some?
    case Cancel => s.handoff.Some?
    case Consume => s.handoff.Some? && s.handoff.value.gen != []
  }

  function Lost(f: Forwarder): seq<Task> {
    match f
    case Reading => []
    case Writing(task) => [task]
    case Ended(_, lost) => lost
  }

  /** What a step does to the handoff yielder, given the channel's head. */
  function YielderStep(y: Yielder, a: Action, incoming: seq<Task>): Yielder
    requires a.Read? ==> incoming != []
    requires a.Write? ==> y.forwarder.Writing?
    requires a.Consume? ==> y.gen != []
  {
    match a
    case Read => y.(forwarder := Writing(incoming[0]))
    case Write => y.(gen := y.gen + [y.forwarder.task], forwarder := Reading)
    case End => SetErr(y, InputClosed).(forwarder := Ended(true, []))
    case Abort => SetErr(y, Stopped).(forwarder := Ended(false, Lost(y.forwarder)))
    case CallStop => SetErr(y, Stopped).(stopCalled := true)
    case Cancel => y.(ctxDone := true)
    case Consume => y.(gen := y.gen[1..], out := y.out + [y.gen[0]])
    case _ => y
  }

  function Since(s: State): nat {
    if s.locked || s.once == Spent then s.others + 1 else s.others
  }

  function Advance(closers: map<nat, Closer>, c: nat, phase: ClosePhase): map<nat, Closer> {
    if c in closers then closers[c := closers[c].(phase := phase)] else closers
  }

  predicate BySubmitter(a: Action) {
    a.Enter? || a.Check? || a.Send? || a.GiveUp?
  }

  predicate ByCloser(a: Action) {
    || a.BeginClose? || a.Flag? || a.EnterOnce? || a.SkipOnce?
    || a.Lock? || a.Build? || a.BuildFail? || a.CloseIncoming? || a.Unlock?
  }

  function SubmitterStep(s: State, a: Action): State
    requires Enabled(s, a) && BySubmitter(a)
  {
    match a
    case Enter(p, task) => s.(submitters := s.submitters[p := Entered(task)])
    case Check(p) =>
      if s.closed || s.submitters[p].offered == None then s.(submitters := s.submitters - {p})
      else s.(submitters := s.submitters[p := Sending(s.submitters[p].offered.value)])
    case Send(p) =>
      var task := s.submitters[p].task;
      if s.incomingClosed then s.(panicked := true)
      else s.(submitters := s.submitters - {p}, incoming := s.incoming + [task], accepted := s.accepted + [task])
    case GiveUp(p) => s.(submitters := s.submitters - {p})
  }

  function CloserStep(s: State, a: Action): State
    requires Enabled(s, a) && ByCloser(a)
  {
    match a
    case BeginClose(c) =>
      s.(closers := s.closers[c := Closer(s.closed, if s.closed then Returned(LobbyClosed) else Saw)])
    case Flag(c) => s.(closers := Advance(s.closers, c, Flagged), closed := true)
    case EnterOnce(c) =>
      s.(closers := Advance(s.closers, c, Inside), once := Busy(c, Announced),
         closing := true, panicked := s.panicked || s.closing)
    case SkipOnce(c) => s.(closers := Advance(s.closers, c, Returned(Closed)))
    case Lock =>
      s.(once := Busy(s.once.owner, Owning), locked := true, sealedAccepted := s.accepted, buffered := s.incoming)
    case Build => s.(once := Busy(s.once.owner, Built), handoff := Some(NewYielder(|s.incoming|)))
    case BuildFail => s.(once := Busy(s.once.owner, Built), buildFailed := true)
    case CloseIncoming =>
      s.(once := Busy(s.once.owner, Sealed), incomingClosed := true, panicked := s.panicked || s.incomingClosed)
    case Unlock =>
      s.(once := Spent, locked := false,
         closers := Advance(s.closers, s.once.owner, Returned(if s.buildFailed then BuildError else Closed)))
  }

  /** A receive, or a step of the handoff yielder. */
  function ReceiverStep(s: State, a: Action): State
    requires Enabled(s, a) && !BySubmitter(a) && !ByCloser(a)
  {
    if a.Retrieve? then
      s.(incoming := s.incoming[1..], received := s.received + [s.incoming[0]], others := Since(s))
    else if a.Read? then
      s.(incoming := s.incoming[1..], received := s.received + [s.incoming[0]],
         handoff := Some(YielderStep(s.handoff.value, a, s.incoming)))
    else s.(handoff := Some(YielderStep(s.handoff.value, a, s.incoming)))
  }

  function Apply(s: State, a: Action): State
    requires Enabled(s, a)
  {
    if BySubmitter(a) then SubmitterStep(s, a)
    else if ByCloser(a) then CloserStep(s, a)
    else ReceiverStep(s, a)
  }

  ghost predicate CanRun(s: State, run: seq<Action>)
    decreases |run|
  {
    run == [] || (Enabled(s, run[0]) && CanRun(Apply(s, run[0]), run[1..]))
  }

  ghost function After(s: State, run: seq<Action>): State
    requires CanRun(s, run)
    decreases |run|
  {
    if run == [] then s else After(Apply(s, run[0]), run[1..])
  }

  // ---------- Exclusion ----------

  /** The close is past building the handoff. */
  predicate HandoffDue(once: Once) {
    once == Spent || At(once, Built) || At(once, Sealed)
  }

  /** The flags follow the stage of the closer inside the once. */
  ghost predicate Staged(s: State) {
    && (s.closing <==> s.once != Fresh)
    && (s.buildFailed ==> HandoffDue(s.once))
    && (s.once != Fresh ==> s.closed)
    && (s.locked <==> s.once.Busy? && s.once.stage != Announced)
    && (s.incomingClosed <==> s.once == Spent || At(s.once, Sealed))
    && (forall c :: c in s.closers && s.closers[c].phase == Flagged ==> s.closed)
    && (s.handoff.Some? <==> !s.buildFailed && HandoffDue(s.once))
    && !s.panicked
  }

  /** Nobody is past its checks while or after the write lock is held. */
  ghost predicate Excluded(s: State) {
    && (s.locked ==> s.submitters == map[])
    && (s.once == Spent ==> forall p :: p in s.submitters ==> s.submitters[p].Entered?)
  }

  lemma StagedSubmitter(s: State, a: Action)
    requires Staged(s) && Excluded(s) && Enabled(s, a) && BySubmitter(a)
    ensures Staged(SubmitterStep(s, a)) && Excluded(SubmitterStep(s, a))
  {
  }

  lemma StagedCloser(s: State, a: Action)
    requires Staged(s) && Enabled(s, a) && ByCloser(a)
    ensures Staged(CloserStep(s, a))
  {
    hide NewYielder;
  }

  lemma ExcludedCloser(s: State, a: Action)
    requires Staged(s) && Excluded(s) && Enabled(s, a) && ByCloser(a)
    ensures Excluded(CloserStep(s, a))
  {
    hide NewYielder, Advance;
  }

  lemma StagedReceiver(s: State, a: Action)
    requires Staged(s) && Excluded(s) && Enabled(s, a) && !BySubmitter(a) && !ByCloser(a)
    ensures Staged(ReceiverStep(s, a)) && Excluded(ReceiverStep(s, a))
  {
    hide YielderStep;
  }

  lemma StagedKept(s: State, a: Action)
    requires Staged(s) && Excluded(s) && Enabled(s, a)
    ensures Staged(Apply(s, a)) && Excluded(Apply(s, a))
  {
    hide Staged, Excluded, Enabled, SubmitterStep, CloserStep, ReceiverStep, BySubmitter, ByCloser;
    if BySubmitter(a) {
      StagedSubmitter(s, a);
    } else if ByCloser(a) {
      StagedCloser(s, a);
      ExcludedCloser(s, a);
    } else {
      StagedReceiver(s, a);
    }
  }

  // ---------- Order ----------

  /** What was received, followed by what is buffered, is what was accepted. */
  ghost predicate Fifo(accepted: seq<Task>, received: seq<Task>, incoming: seq<Task>, cap: nat) {
    accepted == received + incoming && |incoming| <= cap
  }

  /** Nothing is accepted after the write lock. */
  ghost predicate Ordered(s: State) {
    && Fifo(s.accepted, s.received, s.incoming, s.cap)
    && (s.locked || s.once == Spent ==> s.accepted == s.sealedAccepted)
  }

  lemma FifoReceive(accepted: seq<Task>, received: seq<Task>, incoming: seq<Task>, cap: nat)
    requires Fifo(accepted, received, incoming, cap) && incoming != []
    ensures Fifo(accepted, received + [incoming[0]], incoming[1..], cap)
  {
    assert incoming == [incoming[0]] + incoming[1..];
  }

  lemma FifoSend(accepted: seq<Task>, received: seq<Task>, incoming: seq<Task>, cap: nat, task: Task)
    requires Fifo(accepted, received, incoming, cap) && |incoming| < cap
    ensures Fifo(accepted + [task], received, incoming + [task], cap)
  {
  }

  lemma OrderedKept(s: State, a: Action)
    requires Staged(s) && Excluded(s) && Ordered(s) && Enabled(s, a)
    ensures Ordered(Apply(s, a))
  {
    hide Fifo, YielderStep;
    if a.Retrieve? || a.Read? {
      FifoReceive(s.accepted, s.received, s.incoming, s.cap);
    } else if a.Send? && !s.incomingClosed {
      FifoSend(s.accepted, s.received, s.incoming, s.cap, s.submitters[a.p].task);
    }
  }

  // ---------- Replies ----------

  /** A close call was told the lobby is closed if and only if it read the flag as set. */
  ghost predicate Answered(closers: map<nat, Closer>) {
    forall c :: c in closers ==> (closers[c].sawClosed <==> closers[c].phase == Returned(LobbyClosed))
  }

  /** The closer inside the once, and no other, is inside. */
  ghost predicate Owned(closers: map<nat, Closer>, once: Once) {
    && (once.Busy? ==> once.owner in closers)
    && (forall c :: c in closers ==> (closers[c].phase == Inside <==> once.Busy? && once.owner == c))
  }

  ghost predicate Replied(s: State) {
    Answered(s.closers) && Owned(s.closers, s.once)
  }

  lemma NewCloser(closers: map<nat, Closer>, once: Once, c: nat, closed: bool)
    requires Answered(closers) && Owned(closers, once) && c !in closers
    ensures var closers' := closers[c := Closer(closed, if closed then Returned(LobbyClosed) else Saw)];
      Answered(closers') && Owned(closers', once)
  {
  }

  lemma CloserAdvances(closers: map<nat, Closer>, once: Once, c: nat, phase: ClosePhase)
    requires Answered(closers) && Owned(closers, once) && c in closers && !closers[c].phase.Returned?
    requires phase != Returned(LobbyClosed) && phase != Inside && closers[c].phase != Inside
    ensures Answered(Advance(closers, c, phase)) && Owned(Advance(closers, c, phase), once)
  {
  }

  lemma CloserEnters(closers: map<nat, Closer>, c: nat)
    requires Answered(closers) && Owned(closers, Fresh) && c in closers && closers[c].phase == Flagged
    ensures Answered(Advance(closers, c, Inside)) && Owned(Advance(closers, c, Inside), Busy(c, Announced))
  {
  }

  lemma CloserLeaves(closers: map<nat, Closer>, once: Once, reply: CloseReply)
    requires Answered(closers) && Owned(closers, once) && once.Busy? && reply != LobbyClosed
    ensures var closers' := Advance(closers, once.owner, Returned(reply)); Answered(closers') && Owned(closers', Spent)
  {
  }

  lemma OwnerStays(closers: map<nat, Closer>, owner: nat, stage: Stage, stage': Stage)
    requires Owned(closers, Busy(owner, stage))
    ensures Owned(closers, Busy(owner, stage'))
  {
  }

  lemma RepliedCloser(s: State, a: Action)
    requires Replied(s) && Enabled(s, a) && ByCloser(a)
    ensures Replied(CloserStep(s, a))
  {
    hide Answered, Owned, Advance, NewYielder;
    match a
    case BeginClose(c) => NewCloser(s.closers, s.once, c, s.closed);
    case Flag(c) => CloserAdvances(s.closers, s.once, c, Flagged);
    case EnterOnce(c) => CloserEnters(s.closers, c);
    case SkipOnce(c) => CloserAdvances(s.closers, s.once, c, Returned(Closed));
    case Lock => OwnerStays(s.closers, s.once.owner, s.once.stage, Owning);
    case Build => OwnerStays(s.closers, s.once.owner, s.once.stage, Built);
    case BuildFail => OwnerStays(s.closers, s.once.owner, s.once.stage, Built);
    case CloseIncoming => OwnerStays(s.closers, s.once.owner, s.once.stage, Sealed);
    case Unlock => CloserLeaves(s.closers, s.once, if s.buildFailed then BuildError else Closed);
  }

  /** The parts of the state that only close calls change. */
  ghost predicate SameClose(s: State, t: State) {
    t.closers == s.closers && t.once == s.once && t.buildFailed == s.buildFailed
  }

  lemma CheckAlone(s: State, p: nat)
    requires Enabled(s, Check(p))
    ensures SameClose(s, SubmitterStep(s, Check(p)))
  {
  }

  lemma SendAlone(s: State, p: nat)
    requires Enabled(s, Send(p))
    ensures SameClose(s, SubmitterStep(s, Send(p)))
  {
  }

  lemma SubmitterAlone(s: State, a: Action)
    requires Enabled(s, a) && BySubmitter(a)
    ensures SameClose(s, SubmitterStep(s, a))
  {
    if a.Check? {
      CheckAlone(s, a.p);
    } else if a.Send? {
      SendAlone(s, a.p);
    } else if a.Enter? {
      assert SameClose(s, SubmitterStep(s, a));
    } else {
      assert SameClose(s, SubmitterStep(s, a));
    }
  }

  lemma ReceiverAlone(s: State, a: Action)
    requires Enabled(s, a) && !BySubmitter(a) && !ByCloser(a)
    ensures SameClose(s, ReceiverStep(s, a))
  {
    hide Enabled, YielderStep, BySubmitter, ByCloser;
    if a.Retrieve? {
      assert SameClose(s, ReceiverStep(s, a));
    } else if a.Read? {
      assert SameClose(s, ReceiverStep(s, a));
    }
  }

  /** Only closers touch the once and each other. */
  lemma ClosersAlone(s: State, a: Action)
    requires Enabled(s, a) && !ByCloser(a)
    ensures SameClose(s, Apply(s, a))
  {
    hide Enabled, SubmitterStep, CloserStep, ReceiverStep, BySubmitter, ByCloser;
    if BySubmitter(a) {
      SubmitterAlone(s, a);
    } else {
      ReceiverAlone(s, a);
    }
  }

  lemma RepliedKept(s: State, a: Action)
    requires Replied(s) && Enabled(s, a)
    ensures Replied(Apply(s, a))
  {
    hide Answered, Owned, Enabled, SubmitterStep, CloserStep, ReceiverStep, BySubmitter, ByCloser;
    if ByCloser(a) {
      RepliedCloser(s, a);
      CloserApplies(s, a);
    } else {
      ClosersAlone(s, a);
    }
  }

  lemma CloserApplies(s: State, a: Action)
    requires Enabled(s, a) && ByCloser(a)
    ensures Apply(s, a) == CloserStep(s, a)
  {
    hide Enabled, SubmitterStep, CloserStep, ReceiverStep;
  }

  // ---------- Handoff ----------

  /** Everything the forwarder has taken: read by the consumer, in the output buffer, in its hand. */
  function Taken(y: Yielder): seq<Task> {
    y.out + y.gen + Lost(y.forwarder)
  }

  /** A clean end means the closed channel is empty, any other end a done context; the error says which came first. */
  ghost predicate Faithful(y: Yielder, incoming: seq<Task>, incomingClosed: bool) {
    match y.forwarder
    case Ended(true, lost) =>
      && incoming == [] && incomingClosed && lost == []
      && (y.err == Some(InputClosed) || (y.stopCalled && y.err == Some(Stopped)))
    case Ended(false, _) => y.ctxDone && y.err == Some(Stopped)
    case _ => if y.stopCalled then y.err == Some(Stopped) else y.err == None
  }

  /** Receives are counted from the write lock on, and until the handoff is built the channel is as it was then. */
  ghost predicate Counted(s: State) {
    && (At(s.once, Owning) && s.others == 0 ==> s.incoming == s.buffered)
    && (!s.locked && s.once != Spent ==> s.others == 0)
  }

  /** If nobody else has received since the lock, what the handoff took and what is left is what was buffered. */
  ghost predicate Complete(s: State) {
    s.handoff.Some? ==>
      && (s.others == 0 ==> Balanced(s.handoff.value, s.incoming, s.buffered))
      && Faithful(s.handoff.value, s.incoming, s.incomingClosed)
  }

  lemma FaithfulStep(y: Yielder, a: Action, incoming: seq<Task>, incomingClosed: bool)
    requires Faithful(y, incoming, incomingClosed)
    requires a.Read? ==> incoming != [] && y.forwarder == Reading
    requires a.Write? ==> y.forwarder.Writing?
    requires a.End? ==> incoming == [] && incomingClosed && y.forwarder == Reading
    requires a.Abort? ==> y.ctxDone && !y.forwarder.Ended?
    requires a.Consume? ==> y.gen != []
    ensures Faithful(YielderStep(y, a, incoming), if a.Read? then incoming[1..] else incoming, incomingClosed)
  {
  }

  lemma HandoffSubmitter(s: State, a: Action)
    requires Staged(s) && Excluded(s) && Enabled(s, a) && BySubmitter(a)
    ensures var t := SubmitterStep(s, a);
      && t.handoff == s.handoff && t.incomingClosed == s.incomingClosed && t.others == s.others
      && t.buffered == s.buffered && (s.handoff.Some? ==> t.incoming == s.incoming)
  {
    match a
    case Enter(_, _) =>
    case Check(_) =>
    case Send(_) =>
    case GiveUp(_) =>
  }

  lemma HandoffCloser(s: State, a: Action)
    requires Staged(s) && Enabled(s, a) && ByCloser(a) && s.handoff.Some?
    ensures var t := CloserStep(s, a);
      && t.handoff == s.handoff && t.incoming == s.incoming && (s.incomingClosed ==> t.incomingClosed)
      && t.others == s.others && t.buffered == s.buffered
  {
    hide Advance, NewYielder;
  }

  /** What a step does to a handoff that exists, and to the channel it reads. */
  lemma HandoffAfter(s: State, a: Action)
    requires Staged(s) && Excluded(s) && Enabled(s, a) && s.handoff.Some?
    ensures var t := Apply(s, a);
      && t.handoff == Some(YielderStep(s.handoff.value, a, s.incoming))
      && t.incoming == (if a.Read? || a.Retrieve? then s.incoming[1..] else s.incoming)
      && (s.incomingClosed ==> t.incomingClosed) && t.buffered == s.buffered
      && (t.others == 0 ==> s.others == 0 && !a.Retrieve?)
  {
    hide Excluded, CloserStep, SubmitterStep;
    if BySubmitter(a) {
      HandoffSubmitter(s, a);
    } else if ByCloser(a) {
      HandoffCloser(s, a);
    }
  }

  lemma FaithfulKept(s: State, a: Action)
    requires s.handoff.Some? && Staged(s) && Excluded(s) && Enabled(s, a)
    requires Faithful(s.handoff.value, s.incoming, s.incomingClosed)
    ensures var t := Apply(s, a); t.handoff.Some? && Faithful(t.handoff.value, t.incoming, t.incomingClosed)
  {
    HandoffAfter(s, a);
    FaithfulStep(s.handoff.value, a, s.incoming, s.incomingClosed);
    hide Faithful, Apply, YielderStep, Staged, Excluded;
    var t := Apply(s, a);
    FaithfulChannel(t.handoff.value, if a.Read? then s.incoming[1..] else s.incoming, s.incomingClosed,
                    t.incoming, t.incomingClosed);
  }

  lemma FaithfulChannel(y: Yielder, incoming: seq<Task>, incomingClosed: bool,
                        incoming': seq<Task>, incomingClosed': bool)
    requires Faithful(y, incoming, incomingClosed)
    requires incomingClosed ==> incomingClosed' && (incoming == [] ==> incoming' == [])
    ensures Faithful(y, incoming', incomingClosed')
  {
  }

  /** The tasks the handoff took and the channel's rest make up what was buffered, and the output has room for them. */
  ghost predicate Balanced(y: Yielder, incoming: seq<Task>, buffered: seq<Task>) {
    Taken(y) + incoming == buffered && |buffered| <= y.buf
  }

  lemma BalancedRead(y: Yielder, incoming: seq<Task>, buffered: seq<Task>)
    requires Balanced(y, incoming, buffered) && incoming != [] && y.forwarder == Reading
    ensures Balanced(y.(forwarder := Writing(incoming[0])), incoming[1..], buffered)
  {
    assert incoming == [incoming[0]] + incoming[1..];
  }

  lemma BalancedWrite(y: Yielder, incoming: seq<Task>, buffered: seq<Task>)
    requires Balanced(y, incoming, buffered) && y.forwarder.Writing?
    ensures Balanced(y.(gen := y.gen + [y.forwarder.task], forwarder := Reading), incoming, buffered)
  {
  }

  lemma BalancedConsume(y: Yielder, incoming: seq<Task>, buffered: seq<Task>)
    requires Balanced(y, incoming, buffered) && y.gen != []
    ensures Balanced(y.(gen := y.gen[1..], out := y.out + [y.gen[0]]), incoming, buffered)
  {
    assert y.gen == [y.gen[0]] + y.gen[1..];
  }

  /** Steps that move no task. */
  lemma BalancedSame(y: Yielder, y': Yielder, incoming: seq<Task>, buffered: seq<Task>)
    requires Balanced(y, incoming, buffered)
    requires y'.out == y.out && y'.gen == y.gen && y'.buf == y.buf && Lost(y'.forwarder) == Lost(y.forwarder)
    ensures Balanced(y', incoming, buffered)
  {
  }

  lemma BalancedStep(y: Yielder, a: Action, incoming: seq<Task>, buffered: seq<Task>)
    requires Balanced(y, incoming, buffered)
    requires a.Read? ==> incoming != [] && y.forwarder == Reading
    requires a.Write? ==> y.forwarder.Writing?
    requires a.End? ==> y.forwarder == Reading
    requires a.Abort? ==> !y.forwarder.Ended?
    requires a.Consume? ==> y.gen != []
    ensures Balanced(YielderStep(y, a, incoming), if a.Read? then incoming[1..] else incoming, buffered)
  {
    hide Balanced;
    match a
    case Read => BalancedRead(y, incoming, buffered);
    case Write => BalancedWrite(y, incoming, buffered);
    case Consume => BalancedConsume(y, incoming, buffered);
    case _ => BalancedSame(y, YielderStep(y, a, incoming), incoming, buffered);
  }

  lemma BalancedKept(s: State, a: Action)
    requires s.handoff.Some? && Staged(s) && Excluded(s) && Enabled(s, a)
    requires s.others == 0 ==> Balanced(s.handoff.value, s.incoming, s.buffered)
    ensures var t := Apply(s, a);
      t.handoff.Some? && (t.others == 0 ==> Balanced(t.handoff.value, t.incoming, t.buffered))
  {
    HandoffAfter(s, a);
    if s.others == 0 {
      BalancedStep(s.handoff.value, a, s.incoming, s.buffered);
    }
    hide Balanced, Apply, YielderStep, Staged, Excluded, Enabled;
  }

  /** The handoff starts out balanced. */
  lemma BalancedNew(incoming: seq<Task>)
    ensures Balanced(NewYielder(|incoming|), incoming, incoming)
    ensures forall closed :: Faithful(NewYielder(|incoming|), incoming, closed)
  {
  }

  lemma CountedKept(s: State, a: Action)
    requires Staged(s) && Excluded(s) && Counted(s) && Enabled(s, a)
    ensures Counted(Apply(s, a))
  {
    hide YielderStep, NewYielder;
  }

  lemma CompleteKept(s: State, a: Action)
    requires Staged(s) && Excluded(s) && Counted(s) && Complete(s) && Enabled(s, a)
    ensures Complete(Apply(s, a))
  {
    if s.handoff.Some? {
      FaithfulKept(s, a);
      BalancedKept(s, a);
      hide Apply, Enabled, Faithful, Balanced, Excluded, Staged;
    } else if a.Build? {
      BalancedNew(s.incoming);
      hide Faithful, Balanced, NewYielder;
    } else {
      hide Faithful, Balanced, YielderStep;
    }
  }

  // ---------- The invariant of every run ----------

  ghost predicate Inv(s: State) {
    Staged(s) && Excluded(s) && Ordered(s) && Counted(s) && Complete(s) && Replied(s)
  }

  lemma InvInit(cap: nat)
    ensures Inv(Init(cap))
  {
  }

  lemma InvKept(s: State, a: Action)
    requires Inv(s) && Enabled(s, a)
    ensures Inv(Apply(s, a))
  {
    hide Staged, Excluded, Ordered, Counted, Complete, Replied, Apply, Enabled;
    RepliedKept(s, a);
    StagedKept(s, a);
    OrderedKept(s, a);
    CountedKept(s, a);
    CompleteKept(s, a);
  }

  lemma {:induction false} InvAfter(s: State, run: seq<Action>)
    requires Inv(s) && CanRun(s, run)
    ensures Inv(After(s, run))
    decreases |run|
  {
    hide Inv, Enabled, Apply;
    if run != [] {
      InvKept(s, run[0]);
      InvAfter(Apply(s, run[0]), run[1..]);
    }
  }

  ghost predicate Reachable(s: State) {
    exists cap, run :: CanRun(Init(cap), run) && s == After(Init(cap), run)
  }

  lemma ReachableInv(s: State)
    requires Reachable(s)
    ensures Inv(s)
  {
    hide Inv, Init, CanRun, After;
    var cap, run :| CanRun(Init(cap), run) && s == After(Init(cap), run);
    InvInit(cap);
    InvAfter(Init(cap), run);
  }

  // ---------- What holds in every reachable state ----------

  /** No run sends on the closed intake channel or closes a channel twice. */
  lemma NeverPanics(s: State)
    requires Reachable(s)
    ensures !s.panicked
    ensures forall p, task :: p in s.submitters && s.submitters[p] == Sending(task) ==> !s.incomingClosed
  {
    ReachableInv(s);
  }

  /** First in, first out; and every accepted task went in before the write lock was taken. */
  lemma ReceivedInOrder(s: State)
    requires Reachable(s)
    ensures s.received + s.incoming == s.accepted && |s.incoming| <= s.cap
    ensures s.incomingClosed ==> s.accepted == s.sealedAccepted
  {
    ReachableInv(s);
  }

  /**
    The handoff emits what was buffered at the write lock, in order and without ever waiting for
    room, and ends with ErrInputClosed once all of it is out, provided nobody else retrieves and
    nobody stops it, and its context is not done before its end.
   */
  lemma HandoffCompleteInOrder(s: State)
    requires Reachable(s) && s.handoff.Some? && s.others == 0
    requires !s.handoff.value.ctxDone || s.handoff.value.err == Some(InputClosed)
    ensures var y := s.handoff.value;
      && y.out + y.gen + Lost(y.forwarder) + s.incoming == s.buffered
      && (y.forwarder.Writing? ==> |y.gen| < y.buf)
      && (y.forwarder.Ended? ==> y.out + y.gen == s.buffered && s.incoming == [])
      && (y.forwarder.Ended? && !y.stopCalled ==> y.err == Some(InputClosed))
      && (y.err == Some(InputClosed) ==> y.out + y.gen == s.buffered)
  {
    ReachableInv(s);
    var y := s.handoff.value;
    assert |Taken(y)| == |y.out| + |y.gen| + |Lost(y.forwarder)|;
  }

  /** With other receivers about, a handoff that ended on the closed input still lost nothing it had read. */
  lemma CleanEndLosesNothing(s: State)
    requires Reachable(s) && s.handoff.Some? && s.handoff.value.err == Some(InputClosed)
    ensures s.incomingClosed && s.incoming == [] && Lost(s.handoff.value.forwarder) == []
    ensures s.received == s.sealedAccepted
  {
    ReachableInv(s);
  }

  /** The output channel holds no more than it has room for. */
  ghost predicate Fits(y: Yielder) {
    |y.gen| <= y.buf && 1 <= y.buf
  }

  lemma FitsStep(y: Yielder, a: Action, incoming: seq<Task>)
    requires Fits(y)
    requires a.Read? ==> incoming != []
    requires a.Write? ==> y.forwarder.Writing? && |y.gen| < y.buf
    requires a.Consume? ==> y.gen != []
    ensures Fits(YielderStep(y, a, incoming))
  {
  }

  /** Only building brings a handoff about. */
  lemma HandoffComes(s: State, a: Action)
    requires Staged(s) && Enabled(s, a) && s.handoff.None? && Apply(s, a).handoff.Some?
    ensures a.Build? && Apply(s, a).handoff == Some(NewYielder(|s.incoming|))
  {
    hide YielderStep, NewYielder, Advance;
  }

  lemma FitsKept(s: State, a: Action)
    requires Inv(s) && Enabled(s, a) && (s.handoff.Some? ==> Fits(s.handoff.value))
    ensures Apply(s, a).handoff.Some? ==> Fits(Apply(s, a).handoff.value)
  {
    if s.handoff.Some? {
      HandoffAfter(s, a);
      FitsStep(s.handoff.value, a, s.incoming);
    } else if Apply(s, a).handoff.Some? {
      HandoffComes(s, a);
    }
    hide Inv, Apply, YielderStep;
  }

  lemma {:induction false} FitsStays(s: State, run: seq<Action>)
    requires Inv(s) && CanRun(s, run) && (s.handoff.Some? ==> Fits(s.handoff.value))
    ensures After(s, run).handoff.Some? ==> Fits(After(s, run).handoff.value)
    decreases |run|
  {
    hide Inv, Enabled, Apply, Fits;
    if run != [] {
      FitsKept(s, run[0]);
      InvKept(s, run[0]);
      FitsStays(Apply(s, run[0]), run[1..]);
    }
  }

  /** With any receivers about, the handoff never buffers more than its channel has room for, and it has some room. */
  lemma HandoffHasRoom(s: State)
    requires Reachable(s) && s.handoff.Some?
    ensures |s.handoff.value.gen| <= s.handoff.value.buf && 1 <= s.handoff.value.buf
  {
    hide Inv, Apply, Enabled;
    var cap, run :| CanRun(Init(cap), run) && s == After(Init(cap), run);
    InvInit(cap);
    FitsStays(Init(cap), run);
  }

  /** How many steps the forwarder has left once the channel is closed. */
  function StepsLeft(y: Yielder, incoming: seq<Task>): nat {
    if y.forwarder.Ended? then 0 else 2 * |incoming| + (if y.forwarder.Writing? then 2 else 1)
  }

  /** A closed lobby whose handoff is still being forwarded, undisturbed. */
  ghost predicate HandingOver(s: State) {
    Inv(s) && s.once == Spent && s.handoff.Some? && s.others == 0 && !s.handoff.value.ctxDone
  }

  /** The forwarder always has a step to take, whatever the consumer does. */
  lemma ForwarderStep(s: State) returns (a: Action)
    requires HandingOver(s) && !s.handoff.value.forwarder.Ended?
    ensures (a == Read || a == Write || a == End) && Enabled(s, a)
    ensures var t := Apply(s, a);
      && HandingOver(t) && t.buffered == s.buffered && t.handoff.value.out == s.handoff.value.out
      && StepsLeft(t.handoff.value, t.incoming) == StepsLeft(s.handoff.value, s.incoming) - 1
  {
    var y := s.handoff.value;
    assert |Taken(y)| == |y.out| + |y.gen| + |Lost(y.forwarder)|;
    a := if y.forwarder.Writing? then Write else if s.incoming != [] then Read else End;
    InvKept(s, a);
    hide Ordered, Balanced, Faithful;
  }

  /** The forwarder finishes on its own: no consumer has to make room. */
  lemma {:induction false} ForwarderFinishes(s: State) returns (run: seq<Action>)
    requires HandingOver(s)
    ensures |run| == StepsLeft(s.handoff.value, s.incoming)
    ensures forall i :: 0 <= i < |run| ==> run[i] == Read || run[i] == Write || run[i] == End
    ensures CanRun(s, run) && HandingOver(After(s, run))
    ensures var y := After(s, run).handoff.value;
      && y.forwarder.Ended? && y.out == s.handoff.value.out && y.out + y.gen == s.buffered
    decreases StepsLeft(s.handoff.value, s.incoming)
  {
    if s.handoff.value.forwarder.Ended? {
      run := [];
    } else {
      var a := ForwarderStep(s);
      var rest := ForwarderFinishes(Apply(s, a));
      run := [a] + rest;
      hide Apply, Enabled, Inv;
      assert run[1..] == rest;
    }
  }

  lemma FirstErrorStep(s: State, a: Action)
    requires Inv(s) && Enabled(s, a) && s.handoff.Some? && s.handoff.value.err.Some?
    ensures Apply(s, a).handoff.Some? && Apply(s, a).handoff.value.err == s.handoff.value.err
  {
    HandoffAfter(s, a);
    hide Inv, Apply, Enabled;
  }

  /** The first error of a handoff is its error for good. */
  lemma {:induction false} FirstErrorStays(s: State, run: seq<Action>)
    requires Inv(s) && CanRun(s, run) && s.handoff.Some? && s.handoff.value.err.Some?
    ensures After(s, run).handoff.Some? && After(s, run).handoff.value.err == s.handoff.value.err
    decreases |run|
  {
    hide Inv, Apply, Enabled;
    if run != [] {
      InvKept(s, run[0]);
      FirstErrorStep(s, run[0]);
      FirstErrorStays(Apply(s, run[0]), run[1..]);
    }
  }

  // ---------- What CloseContext and HandoffTasks tell their callers ----------

  /** HandoffTasks: the handoff if any, and whether the lobby is closed. */
  function HandoffTasks(s: State): (Option<Yielder>, bool) {
    if !s.closed then (None, false) else (s.handoff, true)
  }

  lemma AdvanceSaw(closers: map<nat, Closer>, owner: nat, phase: ClosePhase, c: nat)
    requires c in closers
    ensures c in Advance(closers, owner, phase) && Advance(closers, owner, phase)[c].sawClosed == closers[c].sawClosed
  {
  }

  lemma SawCloser(s: State, a: Action, c: nat)
    requires Enabled(s, a) && ByCloser(a) && c in s.closers
    ensures c in CloserStep(s, a).closers && CloserStep(s, a).closers[c].sawClosed == s.closers[c].sawClosed
  {
    hide Advance, NewYielder;
    match a
    case Flag(d) => AdvanceSaw(s.closers, d, Flagged, c);
    case EnterOnce(d) => AdvanceSaw(s.closers, d, Inside, c);
    case SkipOnce(d) => AdvanceSaw(s.closers, d, Returned(Closed), c);
    case Unlock => AdvanceSaw(s.closers, s.once.owner, Returned(if s.buildFailed then BuildError else Closed), c);
    case _ =>
  }

  lemma SawKept(s: State, a: Action, c: nat)
    requires Enabled(s, a) && c in s.closers
    ensures c in Apply(s, a).closers && Apply(s, a).closers[c].sawClosed == s.closers[c].sawClosed
  {
    hide Enabled, SubmitterStep, CloserStep, ReceiverStep, BySubmitter, ByCloser;
    if ByCloser(a) {
      SawCloser(s, a, c);
      CloserApplies(s, a);
    } else {
      ClosersAlone(s, a);
    }
  }

  lemma {:induction false} SawStays(s: State, run: seq<Action>, c: nat)
    requires CanRun(s, run) && c in s.closers
    ensures c in After(s, run).closers && After(s, run).closers[c].sawClosed == s.closers[c].sawClosed
    decreases |run|
  {
    hide Enabled, Apply;
    if run != [] {
      SawKept(s, run[0], c);
      SawStays(Apply(s, run[0]), run[1..], c);
    }
  }

  /**
    A close call that starts in this state, and has returned after any further steps, returned
    ErrLobbyClosed if and only if the closed flag was set when it started.
   */
  lemma ClosedReplyExactly(s: State, c: nat, run: seq<Action>)
    requires Reachable(s) && Enabled(s, BeginClose(c)) && CanRun(Apply(s, BeginClose(c)), run)
    ensures var t := After(Apply(s, BeginClose(c)), run);
      c in t.closers && (t.closers[c].phase.Returned? ==> (t.closers[c].phase.reply == LobbyClosed <==> s.closed))
  {
    var started := Apply(s, BeginClose(c));
    ReachableInv(s);
    InvKept(s, BeginClose(c));
    assert c in started.closers && started.closers[c].sawClosed == s.closed;
    hide Enabled, Apply;
    InvAfter(started, run);
    SawStays(started, run, c);
    var t := After(started, run);
    assert Answered(t.closers);
  }

  /** A close call that went past the flag returns only after the once is spent. */
  ghost predicate Waited(closers: map<nat, Closer>, once: Once) {
    once != Spent ==> forall c :: c in closers && closers[c].phase.Returned? ==> closers[c].phase.reply == LobbyClosed
  }

  lemma WaitedNew(closers: map<nat, Closer>, once: Once, c: nat, closed: bool)
    requires Waited(closers, once)
    ensures Waited(closers[c := Closer(closed, if closed then Returned(LobbyClosed) else Saw)], once)
  {
  }

  lemma WaitedAdvance(closers: map<nat, Closer>, once: Once, c: nat, phase: ClosePhase, once': Once)
    requires Waited(closers, once) && (once == Spent ==> once' == Spent)
    requires !phase.Returned? || once' == Spent
    ensures Waited(Advance(closers, c, phase), once')
  {
  }

  lemma WaitedStage(closers: map<nat, Closer>, once: Once, once': Once)
    requires Waited(closers, once) && once != Spent
    ensures Waited(closers, once')
  {
  }

  lemma WaitedCloser(s: State, a: Action)
    requires Waited(s.closers, s.once) && Enabled(s, a) && ByCloser(a)
    ensures Waited(CloserStep(s, a).closers, CloserStep(s, a).once)
  {
    hide Waited, Advance, NewYielder;
    match a
    case BeginClose(c) => WaitedNew(s.closers, s.once, c, s.closed);
    case Flag(c) => WaitedAdvance(s.closers, s.once, c, Flagged, s.once);
    case EnterOnce(c) => WaitedAdvance(s.closers, s.once, c, Inside, Busy(c, Announced));
    case SkipOnce(c) => WaitedAdvance(s.closers, s.once, c, Returned(Closed), Spent);
    case Unlock =>
      WaitedAdvance(s.closers, s.once, s.once.owner, Returned(if s.buildFailed then BuildError else Closed), Spent);
    case Lock => WaitedStage(s.closers, s.once, Busy(s.once.owner, Owning));
    case Build => WaitedStage(s.closers, s.once, Busy(s.once.owner, Built));
    case BuildFail => WaitedStage(s.closers, s.once, Busy(s.once.owner, Built));
    case CloseIncoming => WaitedStage(s.closers, s.once, Busy(s.once.owner, Sealed));
  }

  lemma WaitedKept(s: State, a: Action)
    requires Waited(s.closers, s.once) && Enabled(s, a)
    ensures Waited(Apply(s, a).closers, Apply(s, a).once)
  {
    if ByCloser(a) {
      WaitedCloser(s, a);
      CloserApplies(s, a);
    } else {
      ClosersAlone(s, a);
    }
    hide Enabled, Apply, CloserStep, ByCloser;
  }

  lemma {:induction false} WaitedStays(s: State, run: seq<Action>)
    requires Inv(s) && Waited(s.closers, s.once) && CanRun(s, run)
    ensures Waited(After(s, run).closers, After(s, run).once)
    decreases |run|
  {
    hide Inv, Enabled, Apply, Waited;
    if run != [] {
      WaitedKept(s, run[0]);
      InvKept(s, run[0]);
      WaitedStays(Apply(s, run[0]), run[1..]);
    }
  }

  /**
    When a close call has returned anything but ErrLobbyClosed, overlapping another one or not, the
    intake is closed and nothing was or will be accepted beyond what was when the write lock was taken.
   */
  lemma ReturnedMeansClosed(s: State, c: nat)
    requires Reachable(s) && c in s.closers && s.closers[c].phase.Returned?
    requires s.closers[c].phase.reply != LobbyClosed
    ensures s.closed && s.incomingClosed && s.accepted == s.sealedAccepted
  {
    ReachableInv(s);
    hide Inv, Apply, Enabled;
    var cap, run :| CanRun(Init(cap), run) && s == After(Init(cap), run);
    InvInit(cap);
    WaitedStays(Init(cap), run);
    SpentClosed(s);
  }

  lemma SpentClosed(s: State)
    requires Inv(s) && s.once == Spent
    ensures s.closed && s.incomingClosed && s.accepted == s.sealedAccepted
  {
  }

  /** What the close call inside the once comes to: its reply says whether the handoff could be built. */
  ghost predicate Settling(s: State, c: nat) {
    && c in s.closers
    && (s.closers[c].phase == Inside ||
        (s.once == Spent && s.closers[c].phase == Returned(if s.buildFailed then BuildError else Closed)))
  }

  lemma SettlingCloser(s: State, a: Action, c: nat)
    requires Owned(s.closers, s.once) && Settling(s, c) && Enabled(s, a) && ByCloser(a)
    ensures Settling(CloserStep(s, a), c)
  {
    hide NewYielder;
  }

  lemma SettlingKept(s: State, a: Action, c: nat)
    requires Owned(s.closers, s.once) && Settling(s, c) && Enabled(s, a)
    ensures Settling(Apply(s, a), c)
  {
    if ByCloser(a) {
      SettlingCloser(s, a, c);
      CloserApplies(s, a);
    } else {
      ClosersAlone(s, a);
    }
    hide Enabled, Apply, CloserStep, ByCloser;
  }

  lemma {:induction false} SettlingStays(s: State, run: seq<Action>, c: nat)
    requires Inv(s) && Settling(s, c) && CanRun(s, run)
    ensures Settling(After(s, run), c)
    decreases |run|
  {
    assert Owned(s.closers, s.once);
    hide Inv, Enabled, Apply, Settling;
    if run != [] {
      SettlingKept(s, run[0], c);
      InvKept(s, run[0]);
      SettlingStays(Apply(s, run[0]), run[1..], c);
    }
  }

  /**
    The close call that enters the once, when it has returned after any further steps, returned
    the build error if and only if the handoff could not be built, and nil otherwise.
   */
  lemma BuildErrorExactly(s: State, c: nat, run: seq<Action>)
    requires Reachable(s) && c in s.closers && s.closers[c].phase == Inside && CanRun(s, run)
    ensures var t := After(s, run);
      && c in t.closers
      && (t.closers[c].phase.Returned? ==>
            && (t.closers[c].phase.reply == BuildError <==> t.buildFailed)
            && (t.closers[c].phase.reply == Closed <==> t.handoff.Some?))
  {
    ReachableInv(s);
    hide Enabled, Apply;
    SettlingStays(s, run, c);
    InvAfter(s, run);
  }

  /**
    HandoffTasks says whether the lobby is closed, and returns the handoff once there is one. It
    returns none if and only if the close has not got past building it yet, as on an open lobby,
    or could not build it.
   */
  lemma HandoffNilExactly(s: State)
    requires Reachable(s)
    ensures HandoffTasks(s).1 <==> s.closed
    ensures HandoffTasks(s).0.None? <==>
      s.once == Fresh || At(s.once, Announced) || At(s.once, Owning) || s.buildFailed
    ensures HandoffTasks(s).0.Some? ==> HandoffTasks(s).1 && HandoffTasks(s).0 == s.handoff
    ensures !s.closed ==> HandoffTasks(s).0.None?
  {
    ReachableInv(s);
  }

  lemma {:induction false} RunAppend(s: State, run: seq<Action>, a: Action)
    requires CanRun(s, run) && Enabled(After(s, run), a)
    ensures CanRun(s, run + [a]) && After(s, run + [a]) == Apply(After(s, run), a)
    decreases |run|
  {
    hide Enabled, Apply;
    if run == [] {
      assert run + [a] == [a] && [a][1..] == [];
    } else {
      assert (run + [a])[1..] == run[1..] + [a];
      RunAppend(Apply(s, run[0]), run[1..], a);
    }
  }

  lemma ReachableStep(s: State, a: Action)
    requires Reachable(s) && Enabled(s, a)
    ensures Reachable(Apply(s, a))
  {
    hide Enabled, Apply, Init;
    var cap, run :| CanRun(Init(cap), run) && s == After(Init(cap), run);
    RunAppend(Init(cap), run, a);
  }

  lemma InitReachable(cap: nat)
    ensures Reachable(Init(cap))
  {
    assert CanRun(Init(cap), []) && After(Init(cap), []) == Init(cap);
  }

  lemma BothRead() returns (s: State)
    ensures Reachable(s) && s == Init(1).(closers := map[1 := Closer(false, Saw), 2 := Closer(false, Saw)])
  {
    InitReachable(1);
    s := Init(1);
    hide Reachable;
    ReachableStep(s, BeginClose(1));
    s := Apply(s, BeginClose(1));
    ReachableStep(s, BeginClose(2));
    s := Apply(s, BeginClose(2));
  }

  lemma BothFlag() returns (s: State)
    ensures Reachable(s)
    ensures s == Init(1).(closers := map[1 := Closer(false, Flagged), 2 := Closer(false, Flagged)], closed := true)
  {
    s := BothRead();
    hide Reachable;
    ReachableStep(s, Flag(1));
    s := Apply(s, Flag(1));
    ReachableStep(s, Flag(2));
    s := Apply(s, Flag(2));
  }

  /** Two close calls read the flag before either sets it, and the first enters the once. */
  lemma TwoClosers() returns (s: State)
    ensures Reachable(s)
    ensures s == Init(1).(closers := map[1 := Closer(false, Inside), 2 := Closer(false, Flagged)], closed := true,
                          once := Busy(1, Announced), closing := true)
  {
    s := BothFlag();
    hide Reachable;
    ReachableStep(s, EnterOnce(1));
    s := Apply(s, EnterOnce(1));
  }

  lemma FirstBuilds() returns (s: State)
    ensures Reachable(s)
    ensures s == Init(1).(closers := map[1 := Closer(false, Inside), 2 := Closer(false, Flagged)], closed := true,
                          once := Busy(1, Built), closing := true, locked := true, handoff := Some(NewYielder(0)))
  {
    s := TwoClosers();
    hide Reachable;
    ReachableStep(s, Lock);
    s := Apply(s, Lock);
    ReachableStep(s, Build);
    s := Apply(s, Build);
  }

  /** While a close is waiting for the write lock, the lobby is closed and the handoff nil, though nothing failed. */
  lemma HandoffNilWhileClosing() returns (s: State)
    ensures Reachable(s) && At(s.once, Announced) && !s.buildFailed && HandoffTasks(s) == (None, true)
  {
    s := TwoClosers();
  }

  /** Of two close calls that overlap, the second returns nil although the first has closed the lobby. */
  lemma SecondCloserGetsNil() returns (s: State)
    ensures Reachable(s) && s.incomingClosed && 1 in s.closers && 2 in s.closers
    ensures s.closers[1].phase == Returned(Closed) && s.closers[2] == Closer(false, Returned(Closed))
  {
    s := FirstBuilds();
    hide Reachable;
    ReachableStep(s, CloseIncoming);
    s := Apply(s, CloseIncoming);
    ReachableStep(s, Unlock);
    s := Apply(s, Unlock);
    ReachableStep(s, SkipOnce(2));
    s := Apply(s, SkipOnce(2));
  }
}
